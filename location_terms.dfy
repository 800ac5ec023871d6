/**
  Terms of the remote term store as the Locations component sees them, the
  request URL it builds for "the children of a term", and the read-only
  lookups its markup performs on a loaded list of terms.
*/
module LocationTerms {
  import opened Wrappers

  /** One entry of a term's `labels` array. */
  datatype TermLabel = TermLabel(name: string)

  /** A term as returned in the `value` array of the store's answer. */
  datatype Term = Term(id: string, labels: seq<TermLabel>)

  /** The fixed taxonomy group every request is addressed to. */
  const GroupId: string := "a66b7b2f-9f5d-4573-b763-542518574351"

  /** The fixed "offices" term set every request is addressed to. */
  const SetId: string := "f6fc9802-3af3-4200-92de-9fe5f4af4fd2"

  /** The "division" term that level 1 starts out selected at. */
  const AnchorId: string := "e8e6feb5-1cf7-47bd-afb7-e352b78bd365"

  /** Everything of a request URL that precedes the parent term id. */
  function UrlPrefix(webUrl: string): (prefix: string)
    ensures |prefix| == |webUrl| + 113
    ensures prefix[..|webUrl|] == webUrl
    ensures prefix[|webUrl|..|webUrl| + 28] == "/_api/v2.1/termStore/groups/"
    ensures prefix[|webUrl| + 28..|webUrl| + 64] == GroupId
    ensures prefix[|webUrl| + 64..|webUrl| + 70] == "/sets/"
    ensures prefix[|webUrl| + 70..|webUrl| + 106] == SetId
    ensures prefix[|webUrl| + 106..] == "/terms/"
  {
    webUrl + "/_api/v2.1/termStore/groups/" + GroupId + "/sets/" + SetId + "/terms/"
  }

  /** Everything of a request URL that follows the parent term id. */
  const UrlSuffix: string := "/children?select=*"

  /**
    The URL that asks the store for the children of `termId` on the site
    `webUrl`: the site URL, then the fixed group and set, then the parent
    id, then the children selector.
  */
  function TermsUrl(webUrl: string, termId: string): (url: string)
    ensures |url| == |UrlPrefix(webUrl)| + |termId| + |UrlSuffix|
    ensures url[..|UrlPrefix(webUrl)|] == UrlPrefix(webUrl)
    ensures url[|UrlPrefix(webUrl)|..|UrlPrefix(webUrl)| + |termId|] == termId
    ensures url[|UrlPrefix(webUrl)| + |termId|..] == UrlSuffix
  {
    UrlPrefix(webUrl) + termId + UrlSuffix
  }

  /**
    Reads the parent term id back out of a request URL for the site
    `webUrl`; `None` when `url` is not of the request shape.
  */
  function ParentOfUrl(webUrl: string, url: string): (parent: Option<string>)
    ensures parent.Some? ==> |url| == |UrlPrefix(webUrl)| + |parent.value| + |UrlSuffix|
  {
    var pre, suf := UrlPrefix(webUrl), UrlSuffix;
    if |pre| + |suf| <= |url| && url[..|pre|] == pre && url[|url| - |suf|..] == suf
    then Some(url[|pre|..|url| - |suf|])
    else None
  }

  /** Reading the parent back out of a request URL gives the id it was built from. */
  lemma ParentOfTermsUrl(webUrl: string, termId: string)
    ensures ParentOfUrl(webUrl, TermsUrl(webUrl, termId)) == Some(termId)
  {
  }

  /** Every URL the parent can be read out of is the request URL for that parent. */
  lemma TermsUrlOfParent(webUrl: string, url: string)
    requires ParentOfUrl(webUrl, url).Some?
    ensures TermsUrl(webUrl, ParentOfUrl(webUrl, url).value) == url
  {
  }

  /** Two requests for the same site hit the same URL exactly when they name the same parent. */
  lemma TermsUrlInjective(webUrl: string, p: string, q: string)
    ensures TermsUrl(webUrl, p) == TermsUrl(webUrl, q) <==> p == q
  {
  }

  /** The text `term.labels[0].name`; `None` where the markup would fail on a term without labels. */
  function LabelOf(t: Term): (name: Option<string>)
    ensures name.Some? <==> |t.labels| > 0
    ensures name.Some? ==> name.value == t.labels[0].name
  {
    if |t.labels| > 0 then Some(t.labels[0].name) else None
  }

  /**
    The names the markup shows for a list of terms, in order (the options of
    a selector and the list under the selectors); `None` when some term has
    no label, where rendering would throw.
  */
  function RenderedNames(terms: seq<Term>): (names: Option<seq<string>>)
    ensures names.Some? <==> forall i :: 0 <= i < |terms| ==> |terms[i].labels| > 0
    ensures names.Some? ==> |names.value| == |terms|
    ensures names.Some? ==> forall i :: 0 <= i < |terms| ==> names.value[i] == terms[i].labels[0].name
  {
    if terms == [] then Some([])
    else
      match (LabelOf(terms[0]), RenderedNames(terms[1..]))
      case (Some(n), Some(rest)) => Some([n] + rest)
      case _ => None
  }

  /** `i` is the position of the first term of `terms` whose id is `id`. */
  ghost predicate FirstWithId(terms: seq<Term>, id: string, i: int)
  {
    0 <= i < |terms| && terms[i].id == id && forall j :: 0 <= j < i ==> terms[j].id != id
  }

  /** The position `Array.prototype.find` stops at when looking for the term with id `id`. */
  function FindIndex(terms: seq<Term>, id: string): (r: Option<nat>)
    ensures r.Some? ==> FirstWithId(terms, id, r.value)
    ensures r.None? <==> forall j :: 0 <= j < |terms| ==> terms[j].id != id
  {
    if terms == [] then None
    else if terms[0].id == id then Some(0)
    else match FindIndex(terms[1..], id)
      case None => None
      case Some(k) => Some(k + 1)
  }

  /** What the paragraph of the details panel shows. */
  datatype Detail =
    | NoMatch           // no level-3 term has the selected id: the paragraph is empty
    | Named(name: string) // the label of the first term with the selected id
    | Unlabelled        // that term has no label: reading `labels[0].name` throws

  /**
    The details panel for the level-3 selection `selected` over the level-3
    list `terms`: hidden (`None`) while nothing is selected, otherwise the
    label of the first term whose id is the selection.
  */
  function SelectedTermDetails(selected: string, terms: seq<Term>): (panel: Option<Detail>)
    ensures panel.None? <==> selected == ""
    ensures panel == Some(NoMatch) <==> selected != "" && forall j :: 0 <= j < |terms| ==> terms[j].id != selected
    ensures panel.Some? && panel.value != NoMatch ==>
      exists i :: FirstWithId(terms, selected, i) &&
        panel.value == (if |terms[i].labels| == 0 then Unlabelled else Named(terms[i].labels[0].name))
  {
    if selected == "" then None
    else match FindIndex(terms, selected)
      case None => Some(NoMatch)
      case Some(i) =>
        match LabelOf(terms[i])
        case None => Some(Unlabelled)
        case Some(n) => Some(Named(n))
  }
}
