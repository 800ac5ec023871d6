/**
  The three-level cascading selection of the Locations component: the six
  pieces of component state, the fetches its effects issue when a selection
  changes, the three change handlers, and what a finished fetch does.

  `ViewState` and the functions over it say what each step does to the whole
  state; the class `LocationsView` performs the same steps field by field,
  in the order the component's handlers and effects do.
*/
module Locations {
  import opened Wrappers
  import opened LocationTerms

  /** The three selectors, outermost first. */
  datatype Level = Level1 | Level2 | Level3

  /** A fetch in flight: the children of `parent`, to become level `target`'s list. */
  datatype Request = Request(parent: string, target: Level)

  /** The URL a request is sent to on the site `webUrl`. */
  function RequestUrl(webUrl: string, q: Request): (url: string)
    ensures ParentOfUrl(webUrl, url) == Some(q.parent)
  {
    ParentOfTermsUrl(webUrl, q.parent);
    TermsUrl(webUrl, q.parent)
  }

  /**
    The component state: the selected term id of each level ("" is the
    "Select a term" placeholder), the loaded list of each level, and the
    fetches issued but not yet finished, oldest first.
  */
  datatype ViewState = ViewState(
    sel1: string, sel2: string, sel3: string,
    terms1: seq<Term>, terms2: seq<Term>, terms3: seq<Term>,
    pending: seq<Request>)

  /** The list a level's selector offers. */
  function TermsAt(s: ViewState, level: Level): seq<Term>
  {
    match level
    case Level1 => s.terms1
    case Level2 => s.terms2
    case Level3 => s.terms3
  }

  /**
    The fetches the three effects issue after a render, given the level-1 and
    level-2 selections of that render and whether each differs from the
    previous render's (on the first render every effect runs). The first
    effect refetches level 1's list under the level-1 selection, even an empty
    one; the second fetches level 2's list under the same parent when it is
    not empty; the third fetches level 3's list under a non-empty level-2
    selection.
  */
  function Fired(sel1: string, sel2: string, changed1: bool, changed2: bool): (fired: seq<Request>)
    ensures |fired| <= 3
    ensures forall q :: q in fired ==> q.parent == (if q.target == Level3 then sel2 else sel1)
    ensures Request(sel1, Level1) in fired <==> changed1
    ensures (exists q :: q in fired && q.target == Level2) <==> changed1 && sel1 != ""
    ensures (exists q :: q in fired && q.target == Level3) <==> changed2 && sel2 != ""
    ensures forall i, j :: 0 <= i < j < |fired| ==> fired[i].target != fired[j].target
  {
    (if changed1 then [Request(sel1, Level1)] + (if sel1 != "" then [Request(sel1, Level2)] else []) else [])
    + (if changed2 && sel2 != "" then [Request(sel2, Level3)] else [])
  }

  /**
    The state once the component has rendered for the first time: level 1
    at the anchor term, everything else empty, and the anchor's children
    requested twice, once for level 1 and once for level 2.
  */
  function Mounted(): (s: ViewState)
    ensures s.sel1 == AnchorId && s.sel2 == "" && s.sel3 == ""
    ensures s.terms1 == [] && s.terms2 == [] && s.terms3 == []
    ensures s.pending == [Request(AnchorId, Level1), Request(AnchorId, Level2)]
  {
    var s := ViewState(AnchorId, "", "", [], [], [], []);
    s.(pending := Fired(s.sel1, s.sel2, true, true))
  }

  /** `t` follows `s` by a handler that set the selections and lists of `t`, followed by the effects. */
  function Settle(s: ViewState, t: ViewState): ViewState
  {
    t.(pending := s.pending + Fired(t.sel1, t.sel2, t.sel1 != s.sel1, t.sel2 != s.sel2))
  }

  /**
    Choosing `id` in the level-1 selector. The id is taken as it is; levels 2
    and 3 lose their selection and their list; level 1's own list stays until
    its refetch finishes. Only a new value fetches: lists for level 1 and
    (unless `id` is the placeholder) level 2, both under `id`.
  */
  function AfterLevel1(s: ViewState, id: string): (t: ViewState)
    ensures t.sel1 == id && t.sel2 == "" && t.sel3 == ""
    ensures t.terms1 == s.terms1 && t.terms2 == [] && t.terms3 == []
    ensures t.pending == s.pending +
      (if id == s.sel1 then []
       else if id == "" then [Request(id, Level1)]
       else [Request(id, Level1), Request(id, Level2)])
  {
    Settle(s, s.(sel1 := id, sel2 := "", sel3 := "", terms2 := [], terms3 := []))
  }

  /**
    Choosing `id` in the level-2 selector: level 3 loses its selection and
    list, level 1 and level 2's list stay. Only a new, non-empty value fetches
    level 3's list under `id`.
  */
  function AfterLevel2(s: ViewState, id: string): (t: ViewState)
    ensures t.sel1 == s.sel1 && t.sel2 == id && t.sel3 == ""
    ensures t.terms1 == s.terms1 && t.terms2 == s.terms2 && t.terms3 == []
    ensures t.pending == s.pending + (if id != s.sel2 && id != "" then [Request(id, Level3)] else [])
  {
    Settle(s, s.(sel2 := id, sel3 := "", terms3 := []))
  }

  /** Choosing `id` in the level-3 selector records it and changes nothing else. */
  function AfterLevel3(s: ViewState, id: string): (t: ViewState)
    ensures t.sel3 == id
    ensures t.sel1 == s.sel1 && t.sel2 == s.sel2
    ensures t.terms1 == s.terms1 && t.terms2 == s.terms2 && t.terms3 == s.terms3
    ensures t.pending == s.pending
    ensures id == s.sel3 ==> t == s
  {
    Settle(s, s.(sel3 := id))
  }

  /**
    The fetch at position `index` finishes with `result` (`None`: the
    response was not ok). It leaves the in-flight list; an answer replaces
    its target list wholesale, whatever the selections are by now; a failure
    changes nothing else.
  */
  function Complete(s: ViewState, index: nat, result: Option<seq<Term>>): (t: ViewState)
    requires index < |s.pending|
    ensures t.sel1 == s.sel1 && t.sel2 == s.sel2 && t.sel3 == s.sel3
    ensures t.pending == s.pending[..index] + s.pending[index + 1..]
    ensures forall level :: TermsAt(t, level) ==
                              (if result.Some? && level == s.pending[index].target then result.value else TermsAt(s, level))
  {
    var rest := s.pending[..index] + s.pending[index + 1..];
    match result
    case None => s.(pending := rest)
    case Some(terms) =>
      match s.pending[index].target
      case Level1 => s.(terms1 := terms, pending := rest)
      case Level2 => s.(terms2 := terms, pending := rest)
      case Level3 => s.(terms3 := terms, pending := rest)
  }

  /**
    A finished fetch leaves the in-flight list exactly once: what remains,
    together with it, is what was in flight before.
  */
  lemma {:induction false} CompleteRemovesOne(s: ViewState, index: nat, result: Option<seq<Term>>)
    requires index < |s.pending|
    ensures multiset(Complete(s, index, result).pending) + multiset{s.pending[index]} == multiset(s.pending)
    ensures forall q :: q in Complete(s, index, result).pending ==> q in s.pending
  {
    var t := Complete(s, index, result);
    assert s.pending == s.pending[..index] + [s.pending[index]] + s.pending[index + 1..];
    forall q | q in t.pending
      ensures q in s.pending
    {
      assert q in multiset(t.pending);
    }
  }

  /** Whether a level's selector is on screen: level 2's needs a level-1 selection, level 3's a level-2 one. */
  predicate Shown(s: ViewState, level: Level): (shown: bool)
    ensures level == Level1 ==> shown
    ensures level == Level2 ==> (shown <==> s.sel1 != "")
    ensures level == Level3 ==> (shown <==> s.sel2 != "")
  {
    match level
    case Level1 => true
    case Level2 => s.sel1 != ""
    case Level3 => s.sel2 != ""
  }

  /** The Locations component, one object per mounted view. */
  class LocationsView {
    /** The site URL requests are addressed to. */
    const webUrl: string
    var sel1: string
    var sel2: string
    var sel3: string
    var terms1: seq<Term>
    var terms2: seq<Term>
    var terms3: seq<Term>
    var pending: seq<Request>

    /** The component state as a value. */
    function State(): ViewState
      reads this
    {
      ViewState(sel1, sel2, sel3, terms1, terms2, terms3, pending)
    }

    /** The URL the in-flight request at `index` was sent to. */
    function UrlOf(index: nat): (url: string)
      reads this
      requires index < |pending|
      ensures ParentOfUrl(webUrl, url) == Some(pending[index].parent)
      ensures url[..|webUrl|] == webUrl
    {
      RequestUrl(webUrl, pending[index])
    }

    /** The first render: the initial state, then every effect runs once. */
    constructor Mount(webUrl: string)
      ensures this.webUrl == webUrl
      ensures State() == Mounted()
    {
      this.webUrl := webUrl;
      terms1, terms2, terms3 := [], [], [];
      sel1, sel2, sel3 := AnchorId, "", "";
      pending := [];
      new;
      RunEffects(true, true);
    }

    /** The three effects, in declaration order; `changed1`/`changed2` say which selections changed. */
    method RunEffects(changed1: bool, changed2: bool)
      modifies this`pending
      ensures pending == old(pending) + Fired(sel1, sel2, changed1, changed2)
    {
      if changed1 {
        pending := pending + [Request(sel1, Level1)];
      }
      if changed1 {
        if sel1 != "" {
          pending := pending + [Request(sel1, Level2)];
        }
      }
      if changed2 {
        if sel2 != "" {
          pending := pending + [Request(sel2, Level3)];
        }
      }
    }

    /** The level-1 change handler, then the effects of the render it causes. */
    method SelectLevel1(newTermId: string)
      modifies this
      ensures State() == AfterLevel1(old(State()), newTermId)
    {
      var was1, was2 := sel1, sel2;
      sel1 := newTermId;
      sel2 := "";
      sel3 := "";
      terms2 := [];
      terms3 := [];
      RunEffects(sel1 != was1, sel2 != was2);
    }

    /** The level-2 change handler, then the effects of the render it causes. */
    method SelectLevel2(newTermId: string)
      modifies this
      ensures State() == AfterLevel2(old(State()), newTermId)
    {
      var was1, was2 := sel1, sel2;
      sel2 := newTermId;
      sel3 := "";
      terms3 := [];
      RunEffects(sel1 != was1, sel2 != was2);
    }

    /** The level-3 change handler; no effect depends on level 3. */
    method SelectLevel3(newTermId: string)
      modifies this
      ensures State() == AfterLevel3(old(State()), newTermId)
    {
      var was1, was2 := sel1, sel2;
      sel3 := newTermId;
      RunEffects(sel1 != was1, sel2 != was2);
    }

    /** The fetch at `index` finishes; an answer is stored through the setter it was issued with. */
    method CompleteFetch(index: nat, result: Option<seq<Term>>)
      requires index < |pending|
      modifies this
      ensures State() == Complete(old(State()), index, result)
    {
      var q := pending[index];
      pending := pending[..index] + pending[index + 1..];
      if result.Some? {
        match q.target
        case Level1 => terms1 := result.value;
        case Level2 => terms2 := result.value;
        case Level3 => terms3 := result.value;
      }
    }
  }
}
