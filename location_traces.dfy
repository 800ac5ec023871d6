/**
  Runs of the Locations component: user choices in the selectors that are on
  screen, interleaved in any order with fetches finishing in any order. The
  lemmas say what such runs keep and what they can lead to.
*/
module LocationTraces {
  import opened Wrappers
  import opened LocationTerms
  import opened Locations

  /** A user choice in a selector, or the fetch at `index` finishing with `result`. */
  datatype Event = Pick(level: Level, id: string) | Arrive(index: nat, result: Option<seq<Term>>)

  /** An event can happen: a choice needs its selector on screen, an arrival a fetch in flight. */
  predicate Enabled(s: ViewState, e: Event)
  {
    match e
    case Pick(level, _) => Shown(s, level)
    case Arrive(index, _) => index < |s.pending|
  }

  /** The state after one event. */
  function Step(s: ViewState, e: Event): ViewState
    requires Enabled(s, e)
  {
    match e
    case Pick(Level1, id) => AfterLevel1(s, id)
    case Pick(Level2, id) => AfterLevel2(s, id)
    case Pick(Level3, id) => AfterLevel3(s, id)
    case Arrive(index, result) => Complete(s, index, result)
  }

  /** The state after a run of events, `None` if some event of it cannot happen. */
  function Run(s: ViewState, events: seq<Event>): Option<ViewState>
    decreases |events|
  {
    if events == [] then Some(s)
    else if Enabled(s, events[0]) then Run(Step(s, events[0]), events[1..])
    else None
  }

  /** A run of two events that can happen one after the other. */
  lemma RunTwo(s: ViewState, e1: Event, e2: Event)
    requires Enabled(s, e1) && Enabled(Step(s, e1), e2)
    ensures Run(s, [e1, e2]) == Some(Step(Step(s, e1), e2))
  {
    var t1 := Step(s, e1);
    var t2 := Step(t1, e2);
    assert [e2][1..] == [];
    assert Run(t2, []) == Some(t2);
    assert Run(t1, [e2]) == Run(t2, []);
    assert [e1, e2][1..] == [e2];
    assert Run(s, [e1, e2]) == Run(t1, [e2]);
  }

  /** A run of three events that can happen one after the other. */
  lemma RunThree(s: ViewState, e1: Event, e2: Event, e3: Event)
    requires Enabled(s, e1) && Enabled(Step(s, e1), e2) && Enabled(Step(Step(s, e1), e2), e3)
    ensures Run(s, [e1, e2, e3]) == Some(Step(Step(Step(s, e1), e2), e3))
  {
    assert [e1, e2, e3][1..] == [e2, e3];
    RunTwo(Step(s, e1), e2, e3);
  }

  /** A run of four events that can happen one after the other. */
  lemma RunFour(s: ViewState, e1: Event, e2: Event, e3: Event, e4: Event)
    requires Enabled(s, e1) && Enabled(Step(s, e1), e2) && Enabled(Step(Step(s, e1), e2), e3)
    requires Enabled(Step(Step(Step(s, e1), e2), e3), e4)
    ensures Run(s, [e1, e2, e3, e4]) == Some(Step(Step(Step(Step(s, e1), e2), e3), e4))
  {
    assert [e1, e2, e3, e4][1..] == [e2, e3, e4];
    RunThree(Step(s, e1), e2, e3, e4);
  }

  /** A level has a selection only when every outer level has one. */
  ghost predicate CascadeHolds(s: ViewState)
  {
    (s.sel3 != "" ==> s.sel2 != "") && (s.sel2 != "" ==> s.sel1 != "")
  }

  /** Every fetch in flight for level 2 or 3 names a real parent (the level-1 refetch need not). */
  ghost predicate FetchesGuarded(s: ViewState)
  {
    forall q :: q in s.pending && q.target != Level1 ==> q.parent != ""
  }

  /** One event keeps both properties. */
  lemma StepKeepsInvariants(s: ViewState, e: Event)
    requires Enabled(s, e) && CascadeHolds(s) && FetchesGuarded(s)
    ensures CascadeHolds(Step(s, e)) && FetchesGuarded(Step(s, e))
  {
  }

  /** Any run of events keeps both properties. */
  lemma {:induction false} RunKeepsInvariants(s: ViewState, events: seq<Event>)
    requires CascadeHolds(s) && FetchesGuarded(s)
    requires Run(s, events).Some?
    ensures CascadeHolds(Run(s, events).value) && FetchesGuarded(Run(s, events).value)
    decreases |events|
  {
    if events != [] {
      StepKeepsInvariants(s, events[0]);
      RunKeepsInvariants(Step(s, events[0]), events[1..]);
    }
  }

  /**
    Cascade invariant: in every state reachable from the first render, level
    3 has a selection only if level 2 has one, and level 2 only if level 1
    has one; and no fetch for level 2 or 3 is ever issued under the
    placeholder.
  */
  lemma CascadeInvariant(events: seq<Event>)
    requires Run(Mounted(), events).Some?
    ensures CascadeHolds(Run(Mounted(), events).value)
    ensures FetchesGuarded(Run(Mounted(), events).value)
  {
    RunKeepsInvariants(Mounted(), events);
  }

  /** It is the selectors' visibility that keeps the cascade: a level-3 choice made while level 2 is empty breaks it. */
  lemma HiddenChoiceBreaksCascade()
    ensures !Shown(Mounted(), Level3)
    ensures !CascadeHolds(AfterLevel3(Mounted(), "x"))
  {
  }

  /** The placeholder at level 1 still refetches level 1's list, under the empty id. */
  lemma PlaceholderRefetchesLevel1()
    ensures Request("", Level1) in AfterLevel1(Mounted(), "").pending
  {
  }

  /** The ids a selector hands over are not checked against its list: any id becomes the selection. */
  lemma UncheckedId(s: ViewState, id: string)
    requires forall i :: 0 <= i < |s.terms1| ==> s.terms1[i].id != id
    requires id != s.sel1
    ensures AfterLevel1(s, id).sel1 == id
    ensures AfterLevel1(s, id) != s
  {
  }

  /** No fetch in flight will fill level 2's list. */
  ghost predicate NoLevel2Fetch(s: ViewState)
  {
    forall q :: q in s.pending ==> q.target != Level2
  }

  /** Every level-1 choice of the run picks `id`. */
  ghost predicate KeepsLevel1(events: seq<Event>, id: string)
  {
    forall e :: e in events && e.Pick? && e.level == Level1 ==> e.id == id
  }

  /** One event that does not move level 1 keeps level 2 empty and unfetched. */
  lemma StepKeepsLevel2Empty(s: ViewState, e: Event)
    requires s.terms2 == [] && NoLevel2Fetch(s)
    requires Enabled(s, e)
    requires e.Pick? && e.level == Level1 ==> e.id == s.sel1
    ensures Step(s, e).terms2 == [] && NoLevel2Fetch(Step(s, e))
    ensures Step(s, e).sel1 == s.sel1
  {
  }

  /**
    Once level 2's list is empty and no fetch for it is in flight, it stays
    empty for as long as level 1 is only ever re-chosen at its current value.
  */
  lemma {:induction false} Level2StaysEmpty(s: ViewState, events: seq<Event>)
    requires s.terms2 == [] && NoLevel2Fetch(s)
    requires KeepsLevel1(events, s.sel1)
    requires Run(s, events).Some?
    ensures Run(s, events).value.terms2 == []
    ensures Run(s, events).value.sel1 == s.sel1
    decreases |events|
  {
    if events != [] {
      var e := events[0];
      assert e in events;
      StepKeepsLevel2Empty(s, e);
      var t := Step(s, e);
      assert KeepsLevel1(events[1..], t.sel1) by {
        forall e' | e' in events[1..] ensures e' in events { }
      }
      Level2StaysEmpty(t, events[1..]);
    }
  }

  /**
    Re-choosing the current level-1 term clears level 2 without refetching
    it: when no level-2 fetch was in flight, level 2 then offers nothing
    until a different level-1 term is chosen.
  */
  lemma ReselectStarvesLevel2(s: ViewState, events: seq<Event>)
    requires NoLevel2Fetch(s)
    requires KeepsLevel1(events, s.sel1)
    requires Run(AfterLevel1(s, s.sel1), events).Some?
    ensures Run(AfterLevel1(s, s.sel1), events).value.terms2 == []
  {
    Level2StaysEmpty(AfterLevel1(s, s.sel1), events);
  }

  /**
    No stale-result check: a level-2 answer for a parent that is no longer
    selected at level 1 still replaces level 2's list.
  */
  lemma StaleLevel2AnswerApplied(s: ViewState, index: nat, terms: seq<Term>)
    requires index < |s.pending| && s.pending[index].target == Level2
    requires s.pending[index].parent != s.sel1
    ensures Complete(s, index, Some(terms)).terms2 == terms
    ensures Complete(s, index, Some(terms)).sel1 == s.sel1
  {
  }

  /**
    No stale-result check at level 3 either, and here it shows on screen: a
    level-2 term is chosen and then put back to the placeholder; the late answer for the abandoned term
    still fills level 3's list, which the list under the selectors shows
    while level 3's selector is hidden.
  */
  lemma {:induction false} StaleLevel3AnswerShown(s: ViewState, a: string, c: seq<Term>)
    requires s.sel1 != "" && s.sel2 == "" && s.sel3 == "" && a != ""
    ensures Run(s, [Pick(Level2, a), Pick(Level2, ""), Arrive(|s.pending|, Some(c))]) == Some(s.(terms3 := c))
    ensures !Shown(s.(terms3 := c), Level3)
  {
    var n := |s.pending|;
    var s1 := AfterLevel2(s, a);
    var s2 := AfterLevel2(s1, "");
    assert s2.pending == s.pending + [Request(a, Level3)];
    assert s2.pending[..n] == s.pending;
    var s3 := Complete(s2, n, Some(c));
    assert s3 == s.(terms3 := c) by {
      assert TermsAt(s3, Level3) == c;
      assert TermsAt(s3, Level1) == s.terms1;
      assert TermsAt(s3, Level2) == s.terms2;
    }
    RunThree(s, Pick(Level2, a), Pick(Level2, ""), Arrive(n, Some(c)));
  }

  /**
    Later choices do not win: level 1 moves to `a` and then to `b`; the
    level-2 answer for `b` arrives first, the one for `a` last, and level 2
    ends up offering the children of `a` while `b` is selected.
  */
  lemma {:induction false} LastAnswerWins(s: ViewState, a: string, b: string, c: seq<Term>, d: seq<Term>)
    requires a != s.sel1 && a != "" && b != a && b != ""
    ensures var n := |s.pending|;
            Run(s, [Pick(Level1, a), Pick(Level1, b), Arrive(n + 3, Some(d)), Arrive(n + 1, Some(c))]) == Some(
              ViewState(b, "", "", s.terms1, c, [], s.pending + [Request(a, Level1), Request(b, Level1)]))
  {
    var n := |s.pending|;
    var e1, e2, e3, e4 := Pick(Level1, a), Pick(Level1, b), Arrive(n + 3, Some(d)), Arrive(n + 1, Some(c));
    var fired := [Request(a, Level1), Request(a, Level2), Request(b, Level1), Request(b, Level2)];
    var s1 := Step(s, e1);
    var s2 := Step(s1, e2);
    SwitchLevel1Twice(s, a, b);
    assert s2 == ViewState(b, "", "", s.terms1, [], [], s.pending + fired);
    var s3 := Step(s2, e3);
    AnswersOutOfOrder(s2, n, c, d);
    assert s3 == Complete(s2, n + 3, Some(d));
    var s4 := Step(s3, e4);
    assert s4 == s2.(terms2 := c, pending := s2.pending[..n + 1] + [s2.pending[n + 2]]);
    assert s2.pending[..n + 1] + [s2.pending[n + 2]] == s.pending + [Request(a, Level1), Request(b, Level1)] by {
      assert s2.pending[..n] == s.pending;
    }
    RunFour(s, e1, e2, e3, e4);
  }

  /** The two level-1 choices of `LastAnswerWins`. */
  lemma SwitchLevel1Twice(s: ViewState, a: string, b: string)
    requires a != s.sel1 && a != "" && b != a && b != ""
    ensures AfterLevel1(AfterLevel1(s, a), b) == ViewState(b, "", "", s.terms1, [], [],
              s.pending + [Request(a, Level1), Request(a, Level2), Request(b, Level1), Request(b, Level2)])
  {
  }

  /** The two level-2 answers of `LastAnswerWins`, the newer one first. */
  lemma AnswersOutOfOrder(s: ViewState, n: nat, c: seq<Term>, d: seq<Term>)
    requires |s.pending| == n + 4
    requires s.pending[n + 1].target == Level2 && s.pending[n + 3].target == Level2
    ensures Complete(s, n + 3, Some(d)).pending[n + 1] == s.pending[n + 1]
    ensures Complete(Complete(s, n + 3, Some(d)), n + 1, Some(c)) ==
            s.(terms2 := c, pending := s.pending[..n + 1] + [s.pending[n + 2]])
  {
  }

  /**
    Levels 1 and 2 are fetched under the same parent: once both first fetches
    are answered with the anchor's children, level 2 offers the same list as
    level 1 from the start.
  */
  lemma MountFillsBothLists(children: seq<Term>)
    ensures Run(Mounted(), [Arrive(0, Some(children)), Arrive(0, Some(children))]) ==
            Some(ViewState(AnchorId, "", "", children, children, [], []))
  {
    var s0 := Mounted();
    var s1 := Complete(s0, 0, Some(children));
    assert s1 == s0.(terms1 := children, pending := [Request(AnchorId, Level2)]) by {
      assert TermsAt(s1, Level1) == children;
    }
    var s2 := Complete(s1, 0, Some(children));
    assert s2 == s1.(terms2 := children, pending := []) by {
      assert TermsAt(s2, Level2) == children;
    }
    RunTwo(s0, Arrive(0, Some(children)), Arrive(0, Some(children)));
  }

  /**
    The same after a new level-1 choice: its two fetches share the parent and
    so the URL, and answered alike they make level 1 offer the children of
    its own selection, the very list level 2 offers.
  */
  lemma NewLevel1FillsBothLists(s: ViewState, webUrl: string, id: string, children: seq<Term>)
    requires id != s.sel1 && id != ""
    ensures var n := |s.pending|;
            AfterLevel1(s, id).pending[n..] == [Request(id, Level1), Request(id, Level2)] &&
            RequestUrl(webUrl, Request(id, Level1)) == RequestUrl(webUrl, Request(id, Level2))
    ensures var n := |s.pending|;
            Run(s, [Pick(Level1, id), Arrive(n, Some(children)), Arrive(n, Some(children))]) ==
            Some(ViewState(id, "", "", children, children, [], s.pending))
  {
    var n := |s.pending|;
    var s1 := AfterLevel1(s, id);
    assert s1.pending[n..] == [Request(id, Level1), Request(id, Level2)];
    var s2 := Complete(s1, n, Some(children));
    assert s2.pending == s.pending + [Request(id, Level2)] by {
      assert s1.pending[..n] == s.pending;
    }
    assert TermsAt(s2, Level1) == children;
    var s3 := Complete(s2, n, Some(children));
    assert s3.pending == s.pending by {
      assert s2.pending[..n] == s.pending;
    }
    assert TermsAt(s3, Level2) == children;
    assert TermsAt(s3, Level3) == [];
    RunThree(s, Pick(Level1, id), Arrive(n, Some(children)), Arrive(n, Some(children)));
    SameParentSameUrl(webUrl, Request(id, Level1), Request(id, Level2));
  }

  /** Two requests under one parent are sent to one URL. */
  lemma SameParentSameUrl(webUrl: string, q: Request, r: Request)
    requires q.parent == r.parent
    ensures RequestUrl(webUrl, q) == RequestUrl(webUrl, r)
  {
  }

  /**
    Re-choosing the current level-2 term is not a no-op: it fetches nothing
    but drops the level-3 selection and list.
  */
  lemma ReselectLevel2ClearsLevel3(s: ViewState)
    requires s.sel3 != ""
    ensures AfterLevel2(s, s.sel2).pending == s.pending
    ensures AfterLevel2(s, s.sel2).sel3 == "" && AfterLevel2(s, s.sel2).terms3 == []
  {
  }
}
