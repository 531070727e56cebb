/** Reachable states where a delete lost work that had been pushed, one for each way a scan for work can miss it. */
module Losses {
  import opened Wrappers
  import opened Commits
  import opened Machine
  import opened Preservation
  import opened Strays

  /** A claim, and a work commit its lane pushed on it. */
  lemma WorkPushed(merge: (Id, Id, Id) -> bool, counted: bool) returns (s: State)
    ensures Reach({}, Start(merge), s)
    ensures s == Start(merge).(log := PushedLog(counted), expects := map[1 := None],
      history := [None, Some(1), Some(2)], landed := map[1 := 1])
  {
    var s1 := Claimed(merge);
    var s2 := Then(Start(merge), s1, AddWork({1}, counted));
    ChainOfThree(s2.log);
    hide Anc;
    s := Then(Start(merge), s2, PushWork(2));
  }

  ghost function PushedLog(counted: bool): Log {
    [Commit({}, Body.Work(true)), Commit({0}, Marker(Claim, 1, "a", "/a")), Commit({1}, Body.Work(counted))]
  }

  /** The clone's FETCH_HEAD is base, and then the plan's own branch. */
  lemma FetchedOver(merge: (Id, Id, Id) -> bool, s0: State) returns (s: State)
    requires Reach({}, Start(merge), s0) && s0.Fetchable(0) && s0.Fetchable(2) && s0.heads == map[]
    ensures Reach({}, Start(merge), s) && s == s0.(heads := map[0 := [0, 2]])
  {
    hide Reach;
    var s1 := ThenFetched(merge, s0, 0);
    s := ThenFetched(merge, s1, 2);
    assert s.heads[0] == [0, 2];
  }

  lemma ThenFetched(merge: (Id, Id, Id) -> bool, s0: State, tip: Id) returns (s: State)
    requires Reach({}, Start(merge), s0) && s0.Fetchable(tip)
    ensures Reach({}, Start(merge), s)
    ensures s == s0.(heads := s0.heads[0 := (if 0 in s0.heads then s0.heads[0] else []) + [tip]])
  {
    hide Start;
    hide Anc;
    s := Then(Start(merge), s0, Fetch(0, tip));
  }

  /** A scavenge brought base into FETCH_HEAD. Before it read the chain above FETCH_HEAD, another call in the
    same clone fetched the plan's own branch. The chain is then empty, nothing is parked, and the delete, over
    exactly the tip observed, takes the only copy of the work with it. */
  lemma OverwrittenViewLosesWork(merge: (Id, Id, Id) -> bool) returns (s: State)
    ensures Init(Start(merge)) && Reach({}, Start(merge), s)
    ensures s.history == [None, Some(1), Some(2), None] && s.heads == map[0 := [0, 2]] && s.bases == [0]
    ensures Anc(s.log, 2, 2) && s.Counts(2) && !Kept(s, 2) && LetGo(s, 2)
  {
    hide Reach;
    hide MintFits;
    var s2 := WorkPushed(merge, true);
    ChainOfThree(s2.log);
    hide Anc;
    var s4 := FetchedOver(merge, s2);
    assert !s4.HasWork(2, 2);
    assert 2 in s4.heads[0];
    s := Then(Start(merge), s4, Delete(2, NoWork(2)));
    NotOnBase(s, 2);
    assert Deletion(WORK, 2, NoWork(2)) in s.deleted;
  }

  /** The scan drops an empty subject, and one word for word a marker's, before it asks whether the commit is a
    marker: work pushed under such a subject is deleted unparked, on base as it stands. */
  lemma UncountedWorkIsLost(merge: (Id, Id, Id) -> bool) returns (s: State)
    ensures Init(Start(merge)) && Reach({}, Start(merge), s)
    ensures s.history == [None, Some(1), Some(2), None] && s.bases == [0]
    ensures Anc(s.log, 2, 2) && IsWork(s.log, 2) && !s.Counts(2) && !Kept(s, 2) && LetGo(s, 2)
  {
    s := WorkPushed(merge, false);
    ChainOfThree(s.log);
    assert !s.HasWork(0, 2);
    hide Anc;
    s := Then(Start(merge), s, Delete(2, NoWork(0)));
    NotOnBase(s, 2);
    assert Deletion(WORK, 2, NoWork(0)) in s.deleted;
  }

  lemma NotOnBase(s: State, w: Id)
    requires s.bases == [0] && w != 0
    ensures !OnBase(s, w)
  {
  }
}
