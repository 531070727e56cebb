/** Reachable states where a read or an answer is not what it seems. */
module Strays {
  import opened Wrappers
  import opened Commits
  import opened Machine
  import opened Invariants
  import opened History
  import opened Lock
  import opened Epochs
  import opened Tokens
  import Pushes
  import Leases
  import Fencing

  // ---- concrete runs ----

  /** Ancestry of a commit, one generation at a time. */
  lemma AncUnfold(log: Log, c: Id)
    requires c < |log| && forall p | p in log[c].parents :: p < c
    ensures forall a: Id :: Anc(log, a, c) <==> a == c || exists p :: p in log[c].parents && Anc(log, a, p)
  {
  }

  ghost function Start(merge: (Id, Id, Id) -> bool): State {
    State([Commit({}, Body.Work(true))], [0], [None], map[], map[], map[], map[], map[], [], map[], map[], {}, merge)
  }

  lemma Then(s0: State, s: State, l: Label) returns (s': State)
    requires Reach({}, s0, s) && Enabled(s, l)
    ensures s' == Next(s, l) && Reach({}, s0, s')
  {
    s' := Next(s, l);
    ReachStep({}, s, l);
    ReachTrans({}, s0, s, s');
  }

  /** One claim, landed: the start of both examples. */
  lemma Claimed(merge: (Id, Id, Id) -> bool) returns (s: State)
    ensures Reach({}, Start(merge), s)
    ensures s == Start(merge).(
      log := [Commit({}, Body.Work(true)), Commit({0}, Marker(Claim, 1, "a", "/a"))],
      expects := map[1 := None], history := [None, Some(1)], landed := map[1 := 1])
  {
    var s0 := Start(merge);
    ReachSelf({}, s0);
    var s1 := Then(s0, s0, Mint(0, Marker(Claim, 1, "a", "/a"), None, 0));
    s := Then(s0, s1, Land(1));
  }

  /** A push read as lost need not have failed: the claim landed and was built on before the ref was read
    again, */
  lemma LostYetLanded(merge: (Id, Id, Id) -> bool) returns (before: State, s: State)
    ensures Init(Start(merge)) && Reach({}, Start(merge), before) && Reach({}, before, s)
    ensures 1 in before.expects && 1 !in before.landed && 1 in s.landed && s.Work() == Some(2)
  {
    var s0 := Start(merge);
    ReachSelf({}, s0);
    before := Then(s0, s0, Mint(0, Marker(Claim, 1, "a", "/a"), None, 0));
    ReachSelf({}, before);
    var s1 := Then(before, before, Land(1));
    var s2 := Then(before, s1, AddWork({1}, true));
    AncUnfold(s2.log, 2);
    AncUnfold(s2.log, 1);
    s := Then(before, s2, PushWork(2));
  }

  /** nor need the ref have moved: a renewal's push never arrived, and the ref stands where it expected. */
  lemma LostYetUnmoved(merge: (Id, Id, Id) -> bool) returns (s: State)
    ensures Init(Start(merge)) && Reach({}, Start(merge), s)
    ensures 2 in s.expects && 2 !in s.landed && s.expects[2] == s.Work() == Some(1)
  {
    var s1 := Claimed(merge);
    AncUnfold(s1.log, 0);
    AncUnfold(s1.log, 1);
    assert Nearest(s1.log, 1, 1);
    s := Then(Start(merge), s1, Mint(1, Marker(Beat, 1, "a", "/a"), Some(1), 1));
  }

  lemma ChainOfThree(log: Log)
    requires |log| == 3 && log[0].parents == {} && log[1].parents == {0} && log[2].parents == {1}
    ensures Anc(log, 0, 2) && Anc(log, 1, 2) && Anc(log, 2, 2)
  {
    AncUnfold(log, 0);
    AncUnfold(log, 1);
    AncUnfold(log, 2);
  }

  // ---- a renewal over the lane's own release ----

  /** A bind minted its first beat over the claim, */
  lemma BeatMinted(merge: (Id, Id, Id) -> bool) returns (s: State)
    ensures Reach({}, Start(merge), s) && Nearest(s.log, 1, 1)
    ensures s == Start(merge).(
      log := [Commit({}, Body.Work(true)), Commit({0}, Marker(Claim, 1, "a", "/a")),
              Commit({1}, Marker(Beat, 1, "a", "/a"))],
      expects := map[1 := None, 2 := Some(1)], history := [None, Some(1)], landed := map[1 := 1])
  {
    var s1 := Claimed(merge);
    AncUnfold(s1.log, 0);
    AncUnfold(s1.log, 1);
    assert Nearest(s1.log, 1, 1);
    hide Nearest;
    hide Anc;
    s := Then(Start(merge), s1, Mint(1, Marker(Beat, 1, "a", "/a"), Some(1), 1));
    NearestBelowMore(s1.log, s.log, 1, 1);
  }

  /** and the lane's own release landed before it. */
  lemma BeatRacesRelease(merge: (Id, Id, Id) -> bool) returns (s: State)
    ensures Reach({}, Start(merge), s)
    ensures s == Start(merge).(
      log := [Commit({}, Body.Work(true)), Commit({0}, Marker(Claim, 1, "a", "/a")),
              Commit({1}, Marker(Beat, 1, "a", "/a")), Commit({1}, Marker(Release, 1, "a", "/a"))],
      expects := map[1 := None, 2 := Some(1), 3 := Some(1)], history := [None, Some(1), Some(3)],
      landed := map[1 := 1, 3 := 2])
  {
    hide Nearest;
    hide Anc;
    var s2 := BeatMinted(merge);
    AncSelf(s2.log, 1);
    var s3 := Then(Start(merge), s2, Mint(1, Marker(Release, 1, "a", "/a"), Some(1), 1));
    s := Then(Start(merge), s3, Land(3));
  }

  lemma AncSelf(log: Log, x: Id)
    requires x < |log|
    ensures Anc(log, x, x)
  {
  }

  lemma NearestBelowMore(log: Log, more: Log, tip: Id, x: Id)
    requires Nearest(log, tip, x) && log <= more && tip < |log|
    ensures Nearest(more, tip, x)
  {
    NearestStable(log, more, tip, x);
  }

  /** RenewToBind trusts holder and lane and never looks at the marker's kind. Its first beat, over the claim,
    is fenced by this lane's own release; it then renews the release, and that beat lands. The lock stays
    free, yet Acquire, which wants a release marker at the tip, refuses it; and OwnAdvance still lets the
    token of the released lease prove ownership. */
  lemma RenewalOverOwnRelease(merge: (Id, Id, Id) -> bool) returns (s: State)
    ensures Init(Start(merge)) && Reach({}, Start(merge), s)
    ensures s.history == [None, Some(1), Some(3), Some(4)]
    ensures IsMarker(s.log, 2) && 2 in s.expects && s.expects[2] == Some(1) && 2 !in s.landed
    ensures 4 in s.expects && s.expects[4] == Some(3) && IsRelease(s.log, 3)
    ensures Fold(s.log, s.history, 3) == Free(1) && !IsRelease(s.log, 4)
    ensures OwnAdvance(s.log, 1, 4) && TerminalBetween(s, 1, 3)
  {
    s := ReleaseRenewed(merge);
    hide Anc;
    hide Nearest;
    RenewedReleaseFacts(s);
  }

  lemma ReleaseRenewed(merge: (Id, Id, Id) -> bool) returns (s: State)
    ensures Reach({}, Start(merge), s)
    ensures s == Start(merge).(
      log := [Commit({}, Body.Work(true)), Commit({0}, Marker(Claim, 1, "a", "/a")),
              Commit({1}, Marker(Beat, 1, "a", "/a")), Commit({1}, Marker(Release, 1, "a", "/a")),
              Commit({3}, Marker(Beat, 1, "a", "/a"))],
      expects := map[1 := None, 2 := Some(1), 3 := Some(1), 4 := Some(3)], history := [None, Some(1), Some(3), Some(4)],
      landed := map[1 := 1, 3 := 2, 4 := 3])
  {
    var s3 := BeatRacesRelease(merge);
    AncUnfold(s3.log, 0);
    AncUnfold(s3.log, 1);
    AncUnfold(s3.log, 3);
    assert Nearest(s3.log, 3, 3);
    hide Nearest;
    hide Anc;
    var s4 := Then(Start(merge), s3, Mint(3, Marker(Beat, 1, "a", "/a"), Some(3), 3));
    s := Then(Start(merge), s4, Land(4));
  }

  lemma RenewedReleaseFacts(s: State)
    requires s.log == [Commit({}, Body.Work(true)), Commit({0}, Marker(Claim, 1, "a", "/a")),
      Commit({1}, Marker(Beat, 1, "a", "/a")), Commit({1}, Marker(Release, 1, "a", "/a")),
      Commit({3}, Marker(Beat, 1, "a", "/a"))]
    requires s.history == [None, Some(1), Some(3), Some(4)]
    ensures Fold(s.log, s.history, 3) == Free(1) && OwnAdvance(s.log, 1, 4) && TerminalBetween(s, 1, 3)
  {
    AncUnfold(s.log, 0);
    AncUnfold(s.log, 1);
    AncUnfold(s.log, 3);
    AncUnfold(s.log, 4);
    assert Nearest(s.log, 4, 4);
    assert IsTerminal(s.log, s.history[2].value);
    hide Anc;
    hide Nearest;
    assert Fold(s.log, s.history, 2) == Free(1);
  }

  // ---- markers of an earlier life, merged in ----

  /** How the first life of the examples ends. */
  predicate Ending(end: Body) {
    end == Marker(Takeover, 2, "b", "/b") || end == Marker(Release, 1, "a", "/a")
  }

  lemma ThenEnded(merge: (Id, Id, Id) -> bool, end: Body) returns (s: State)
    requires Ending(end)
    ensures Reach({}, Start(merge), s)
    ensures s == Start(merge).(
      log := [Commit({}, Body.Work(true)), Commit({0}, Marker(Claim, 1, "a", "/a")), Commit({1}, end)],
      expects := map[1 := None, 2 := Some(1)], history := [None, Some(1), Some(2)], landed := map[1 := 1, 2 := 2])
  {
    var s1 := Claimed(merge);
    AncUnfold(s1.log, 0);
    AncUnfold(s1.log, 1);
    assert Nearest(s1.log, 1, 1);
    hide Nearest;
    hide Anc;
    var s2 := Then(Start(merge), s1, Mint(1, end, Some(1), 1));
    s := Then(Start(merge), s2, Land(2));
  }

  /** A first life of the ref, ended and landed with all its markers. */
  lemma FirstLifeLanded(merge: (Id, Id, Id) -> bool, end: Body) returns (s: State)
    requires Ending(end)
    ensures Reach({}, Start(merge), s)
    ensures s == Start(merge).(
      log := [Commit({}, Body.Work(true)), Commit({0}, Marker(Claim, 1, "a", "/a")), Commit({1}, end)],
      bases := [0, 2], expects := map[1 := None, 2 := Some(1)],
      history := [None, Some(1), Some(2), None], landed := map[1 := 1, 2 := 2],
      deleted := {Deletion(WORK, 2, NoWork(2))})
  {
    var s3 := ThenEnded(merge, end);
    ChainOfThree(s3.log);
    hide Anc;
    var s4 := Then(Start(merge), s3, GrowBase(2));
    assert !s4.HasWork(2, 2);
    s := Then(Start(merge), s4, Delete(2, NoWork(2)));
  }

  /** A second life, claimed on the older view of base, and a merge of the newer one pushed by its lane. */
  lemma SecondLifeMerged(merge: (Id, Id, Id) -> bool, end: Body) returns (s: State)
    requires Ending(end)
    ensures Reach({}, Start(merge), s)
    ensures s == Start(merge).(
      log := StrayLog(end), bases := [0, 2], expects := map[1 := None, 2 := Some(1), 3 := None],
      history := [None, Some(1), Some(2), None, Some(3), Some(4)], landed := map[1 := 1, 2 := 2, 3 := 4],
      deleted := {Deletion(WORK, 2, NoWork(2))})
  {
    var s4 := FirstLifeLanded(merge, end);
    hide Nearest;
    hide Anc;
    var s5 := Then(Start(merge), s4, Mint(0, Marker(Claim, 1, "c", "/c"), None, 0));
    var s6 := Then(Start(merge), s5, Land(3));
    s := MergeAndPush(merge, s6, end);
  }

  lemma MergeAndPush(merge: (Id, Id, Id) -> bool, s6: State, end: Body) returns (s: State)
    requires Ending(end) && Reach({}, Start(merge), s6)
    requires s6 == Start(merge).(
      log := [Commit({}, Body.Work(true)), Commit({0}, Marker(Claim, 1, "a", "/a")), Commit({1}, end),
              Commit({0}, Marker(Claim, 1, "c", "/c"))],
      bases := [0, 2], expects := map[1 := None, 2 := Some(1), 3 := None],
      history := [None, Some(1), Some(2), None, Some(3)], landed := map[1 := 1, 2 := 2, 3 := 4],
      deleted := {Deletion(WORK, 2, NoWork(2))})
    ensures Reach({}, Start(merge), s)
    ensures s == s6.(log := StrayLog(end), history := s6.history + [Some(4)])
  {
    StrayAbove(StrayLog(end), end);
    hide Nearest;
    hide Anc;
    var s7 := Then(Start(merge), s6, AddWork({2, 3}, true));
    s := Then(Start(merge), s7, PushWork(4));
  }

  ghost function StrayLog(end: Body): Log {
    [Commit({}, Body.Work(true)), Commit({0}, Marker(Claim, 1, "a", "/a")), Commit({1}, end),
     Commit({0}, Marker(Claim, 1, "c", "/c")), Commit({2, 3}, Body.Work(true))]
  }

  lemma StrayAbove(log: Log, end: Body)
    requires Ending(end) && log == StrayLog(end)
    ensures Anc(log, 3, 4) && Anc(log, 2, 4) && !Anc(log, 2, 3) && !Anc(log, 3, 2) && Anc(log, 4, 4)
    ensures Nearest(log, 4, 2) && Nearest(log, 4, 3) && NearestTerminal(log, 4, 2) && NearestTerminal(log, 4, 3)
  {
    AncUnfold(log, 0);
    AncUnfold(log, 1);
    AncUnfold(log, 2);
    AncUnfold(log, 3);
    AncUnfold(log, 4);
  }

  lemma StrayFacts(s: State, end: Body)
    requires Ending(end) && s.log == StrayLog(end)
    requires s.history == [None, Some(1), Some(2), None, Some(3), Some(4)]
    ensures GovAt(s.log, s.history, 5) == Some(3) && TermAt(s.log, s.history, 5) == Some(3)
    ensures Acquisitions(s.log, s.history, 5) == 1 && Fold(s.log, s.history, 5) == Held(1, "c", "/c")
  {
    assert Acquisitions(s.log, s.history, 3) == 0;
    assert Acquisitions(s.log, s.history, 4) == 1;
    assert GovAt(s.log, s.history, 4) == Some(3) && TermAt(s.log, s.history, 4) == Some(3);
    assert Fold(s.log, s.history, 4) == Held(1, "c", "/c");
  }

  /** A lane that claimed on a stale base and then merges the newer one, where an earlier life of the ref
    landed with its markers, gives git two nearest markers to choose from: the read is not determined, and
    the epoch read may be the dead line's. */
  lemma MergedStrayMisleads(merge: (Id, Id, Id) -> bool) returns (s: State)
    ensures Init(Start(merge)) && Reach({}, Start(merge), s) && s.Work() == Some(4) && |s.history| == 6
    ensures s.log == StrayLog(Marker(Takeover, 2, "b", "/b"))
    ensures Nearest(s.log, 4, 2) && IsMarker(s.log, 2) && s.log[2].body.epoch == 2
    ensures Nearest(s.log, 4, 3) && GovAt(s.log, s.history, 5) == Some(3)
    ensures !Determined(s, 5) && !EpochRead(s, 5) && EpochRight(s, 5)
  {
    var end := Marker(Takeover, 2, "b", "/b");
    s := SecondLifeMerged(merge, end);
    StrayAbove(s.log, end);
    StrayFacts(s, end);
    hide Nearest;
    hide Anc;
  }

  /** And the next takeover can then carry an epoch that counts nothing: the third of a life that saw two
    acquisitions. */
  lemma MisreadEpochIsWrong(merge: (Id, Id, Id) -> bool) returns (s: State)
    ensures Init(Start(merge)) && Reach({}, Start(merge), s) && s.Work() == Some(5) && |s.history| == 7
    ensures GovAt(s.log, s.history, 6) == Some(5) && IsMarker(s.log, 5) && s.log[5].body.epoch == 3
    ensures Acquisitions(s.log, s.history, 6) == 2 && !EpochRight(s, 6)
  {
    var s1 := MergedStrayMisleads(merge);
    s := TakenOver(merge, s1);
  }

  lemma TakenOver(merge: (Id, Id, Id) -> bool, s1: State) returns (s: State)
    requires Reach({}, Start(merge), s1) && s1.Work() == Some(4) && |s1.history| == 6
    requires s1.log == StrayLog(Marker(Takeover, 2, "b", "/b")) && Nearest(s1.log, 4, 2)
    requires EpochRight(s1, 5) && GovAt(s1.log, s1.history, 5) == Some(3)
    ensures Reach({}, Start(merge), s) && s.Work() == Some(5) && |s.history| == 7
    ensures GovAt(s.log, s.history, 6) == Some(5) && IsMarker(s.log, 5) && s.log[5].body.epoch == 3
    ensures Acquisitions(s.log, s.history, 6) == 2
  {
    hide Inv;
    hide Nearest;
    hide Anc;
    hide GovAt;
    hide Acquisitions;
    hide Grows;
    Initial(merge);
    ReachInv({}, Start(merge), s1);
    ValuesInLog(s1);
    MintedInLog(s1);
    WorkFetchable(s1);
    BornAbsent(s1);
    var body := Marker(Takeover, 3, "d", "/d");
    MintedThenLanded(s1, 4, body, 2);
    hide Start;
    var s2 := Then(Start(merge), s1, Mint(4, body, Some(4), 2));
    s := Then(Start(merge), s2, Land(5));
  }

  lemma Initial(merge: (Id, Id, Id) -> bool)
    ensures Init(Start(merge)) && Inv(Start(merge))
  {
    InitInv(Start(merge));
  }

  /** A beat minted over the merge, on the earlier life's marker read there, and landed. */
  lemma BeatOnMerge(merge: (Id, Id, Id) -> bool, beat: Body) returns (s1: State, s: State)
    requires beat == Marker(Beat, 2, "b", "/b") || beat == Marker(Beat, 2, "c", "/c")
    ensures Reach({}, Start(merge), s1) && Reach({}, s1, s)
    ensures s1.log == StrayLog(Marker(Takeover, 2, "b", "/b"))
    ensures s1.history == [None, Some(1), Some(2), None, Some(3), Some(4)] && s1.landed == map[1 := 1, 2 := 2, 3 := 4]
    ensures s == s1.(log := s1.log + [Commit({4}, beat)], expects := s1.expects[5 := Some(4)],
                     history := s1.history + [Some(5)], landed := s1.landed[5 := 6])
    ensures 5 !in s1.expects
  {
    var end := Marker(Takeover, 2, "b", "/b");
    s1 := SecondLifeMerged(merge, end);
    StrayAbove(s1.log, end);
    hide Nearest;
    hide Anc;
    hide Start;
    ReachSelf({}, s1);
    var s2 := Then(s1, s1, Mint(4, beat, Some(4), 2));
    s := Then(s1, s2, Land(5));
  }

  /** The same choice lets a fenced lane's bind seize another's lease. Lane /b of the first life left its tip 2 and
    reads the merge, which lane /c's lease governs, by its own old marker: the reconciling beat lands over it, and
    then governs. */
  lemma ReconcileSeizesALease(merge: (Id, Id, Id) -> bool) returns (s1: State, s: State)
    ensures Init(Start(merge)) && Reach({}, Start(merge), s1) && Reach({}, s1, s)
    ensures s1.history == [None, Some(1), Some(2), None, Some(3), Some(4)] && s.history == s1.history + [Some(5)]
    ensures var o := Pushes.Opts(0, "b", "/b");
      && Fencing.Foreign(s1, 5, o) && Leases.OwnTip(s1.log, 4, o) && !Fencing.Agreed(s1, 5, o)
      && 5 !in s1.landed && 5 in s.expects && s.expects[5] == Some(4) && Leases.Renewal(s, 5, Beat, o, 4)
    ensures Fold(s1.log, s1.history, 5) == Held(1, "c", "/c") && GovAt(s.log, s.history, 6) == Some(5)
  {
    s1, s := BeatOnMerge(merge, Marker(Beat, 2, "b", "/b"));
    hide Reach;
    ReconcileFacts(s1, s);
    hide Leases.Renewal;
    hide Leases.OwnTip;
    hide Fencing.Foreign;
    hide Fencing.Agreed;
    hide Fold;
    hide GovAt;
  }

  lemma ReconcileFacts(s1: State, s: State)
    requires s1.log == StrayLog(Marker(Takeover, 2, "b", "/b"))
    requires s1.history == [None, Some(1), Some(2), None, Some(3), Some(4)] && s.history == s1.history + [Some(5)]
    requires s.log == s1.log + [Commit({4}, Marker(Beat, 2, "b", "/b"))] && 5 in s.expects && s.expects[5] == Some(4)
    ensures var o := Pushes.Opts(0, "b", "/b");
      && Fencing.Foreign(s1, 5, o) && Leases.OwnTip(s1.log, 4, o) && !Fencing.Agreed(s1, 5, o)
      && Leases.Renewal(s, 5, Beat, o, 4)
    ensures Fold(s1.log, s1.history, 5) == Held(1, "c", "/c") && GovAt(s.log, s.history, 6) == Some(5)
  {
    var o := Pushes.Opts(0, "b", "/b");
    StrayAbove(s1.log, Marker(Takeover, 2, "b", "/b"));
    StrayFacts(s1, Marker(Takeover, 2, "b", "/b"));
    assert Leases.Names(s1.log, 2, o) && !Leases.Names(s1.log, 3, o);
    NearestBelowMore(s1.log, s.log, 4, 2);
    ChildOf(s.log, 5, 4);
    hide Nearest;
    hide Anc;
    assert s.log[2] == s1.log[2];
  }

  lemma ChildOf(log: Log, c: Id, p: Id)
    requires c < |log| && p in log[c].parents && p < c
    ensures Anc(log, p, c)
  {
    AncParent(log, p, c);
  }

  /** At a tip that is itself a marker git lists that first. */
  lemma MarkerTip(log: Log, tip: Id)
    requires IsMarker(log, tip)
    ensures forall x: Id :: Nearest(log, tip, x) <==> x == tip
  {
    AncSelf(log, tip);
    forall x: Id | Nearest(log, tip, x) ensures x == tip {
      assert Anc(log, x, tip);
    }
    forall y: Id | 0 <= y < |log| && Anc(log, tip, y) && Anc(log, y, tip) ensures y == tip {
      AncOrder(log, tip, y);
      AncOrder(log, y, tip);
    }
  }

  lemma AncOrder(log: Log, a: Id, b: Id)
    requires Anc(log, a, b)
    ensures a <= b
  {
  }

  lemma MisreadBeatFacts(s1: State, s: State)
    requires s1.log == StrayLog(Marker(Takeover, 2, "b", "/b"))
    requires s1.history == [None, Some(1), Some(2), None, Some(3), Some(4)]
    requires s.log == s1.log + [Commit({4}, Marker(Beat, 2, "c", "/c"))] && s.history == s1.history + [Some(5)]
    ensures OneLife(s, 4, 6) && PlainRenewals(s, 4, 6) && !TerminalBetween(s, 4, 6)
    ensures Determined(s, 6) && !EpochsRead(s, 6) && !OwnAdvance(s.log, 3, 5)
  {
    StrayAbove(s1.log, Marker(Takeover, 2, "b", "/b"));
    NearestBelowMore(s1.log, s.log, 4, 2);
    MarkerTip(s.log, 5);
    hide Anc;
    hide Nearest;
    assert s.log[3].body == Marker(Claim, 1, "c", "/c") && s.log[2].body == Marker(Takeover, 2, "b", "/b");
    assert s.log[4].body.Work? && s.log[5].body == Marker(Beat, 2, "c", "/c");
    assert GovAt(s.log, s.history, 4) == Some(3) && GovAt(s.log, s.history, 5) == Some(3);
    assert LifeStart(s.history, 4) == 3 && LifeStart(s.history, 5) == 3 && LifeStart(s.history, 6) == 3;
    assert !EpochRead(s, 5);
  }

  /** And a beat minted on the marker misread there makes a lane's own token stop proving the lease it renewed. */
  lemma MisreadBeatDisownsItsToken(merge: (Id, Id, Id) -> bool) returns (s: State)
    ensures Init(Start(merge)) && Reach({}, Start(merge), s)
    ensures s.history == [None, Some(1), Some(2), None, Some(3), Some(4), Some(5)] && 3 in s.landed && s.landed[3] == 4
    ensures OneLife(s, 4, 6) && PlainRenewals(s, 4, 6) && !TerminalBetween(s, 4, 6)
    ensures Determined(s, 6) && !EpochsRead(s, 6) && !OwnAdvance(s.log, 3, 5)
  {
    var s1;
    s1, s := BeatOnMerge(merge, Marker(Beat, 2, "c", "/c"));
    ReachTrans({}, Start(merge), s1, s);
    MisreadBeatFacts(s1, s);
  }

  /** Held can be misread the same way: the earlier life's release listed first makes a held plan read as
    free. */
  lemma HeldReadsFree(merge: (Id, Id, Id) -> bool) returns (s: State)
    ensures Init(Start(merge)) && Reach({}, Start(merge), s) && s.Work() == Some(4) && |s.history| == 6
    ensures Fold(s.log, s.history, 5) == Held(1, "c", "/c")
    ensures NearestTerminal(s.log, 4, 2) && IsRelease(s.log, 2) && !TermDetermined(s, 5)
  {
    var end := Marker(Release, 1, "a", "/a");
    s := SecondLifeMerged(merge, end);
    StrayAbove(s.log, end);
    StrayFacts(s, end);
    hide NearestTerminal;
    hide Nearest;
    hide Anc;
  }

  // ---- a takeover the token proof misses ----

  /** A life that landed with its claim, and a second one claimed on the older view of base. */
  lemma ClaimedBeside(merge: (Id, Id, Id) -> bool) returns (s: State)
    ensures Reach({}, Start(merge), s)
    ensures s == Start(merge).(
      log := [Commit({}, Body.Work(true)), Commit({0}, Marker(Claim, 1, "a", "/a")),
              Commit({0}, Marker(Claim, 1, "a", "/a"))],
      bases := [0, 1], expects := map[1 := None, 2 := None], history := [None, Some(1), None, Some(2)],
      landed := map[1 := 1, 2 := 3], tokens := map[Machine.Lane(0, "/a") := 2],
      deleted := {Deletion(WORK, 1, NoWork(1))})
  {
    hide Anc;
    hide Nearest;
    var s3 := SavedAndLanded(merge);
    hide Reach;
    var s4 := Then(Start(merge), s3, Mint(0, Marker(Claim, 1, "a", "/a"), None, 0));
    var s5 := Then(Start(merge), s4, Land(2));
    s := Then(Start(merge), s5, SaveToken(Machine.Lane(0, "/a"), 2));
    assert s.tokens == map[Machine.Lane(0, "/a") := 2];
  }

  /** Another host takes the second one over. */
  lemma TakenBeside(merge: (Id, Id, Id) -> bool) returns (s: State)
    ensures Reach({}, Start(merge), s)
    ensures s == Start(merge).(log := BesideLog()[..4],
      bases := [0, 1], expects := map[1 := None, 2 := None, 3 := Some(2)],
      history := [None, Some(1), None, Some(2), Some(3)], landed := map[1 := 1, 2 := 3, 3 := 4],
      tokens := map[Machine.Lane(0, "/a") := 2], deleted := {Deletion(WORK, 1, NoWork(1))})
  {
    var s2 := ClaimedBeside(merge);
    AncUnfold(s2.log, 0);
    AncUnfold(s2.log, 2);
    assert Nearest(s2.log, 2, 2);
    hide Anc;
    hide Nearest;
    var s3 := Then(Start(merge), s2, Mint(2, Marker(Takeover, 2, "c", "/c"), Some(2), 2));
    s := Then(Start(merge), s3, Land(3));
  }

  ghost function BesideLog(): Log {
    [Commit({}, Body.Work(true)), Commit({0}, Marker(Claim, 1, "a", "/a")), Commit({0}, Marker(Claim, 1, "a", "/a")),
     Commit({2}, Marker(Takeover, 2, "c", "/c")), Commit({1, 3}, Body.Work(true))]
  }

  lemma BesideAbove(log: Log)
    requires log == BesideLog()
    ensures Anc(log, 3, 4) && Anc(log, 2, 4) && Anc(log, 1, 4) && Nearest(log, 4, 1) && Nearest(log, 4, 3)
  {
    AncUnfold(log, 0);
    AncUnfold(log, 1);
    AncUnfold(log, 2);
    AncUnfold(log, 3);
    AncUnfold(log, 4);
  }

  lemma BesideFacts(s: State)
    requires s.log == BesideLog() && s.history == [None, Some(1), None, Some(2), Some(3), Some(4)]
    ensures OneLife(s, 3, 5) && EpochsRead(s, 5) && PlainRenewals(s, 3, 5) && TerminalBetween(s, 3, 5)
    ensures OwnAdvance(s.log, 2, 4) && !OneAnswer(s.log, 2, 4) && Fold(s.log, s.history, 5) == Held(2, "c", "/c")
  {
    BesideAbove(s.log);
    MarkerTip(s.log, 2);
    MarkerTip(s.log, 3);
    hide Anc;
    hide Nearest;
    assert Answers(s.log, 2, 4, 1) && !Answers(s.log, 2, 4, 3);
    assert GovAt(s.log, s.history, 3) == Some(2) && GovAt(s.log, s.history, 4) == Some(3);
    assert LifeStart(s.history, 3) == 2 && LifeStart(s.history, 4) == 2 && LifeStart(s.history, 5) == 2;
    assert EpochRead(s, 3) && EpochRead(s, 4);
    assert Fold(s.log, s.history, 4) == Held(2, "c", "/c");
  }

  /** Lane /a claimed on an old base, was taken over, and its holder's earlier claim, which landed with a life
    before, was merged in by the lane that took it. Read by that claim, lane /a's saved token still proves the
    lease that is another host's, all in one life of the ref. */
  lemma TokenMissesATakeover(merge: (Id, Id, Id) -> bool) returns (s: State)
    ensures Init(Start(merge)) && Reach({}, Start(merge), s)
    ensures s.log == BesideLog() && s.history == [None, Some(1), None, Some(2), Some(3), Some(4)]
    ensures s.tokens == map[Machine.Lane(0, "/a") := 2]
    ensures OneLife(s, 3, 5) && EpochsRead(s, 5) && PlainRenewals(s, 3, 5) && TerminalBetween(s, 3, 5)
    ensures OwnAdvance(s.log, 2, 4) && !OneAnswer(s.log, 2, 4) && Fold(s.log, s.history, 5) == Held(2, "c", "/c")
  {
    hide Reach;
    hide Anc;
    hide Nearest;
    hide MintFits;
    var s3 := TakenBeside(merge);
    s := MergeBeside(merge, s3);
    BesideFacts(s);
    hide EpochsRead;
    hide OneAnswer;
    hide OwnAdvance;
    hide PlainRenewals;
    hide TerminalBetween;
    hide Fold;
  }

  lemma MergeBeside(merge: (Id, Id, Id) -> bool, s3: State) returns (s: State)
    requires Reach({}, Start(merge), s3) && s3.log == BesideLog()[..4] && s3.Work() == Some(3)
    requires 1 in s3.landed && 3 in s3.landed
    ensures Reach({}, Start(merge), s) && s == s3.(log := BesideLog(), history := s3.history + [Some(4)])
  {
    hide Nearest;
    hide MintFits;
    hide Start;
    BesideAbove(BesideLog());
    hide Anc;
    var s4 := Then(Start(merge), s3, AddWork({1, 3}, true));
    assert s4.log == BesideLog();
    s := Then(Start(merge), s4, PushWork(4));
  }

  // ---- a token of an earlier life ----

  /** One host, two lanes: the token lane /a saved in the first life of the ref proves the lease lane /b holds
    in the second, claimed on a base that contains the first life's claim at the same epoch. */
  lemma StaleTokenProvesAnothersLease(merge: (Id, Id, Id) -> bool) returns (s: State)
    ensures Init(Start(merge)) && Reach({}, Start(merge), s)
    ensures s.history == [None, Some(1), None, Some(2)] && s.landed == map[1 := 1, 2 := 3]
    ensures s.tokens == map[Machine.Lane(0, "/a") := 1]
    ensures |s.log| == 3 && s.log[1].body == Marker(Claim, 1, "a", "/a") && s.log[2].body == Marker(Claim, 1, "a", "/b")
    ensures TokenProves(s.log, 1, 2) && StaleProof(s, 1, 3) && NoStray(s, 3)
  {
    var s4 := SavedAndLanded(merge);
    hide Anc;
    hide Nearest;
    var s5 := Then(Start(merge), s4, Mint(1, Marker(Claim, 1, "a", "/b"), None, 0));
    s := Then(Start(merge), s5, Land(2));
    StaleTokenFacts(s);
  }

  lemma SavedAndLanded(merge: (Id, Id, Id) -> bool) returns (s: State)
    ensures Reach({}, Start(merge), s)
    ensures s == Start(merge).(
      log := [Commit({}, Body.Work(true)), Commit({0}, Marker(Claim, 1, "a", "/a"))], bases := [0, 1],
      expects := map[1 := None], history := [None, Some(1), None], landed := map[1 := 1],
      tokens := map[Machine.Lane(0, "/a") := 1], deleted := {Deletion(WORK, 1, NoWork(1))})
  {
    var s1 := Claimed(merge);
    AncUnfold(s1.log, 0);
    AncUnfold(s1.log, 1);
    assert Anc(s1.log, 0, 1) && Anc(s1.log, 1, 1);
    hide Anc;
    hide Nearest;
    var s2 := Then(Start(merge), s1, SaveToken(Machine.Lane(0, "/a"), 1));
    var s3 := Then(Start(merge), s2, GrowBase(1));
    assert !s3.HasWork(1, 1);
    s := Then(Start(merge), s3, Delete(1, NoWork(1)));
  }

  lemma StaleTokenFacts(s: State)
    requires s.log == [Commit({}, Body.Work(true)), Commit({0}, Marker(Claim, 1, "a", "/a")),
                       Commit({1}, Marker(Claim, 1, "a", "/b"))]
    requires s.history == [None, Some(1), None, Some(2)] && s.landed == map[1 := 1, 2 := 3]
    ensures TokenProves(s.log, 1, 2) && StaleProof(s, 1, 3) && NoStray(s, 3)
  {
    ChainOfThree(s.log);
    AncUnfold(s.log, 2);
    assert Nearest(s.log, 2, 2);
    assert Acquisitions(s.log, s.history, 2) == 0;
    assert LifeStart(s.history, 3) == 2;
  }
}
