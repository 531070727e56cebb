/** Epochs, refinement to the abstract lock, and the token's proof. */
module Epochs {
  import opened Wrappers
  import opened Commits
  import opened Machine
  import opened Invariants
  import opened History
  import opened Lock

  /** What a landed marker tells of the value it replaced. */
  lemma MarkerLanded(s: State, j: nat) returns (read: Id)
    requires Inv(s) && 1 <= j < |s.history| && s.history[j].Some? && IsMarker(s.log, s.history[j].value)
    ensures var before, m := s.history[j-1], s.log[s.history[j].value].body;
      match m.kind
      case Claim =>
        if before.None? then m.epoch == 1
        else IsRelease(s.log, before.value) && m.epoch == s.log[before.value].body.epoch + 1
      case Takeover =>
        before.Some? && Nearest(s.log, before.value, read) && m.epoch == s.log[read].body.epoch + 1
      case _ =>
        before.Some? && Nearest(s.log, before.value, read) && m.epoch == s.log[read].body.epoch
  {
    var v := s.history[j].value;
    assert Moved(s, j);
    assert MintedFor(s.log, s.bases, v, s.expects[v]);
    hide Inv;
    hide Anc;
    hide Nearest;
    var parent, r :| s.log[v].parents == {parent} && parent < v
      && MintFits(s.log, s.bases, parent, s.log[v].body, s.expects[v], r);
    read := r;
  }

  /** The epoch governing place j is the number of claims and takeovers that landed in its life. */
  ghost predicate EpochRight(s: State, j: nat)
    requires j < |s.history|
  {
    var g := GovAt(s.log, s.history, j);
    && g.Some? && IsMarker(s.log, g.value)
    && s.log[g.value].body.epoch == Acquisitions(s.log, s.history, j)
  }

  /** The governing epoch counts the acquisitions of this life of the ref, as long as the epoch was read
    right at each tip of this life that was replaced. */
  lemma {:induction false} EpochCountsAcquisitions(s: State, j: nat)
    requires Inv(s) && j < |s.history| && s.history[j].Some? && EpochsRead(s, j)
    ensures EpochRight(s, j)
    decreases j
  {
    hide Anc;
    hide Inv;
    hide Nearest;
    hide EpochRead;
    BornAbsent(s);
    ValueFacts(s, j);
    if s.history[j-1].Some? {
      SameLife(s.history, j - 1, j);
      assert EpochsRead(s, j - 1);
      EpochCountsAcquisitions(s, j - 1);
      if IsMarker(s.log, s.history[j].value) {
        var read := MarkerLanded(s, j);
        assert EpochRead(s, j - 1);
        EpochAtTip(s, j, read);
      }
    } else {
      assert Acquisitions(s.log, s.history, j - 1) == 0;
      var read := MarkerLanded(s, j);
    }
  }

  /** A release at the tip governs it, and what is read at the tip carries the governing epoch. */
  lemma EpochAtTip(s: State, j: nat, read: Id)
    requires Inv(s) && 1 <= j < |s.history| && s.history[j-1].Some? && EpochRead(s, j - 1)
    ensures IsRelease(s.log, s.history[j-1].value) ==> GovAt(s.log, s.history, j - 1) == s.history[j-1]
    ensures Nearest(s.log, s.history[j-1].value, read) ==>
      s.log[read].body.epoch == s.log[GovAt(s.log, s.history, j - 1).value].body.epoch
  {
    hide Inv;
    hide Anc;
    hide Nearest;
  }

  /** So it counts them in any life no lane merged another life's markers into. */
  lemma EpochCountsWithoutStrays(s: State, j: nat)
    requires Inv(s) && j < |s.history| && s.history[j].Some?
    requires forall i: nat | s.history[0] == None && LifeStart(s.history, j) < i < j :: NoStray(s, i)
    ensures EpochRight(s, j)
  {
    BornAbsent(s);
    hide NoStray;
    NoStrayReadsEpochs(s, j);
    EpochCountsAcquisitions(s, j);
    hide Inv;
    hide EpochsRead;
  }

  /** Earlier places of a life have no more tips to read. */
  lemma EarlierEpochsRead(s: State, i: nat, j: nat)
    requires j < |s.history| && s.history[0] == None && i <= j && OneLife(s, i, j) && EpochsRead(s, j)
    ensures EpochsRead(s, i)
  {
    hide EpochRead;
    SameLife(s.history, i, j);
  }

  /** Two acquisitions in one life of the ref never share an epoch. */
  lemma AcquisitionsDiffer(s: State, i: nat, j: nat)
    requires i < j && OneLife(s, i, j)
    requires IsAcquisition(s.log, s.history[i].value) && IsAcquisition(s.log, s.history[j].value)
    requires Inv(s) && EpochsRead(s, j)
    ensures s.log[s.history[i].value].body.epoch < s.log[s.history[j].value].body.epoch
  {
    hide Inv;
    hide EpochsRead;
    BornAbsent(s);
    EarlierEpochsRead(s, i, j);
    EpochCountsAcquisitions(s, i);
    EpochCountsAcquisitions(s, j);
    CountsGrow(s, i, j - 1);
  }

  lemma {:induction false} CountsGrow(s: State, i: nat, j: nat)
    requires i <= j && OneLife(s, i, j)
    ensures Acquisitions(s.log, s.history, i) <= Acquisitions(s.log, s.history, j)
    ensures Acquisitions(s.log, s.history, i) == Acquisitions(s.log, s.history, j)
      <==> forall k | i < k <= j :: !IsAcquisition(s.log, s.history[k].value)
    decreases j
  {
    if i < j { CountsGrow(s, i, j - 1); }
  }

  /** Equal epochs mean the same acquisition: within one life the governing epoch
    changes exactly when a claim or takeover lands in between. */
  lemma SameEpochSameAcquisition(s: State, i: nat, j: nat)
    requires Inv(s) && i <= j && OneLife(s, i, j) && EpochsRead(s, j)
    ensures var a, b := GovAt(s.log, s.history, i), GovAt(s.log, s.history, j);
      && a.Some? && b.Some? && IsMarker(s.log, a.value) && IsMarker(s.log, b.value)
      && (s.log[a.value].body.epoch == s.log[b.value].body.epoch
          <==> forall k | i < k <= j :: !IsAcquisition(s.log, s.history[k].value))
  {
    assert s.history[i].Some? && s.history[j].Some?;
    hide Inv;
    hide EpochsRead;
    BornAbsent(s);
    EarlierEpochsRead(s, i, j);
    EpochCountsAcquisitions(s, i);
    EpochCountsAcquisitions(s, j);
    CountsGrow(s, i, j);
  }

  // ---- when the epoch stays right, exactly ----

  /** Minting a marker over the present tip and landing it keeps the epoch right. */
  ghost predicate KeepsEpoch(s: State, parent: Id, body: Body, read: Id)
    requires s.Work().Some?
  {
    var mint := Mint(parent, body, s.Work(), read);
    Enabled(s, mint) ==>
      var minted := Next(s, mint);
      Enabled(minted, Land(|s.log|)) ==> EpochRight(Next(minted, Land(|s.log|)), |s.history|)
  }

  /** Where the epoch is right it stays right, whatever marker is minted over the tip next, exactly when
    all the markers git may list first there carry one epoch. */
  lemma EpochStaysRightIff(s: State)
    requires Inv(s) && s.Work().Some? && EpochRight(s, |s.history| - 1)
    ensures (forall parent: Id, body: Body, read: Id :: KeepsEpoch(s, parent, body, read))
      <==> (forall x: Id, y: Id | Nearest(s.log, s.Work().value, x) && Nearest(s.log, s.Work().value, y) ::
              s.log[x].body.epoch == s.log[y].body.epoch)
  {
    var n := |s.history| - 1;
    EpochReadIff(s, n);
    hide Nearest;
    if EpochRead(s, n) {
      forall parent: Id, body: Body, read: Id ensures KeepsEpoch(s, parent, body, read) {
        ReadRightKeeps(s, parent, body, read);
      }
    } else {
      var x := MisreadTakesOver(s);
    }
  }

  /** Landing a fresh marker over the tip: what governs then, and what is counted. */
  lemma LandedNext(s: State, s': State, body: Body)
    requires |s.history| > 0 && s.Work().Some? && body.Marker?
    requires s.log <= s'.log && |s'.log| == |s.log| + 1 && s'.log[|s.log|].body == body
    requires s'.history == s.history + [Some(|s.log|)]
    requires forall i | 0 <= i < |s.history| && s.history[i].Some? :: s.history[i].value < |s.log|
    ensures GovAt(s'.log, s'.history, |s.history|) == Some(|s.log|) && IsMarker(s'.log, |s.log|)
    ensures Acquisitions(s'.log, s'.history, |s.history|) ==
      Acquisitions(s.log, s.history, |s.history| - 1) + if body.kind.Claim? || body.kind.Takeover? then 1 else 0
  {
    SameCount(s, s', |s.history| - 1);
  }

  lemma {:induction false} SameCount(s: State, s': State, j: nat)
    requires j < |s.history| && s.log <= s'.log && s.history <= s'.history
    requires forall i | 0 <= i < |s.history| && s.history[i].Some? :: s.history[i].value < |s.log|
    ensures Acquisitions(s'.log, s'.history, j) == Acquisitions(s.log, s.history, j)
  {
    if j > 0 { SameCount(s, s', j - 1); }
  }

  lemma ValuesInLog(s: State)
    requires Inv(s)
    ensures forall i | 0 <= i < |s.history| && s.history[i].Some? :: s.history[i].value < |s.log|
  {
    hide Grounded;
    hide RefsOk;
    hide Minting;
    hide Anc;
    forall i | 0 <= i < |s.history| && s.history[i].Some? ensures s.history[i].value < |s.log| {
      assert s.history[0] == None;
      assert Moved(s, i);
    }
  }

  lemma ReadRightKeeps(s: State, parent: Id, body: Body, read: Id)
    requires Inv(s) && s.Work().Some? && EpochRight(s, |s.history| - 1) && EpochRead(s, |s.history| - 1)
    ensures KeepsEpoch(s, parent, body, read)
  {
    ValuesInLog(s);
    BornAbsent(s);
    hide Inv;
    if Enabled(s, Mint(parent, body, s.Work(), read)) {
      MintReads(s, parent, body, read);
      MintedThenLanded(s, parent, body, read);
    }
  }

  /** Minting over the tip and landing: what governs then, and what is counted. */
  lemma MintedThenLanded(s: State, parent: Id, body: Body, read: Id)
    requires |s.history| > 0 && s.Work().Some? && Enabled(s, Mint(parent, body, s.Work(), read))
    requires forall i | 0 <= i < |s.history| && s.history[i].Some? :: s.history[i].value < |s.log|
    ensures var minted := Next(s, Mint(parent, body, s.Work(), read));
      Enabled(minted, Land(|s.log|)) ==>
        var s' := Next(minted, Land(|s.log|));
        && |s'.history| == |s.history| + 1
        && GovAt(s'.log, s'.history, |s.history|) == Some(|s.log|) && IsMarker(s'.log, |s.log|)
        && s'.log[|s.log|].body == body
        && Acquisitions(s'.log, s'.history, |s.history|) ==
             Acquisitions(s.log, s.history, |s.history| - 1) + if body.kind.Claim? || body.kind.Takeover? then 1 else 0
    ensures |s.log| !in s.landed ==> Enabled(Next(s, Mint(parent, body, s.Work(), read)), Land(|s.log|))
  {
    hide Anc;
    hide MintFits;
    hide GovAt;
    hide Acquisitions;
    var minted := Next(s, Mint(parent, body, s.Work(), read));
    if Enabled(minted, Land(|s.log|)) { LandedNext(s, Next(minted, Land(|s.log|)), body); }
  }

  /** The epoch of a marker minted over the tip, where the epoch is read right. */
  lemma MintReads(s: State, parent: Id, body: Body, read: Id)
    requires |s.history| > 0 && s.Work().Some? && Enabled(s, Mint(parent, body, s.Work(), read))
    requires EpochRead(s, |s.history| - 1)
    ensures var g := GovAt(s.log, s.history, |s.history| - 1);
      && g.Some? && IsMarker(s.log, g.value) && body.Marker?
      && body.epoch == s.log[g.value].body.epoch + if body.kind.Claim? || body.kind.Takeover? then 1 else 0
  {
    hide Anc;
    hide Nearest;
  }

  /** A marker git may list first with another epoch makes the next takeover's epoch wrong. */
  lemma MisreadTakesOver(s: State) returns (x: Id)
    requires Inv(s) && s.Work().Some? && EpochRight(s, |s.history| - 1) && !EpochRead(s, |s.history| - 1)
    ensures IsMarker(s.log, x)
    ensures !KeepsEpoch(s, s.Work().value, Marker(Takeover, s.log[x].body.epoch + 1, "", ""), x)
  {
    hide Inv;
    hide Anc;
    hide GovAt;
    hide Acquisitions;
    BornAbsent(s);
    ValuesInLog(s);
    WorkFetchable(s);
    MintedInLog(s);
    var t, g := s.Work().value, GovAt(s.log, s.history, |s.history| - 1).value;
    x :| Nearest(s.log, t, x) && s.log[x].body.epoch != s.log[g].body.epoch;
    assert IsMarker(s.log, x);
    hide Nearest;
    var body := Marker(Takeover, s.log[x].body.epoch + 1, "", "");
    assert Enabled(s, Mint(t, body, s.Work(), x));
    MintedThenLanded(s, t, body, x);
    hide Enabled;
    hide Next;
  }

  /** The next commit's name was never minted or landed. */
  lemma MintedInLog(s: State)
    requires Inv(s)
    ensures |s.log| !in s.expects && |s.log| !in s.landed
  {
    hide Anc;
    hide Nearest;
    assert forall m | m in s.expects :: MintedFor(s.log, s.bases, m, s.expects[m]);
  }

  // ---- refinement to the abstract lock ----

  /** The nearest terminal marker decides the fold. */
  lemma {:induction false} FoldIsTerminal(s: State, j: nat)
    requires Inv(s) && j < |s.history| && s.history[j].Some?
    ensures var t := TermAt(s.log, s.history, j);
      t.Some? && IsTerminal(s.log, t.value) && Fold(s.log, s.history, j) == MarkerLease(s.log[t.value].body, Absent)
    decreases j
  {
    hide Inv;
    ValueFacts(s, j);
    if !IsTerminal(s.log, s.history[j].value) {
      if s.history[j-1].None? { LifeStartsClaimed(s, j - 1); }
      FoldIsTerminal(s, j - 1);
    }
  }

  /** Held's read of a tip: the first terminal marker git lists is an acquisition. */
  ghost predicate HeldRead(log: Log, tip: Id) {
    exists x :: NearestTerminal(log, tip, x) && IsAcquisition(log, x)
  }

  /** Held answers what the lock holds, at every value the work ref ever had whose nearest terminal marker
    can be read only one way. */
  lemma HeldIsTheLock(s: State, j: nat)
    requires Inv(s) && j < |s.history| && s.history[j].Some? && TermDetermined(s, j)
    ensures HeldRead(s.log, s.history[j].value) <==> Fold(s.log, s.history, j).Held?
  {
    FoldIsTerminal(s, j);
    TermIsNearest(s, j);
    hide Fold;
    hide TermAt;
    hide Inv;
    hide NearestTerminal;
  }

  /** And it answers so in whatever order git lists commits exactly when the terminal markers git may list
    first are all acquisitions or none is: what a caller can ask of the commit graph alone tells whether the
    answer is the history's. */
  lemma HeldIsRightIff(s: State, j: nat)
    requires Inv(s) && j < |s.history| && s.history[j].Some?
    ensures var t := s.history[j].value;
      (forall x: Id | NearestTerminal(s.log, t, x) :: IsAcquisition(s.log, x) <==> Fold(s.log, s.history, j).Held?)
      <==> (forall x: Id, y: Id | NearestTerminal(s.log, t, x) && NearestTerminal(s.log, t, y) ::
              IsAcquisition(s.log, x) <==> IsAcquisition(s.log, y))
  {
    hide Anc;
    hide NearestTerminal;
    TermIsNearest(s, j);
    var g := TermAt(s.log, s.history, j).value;
    assert IsAcquisition(s.log, g) <==> Fold(s.log, s.history, j).Held? by { FoldIsTerminal(s, j); }
    hide Fold;
    hide TermAt;
    hide Inv;
    hide IsAcquisition;
  }

  /** The transitions the abstract lock allows. */
  predicate LockStep(a: Lease, b: Lease) {
    || a == b
    || b.Absent?
    || (a.Absent? && b.Held? && b.epoch == 1)
    || (!a.Absent? && b.Held? && b.epoch == a.epoch + 1)
    || (a.Held? && b == Free(a.epoch))
  }

  /** The fold's epoch is the governing epoch. */
  lemma FoldEpoch(s: State, j: nat)
    requires Inv(s) && j < |s.history| && s.history[j].Some? && EpochsRead(s, j)
    ensures !Fold(s.log, s.history, j).Absent?
    ensures Fold(s.log, s.history, j).epoch == Acquisitions(s.log, s.history, j)
  {
    FoldIsTerminal(s, j);
    TermPlace(s, j);
    var k := s.landed[TermAt(s.log, s.history, j).value];
    assert s.history[k] == TermAt(s.log, s.history, j);
    EarlierEpochsRead(s, k, j);
    EpochCountsAcquisitions(s, k);
    CountsGrow(s, k, j);
  }

  /** Refinement: every move of the work ref is a step of the abstract lock. */
  lemma RefinesTheLock(s: State, j: nat)
    requires 1 <= j < |s.history| && Inv(s) && EpochsRead(s, j)
    ensures LockStep(Fold(s.log, s.history, j - 1), Fold(s.log, s.history, j))
  {
    hide Inv;
    hide EpochsRead;
    hide Anc;
    if s.history[j].Some? {
      BornAbsent(s);
      ValueFacts(s, j);
      FoldEpoch(s, j);
      if s.history[j-1].Some? {
        EarlierEpochsRead(s, j - 1, j);
        FoldEpoch(s, j - 1);
      }
      if IsMarker(s.log, s.history[j].value) {
        MarkerSteps(s, j);
        hide Fold;
        hide Acquisitions;
      }
    }
  }

  /** What a landed marker does to the lock, but for its epoch. */
  lemma MarkerSteps(s: State, j: nat)
    requires Inv(s) && 1 <= j < |s.history| && s.history[j].Some? && IsMarker(s.log, s.history[j].value)
    ensures var a, b, m := Fold(s.log, s.history, j - 1), Fold(s.log, s.history, j), s.log[s.history[j].value].body;
      && (m.kind.Claim? && s.history[j-1].None? ==> b.Held? && b.epoch == 1)
      && (m.kind.Claim? && s.history[j-1].Some? ==> a.Free? && b.Held?)
      && (m.kind.Takeover? ==> s.history[j-1].Some? && b.Held?)
      && (m.kind.Release? ==> s.history[j-1].Some? && b == Free(m.epoch))
      && (m.kind.Beat? ==> s.history[j-1].Some? && b == a)
    ensures s.history[j-1].Some? ==>
      Acquisitions(s.log, s.history, j) ==
        Acquisitions(s.log, s.history, j - 1) + if IsAcquisition(s.log, s.history[j].value) then 1 else 0
  {
    var read := MarkerLanded(s, j);
    hide Inv;
    hide Anc;
    hide Nearest;
  }

  /** A claim lands only where the lock is absent or free: never over a lease
    Held reports live. */
  lemma ClaimsOnlyWhatIsFree(s: State, j: nat)
    requires Inv(s) && 1 <= j < |s.history| && s.history[j].Some?
    requires IsMarker(s.log, s.history[j].value) && s.log[s.history[j].value].body.kind.Claim?
    ensures !Fold(s.log, s.history, j - 1).Held?
    ensures s.history[j-1].Some? ==> IsRelease(s.log, s.history[j-1].value) && Fold(s.log, s.history, j - 1).Free?
  {
    var read := MarkerLanded(s, j);
  }

  /** Acquire mints over an existing ref exactly when its tip is a release marker.
    Over a free lock that is so exactly when nothing was pushed on the release
    since: work or a beat on top leaves the lock free and Acquire refusing. */
  lemma AcquireNeedsTheReleaseItself(s: State, j: nat)
    requires Inv(s) && j < |s.history| && s.history[j].Some?
    ensures IsRelease(s.log, s.history[j].value) ==> Fold(s.log, s.history, j).Free?
    ensures Fold(s.log, s.history, j).Free? ==>
      (IsRelease(s.log, s.history[j].value) <==> TermAt(s.log, s.history, j) == s.history[j])
  {
    FoldIsTerminal(s, j);
  }
}
