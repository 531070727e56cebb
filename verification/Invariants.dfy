/** What every reachable state keeps. */
module Invariants {
  import opened Wrappers
  import opened Commits
  import opened Machine

  /** Markers below any commit landed before the commit was written. */
  ghost predicate Grounded(s: State) {
    && WellFormed(s.log)
    && (forall c, x | Anc(s.log, x, c) && IsMarker(s.log, x) && x != c :: x in s.landed)
  }

  /** Base only grows, and every ref names a commit some push or commit put there. */
  ghost predicate RefsOk(s: State) {
    && |s.bases| > 0
    && (forall i | 0 <= i < |s.bases| :: s.Fetchable(s.bases[i]))
    && (forall i, j | 0 <= i <= j < |s.bases| :: Anc(s.log, s.bases[i], s.bases[j]))
    && (forall r | r in s.rescue :: s.Fetchable(s.rescue[r]))
    && (forall b | b in s.legacy :: s.Fetchable(s.legacy[b]))
    && (forall k | k in s.local :: s.Fetchable(s.local[k]))
    && (forall k, i | k in s.heads && 0 <= i < |s.heads[k]| :: s.Fetchable(s.heads[k][i]))
    && (forall k | k in s.tokens ::
          s.tokens[k] in s.landed && IsMarker(s.log, s.tokens[k]) && !IsRelease(s.log, s.tokens[k]))
  }

  /** A minted marker is the single child its transition mints. */
  ghost predicate MintedFor(log: Log, bases: seq<Id>, m: Id, expected: Option<Id>) {
    IsMarker(log, m) &&
    exists parent, read ::
      log[m].parents == {parent} && parent < m && MintFits(log, bases, parent, log[m].body, expected, read)
  }

  ghost predicate Minting(s: State) {
    && (forall m | m in s.expects :: MintedFor(s.log, s.bases, m, s.expects[m]))
    && (forall m: Id | IsMarker(s.log, m) :: m in s.expects)
  }

  /** How value i of the work ref's history came to replace value i-1: a landed
    marker replaced exactly the value it expected, pushed work fast-forwards,
    and either reaches only markers that had landed by then. */
  ghost predicate Moved(s: State, i: nat)
    requires 1 <= i < |s.history|
  {
    var h := s.history;
    h[i].Some? ==>
      var v := h[i].value;
      && v < |s.log|
      && (IsMarker(s.log, v) ==> v in s.expects && h[i-1] == s.expects[v] && v in s.landed && s.landed[v] == i)
      && (!IsMarker(s.log, v) ==> h[i-1].Some? && h[i-1].value != v && Anc(s.log, h[i-1].value, v))
      && (forall x: Id | IsMarker(s.log, x) && Anc(s.log, x, v) :: x in s.landed && s.landed[x] <= i)
  }

  ghost predicate HistoryOk(s: State) {
    && |s.history| > 0 && s.history[0] == None
    && (forall i: nat | 1 <= i < |s.history| :: Moved(s, i))
    && (forall m | m in s.landed ::
          IsMarker(s.log, m) && 1 <= s.landed[m] < |s.history| && s.history[s.landed[m]] == Some(m))
  }

  ghost predicate Inv(s: State) {
    Grounded(s) && RefsOk(s) && Minting(s) && HistoryOk(s)
  }

  lemma InitInv(s: State)
    requires Init(s)
    ensures Inv(s)
  {
  }

  // ---- every step keeps the invariant ----

  lemma AppendGrounded(s: State, c: Commit, s': State)
    requires Grounded(s) && s'.log == s.log + [c] && s'.landed == s.landed
    requires forall p | p in c.parents :: s.Fetchable(p)
    ensures Grounded(s')
  {
    AncAllStable(s.log, s'.log);
    forall x: Id | Anc(s'.log, x, |s.log|) && IsMarker(s'.log, x) && x != |s.log|
      ensures x in s'.landed
    {
      var p :| p in s'.log[|s.log|].parents && p < |s.log| && Anc(s'.log, x, p);
      assert s.Fetchable(p);
    }
  }

  lemma AppendRefs(s: State, c: Commit, s': State)
    requires RefsOk(s) && s' == s.(log := s.log + [c], expects := s'.expects)
    ensures RefsOk(s')
  {
    AncAllStable(s.log, s'.log);
  }

  lemma MovedStable(s: State, s': State, i: nat)
    requires Grows(s, s') && 1 <= i < |s.history| && Moved(s, i)
    ensures Moved(s', i)
  {
    AncAllStable(s.log, s'.log);
    assert s'.history[i] == s.history[i] && s'.history[i-1] == s.history[i-1];
    hide Anc;
  }

  lemma SameHistory(s: State, s': State)
    requires HistoryOk(s) && Grows(s, s') && s'.history == s.history && s'.landed == s.landed
    ensures HistoryOk(s')
  {
    forall i: nat | 1 <= i < |s'.history| ensures Moved(s', i) { MovedStable(s, s', i); }
  }

  lemma MintFitsStable(log: Log, bases: seq<Id>, more: Log, moreBases: seq<Id>,
      parent: Id, body: Body, expected: Option<Id>, read: Id)
    requires body.Marker? && parent < |log| && MintFits(log, bases, parent, body, expected, read)
    requires log <= more && bases <= moreBases
    ensures MintFits(more, moreBases, parent, body, expected, read)
  {
    AncStable(log, more, read, parent);
    NearestStable(log, more, parent, read);
    if expected.Some? && Anc(log, expected.value, parent) {
      AncStable(log, more, expected.value, parent);
      NearestStable(log, more, expected.value, read);
    }
  }

  lemma MintedForStable(log: Log, bases: seq<Id>, more: Log, moreBases: seq<Id>, m: Id, expected: Option<Id>)
    requires MintedFor(log, bases, m, expected) && log <= more && bases <= moreBases
    ensures MintedFor(more, moreBases, m, expected)
  {
    var parent, read :| log[m].parents == {parent} && parent < m
      && MintFits(log, bases, parent, log[m].body, expected, read);
    MintFitsStable(log, bases, more, moreBases, parent, log[m].body, expected, read);
    assert more[m] == log[m];
  }

  lemma MintingStable(s: State, s': State)
    requires Minting(s) && s.log <= s'.log && s.bases <= s'.bases && s'.expects == s.expects
    requires forall m: Id | |s.log| <= m :: !IsMarker(s'.log, m)
    ensures Minting(s')
  {
    forall m | m in s'.expects ensures MintedFor(s'.log, s'.bases, m, s'.expects[m]) {
      MintedForStable(s.log, s.bases, s'.log, s'.bases, m, s.expects[m]);
    }
  }

  lemma MintMinting(s: State, l: Label)
    requires Minting(s) && l.Mint? && Enabled(s, l)
    ensures Minting(Next(s, l))
  {
    var s' := Next(s, l);
    MintFitsStable(s.log, s.bases, s'.log, s'.bases, l.parent, l.body, l.expected, l.read);
    assert s'.log[|s.log|].parents == {l.parent};
    assert MintedFor(s'.log, s'.bases, |s.log|, l.expected);
    forall m | m in s'.expects && m != |s.log| ensures MintedFor(s'.log, s'.bases, m, s'.expects[m]) {
      MintedForStable(s.log, s.bases, s'.log, s'.bases, m, s.expects[m]);
    }
  }

  lemma LandMoved(s: State, m: Id)
    requires Grounded(s) && Minting(s) && HistoryOk(s) && Enabled(s, Land(m))
    ensures IsMarker(s.log, m) && Moved(Next(s, Land(m)), |s.history|)
  {
    assert MintedFor(s.log, s.bases, m, s.expects[m]);
    hide Anc;
    hide MintedFor;
  }

  lemma PushMoved(s: State, c: Id)
    requires Grounded(s) && HistoryOk(s) && Enabled(s, PushWork(c))
    ensures Moved(Next(s, PushWork(c)), |s.history|)
  {
    hide Anc;
  }

  lemma ExtendHistory(s: State, s': State, landing: Option<Id>)
    requires HistoryOk(s) && Grows(s, s') && s'.log == s.log && |s'.history| == |s.history| + 1
    requires Moved(s', |s.history|)
    requires if landing.None? then s'.landed == s.landed
             else IsMarker(s.log, landing.value) && s'.history[|s.history|] == landing
                  && s'.landed == s.landed[landing.value := |s.history|]
    ensures HistoryOk(s')
  {
    forall i: nat | 1 <= i < |s.history| ensures Moved(s', i) { MovedStable(s, s', i); }
    hide Moved;
    hide IsMarker;
  }

  lemma HistoryStep(s: State, l: Label)
    requires Grounded(s) && Minting(s) && HistoryOk(s) && (l.Land? || l.PushWork? || l.Delete?) && Enabled(s, l)
    ensures HistoryOk(Next(s, l))
  {
    hide Moved;
    hide Anc;
    StepGrows(s, l);
    if l.Land? {
      LandMoved(s, l.marker);
      ExtendHistory(s, Next(s, l), Some(l.marker));
    } else if l.PushWork? {
      PushMoved(s, l.tip);
      ExtendHistory(s, Next(s, l), None);
    } else {
      DeleteMoved(s, l);
      ExtendHistory(s, Next(s, l), None);
    }
  }

  lemma DeleteMoved(s: State, l: Label)
    requires HistoryOk(s) && l.Delete? && Enabled(s, l)
    ensures Moved(Next(s, l), |s.history|)
  {
  }

  lemma GrowBaseRefs(s: State, l: Label)
    requires RefsOk(s) && l.GrowBase? && Enabled(s, l)
    ensures RefsOk(Next(s, l))
  {
    var n := |s.bases|;
    forall i | 0 <= i < n ensures Anc(s.log, s.bases[i], l.tip) {
      AncTrans(s.log, s.bases[i], s.bases[n-1], l.tip);
    }
    assert Anc(s.log, l.tip, l.tip);
    hide Anc;
  }

  lemma WriteInv(s: State, l: Label)
    requires Inv(s) && (l.AddWork? || l.Mint?) && Enabled(s, l)
    ensures Inv(Next(s, l))
  {
    var s' := Next(s, l);
    var c := if l.AddWork? then Commit(l.parents, Body.Work(l.counted)) else Commit({l.parent}, l.body);
    StepGrows(s, l);
    AppendGrounded(s, c, s');
    AppendRefs(s, c, s');
    SameHistory(s, s');
    if l.Mint? { MintMinting(s, l); } else { MintingStable(s, s'); }
    hide Grounded;
    hide RefsOk;
    hide Minting;
    hide HistoryOk;
  }

  lemma OtherRefs(s: State, l: Label)
    requires RefsOk(s) && Enabled(s, l) && !l.AddWork? && !l.Mint? && !l.GrowBase?
    ensures RefsOk(Next(s, l))
  {
    if l.Land? || l.PushWork? || l.Delete? {
      WorkMoveRefs(s, l);
    } else if l.MoveLocal? || l.SaveToken? {
      LaneRefs(s, l);
    } else if l.Fetch? {
      FetchRefs(s, l);
    } else {
      SideRefs(s, l);
    }
  }

  lemma WorkMoveRefs(s: State, l: Label)
    requires RefsOk(s) && Enabled(s, l) && (l.Land? || l.PushWork? || l.Delete?)
    ensures RefsOk(Next(s, l))
  {
    hide Anc;
  }

  lemma LaneRefs(s: State, l: Label)
    requires RefsOk(s) && Enabled(s, l) && (l.MoveLocal? || l.SaveToken?)
    ensures RefsOk(Next(s, l))
  {
    hide Anc;
    hide MintFits;
  }

  lemma FetchRefs(s: State, l: Label)
    requires RefsOk(s) && Enabled(s, l) && l.Fetch?
    ensures RefsOk(Next(s, l))
  {
    hide Anc;
    hide MintFits;
  }

  lemma SideRefs(s: State, l: Label)
    requires RefsOk(s) && Enabled(s, l) && (l.Park? || l.Forge? || l.PushLegacy? || l.DeleteLegacy?)
    ensures RefsOk(Next(s, l))
  {
    hide Anc;
    hide MintFits;
  }

  lemma MoveInv(s: State, l: Label)
    requires Inv(s) && (l.Land? || l.PushWork? || l.Delete?) && Enabled(s, l)
    ensures Inv(Next(s, l))
  {
    HistoryStep(s, l);
    MintingStable(s, Next(s, l));
    OtherRefs(s, l);
    hide Anc;
    hide RefsOk;
    hide HistoryOk;
    hide Minting;
  }

  lemma OtherInv(s: State, l: Label)
    requires Inv(s) && Enabled(s, l) && !l.AddWork? && !l.Mint? && !l.Land? && !l.PushWork? && !l.Delete?
    ensures Inv(Next(s, l))
  {
    hide MintFits;
    var s' := Next(s, l);
    StepGrows(s, l);
    MintingStable(s, s');
    SameHistory(s, s');
    if l.GrowBase? { GrowBaseRefs(s, l); } else { OtherRefs(s, l); }
    hide Anc;
    hide RefsOk;
    hide HistoryOk;
    hide Minting;
  }

  lemma StepInv(s: State, l: Label)
    requires Inv(s) && Enabled(s, l)
    ensures Inv(Next(s, l))
  {
    hide Inv;
    hide Next;
    if l.AddWork? || l.Mint? { WriteInv(s, l); }
    else if l.Land? || l.PushWork? || l.Delete? { MoveInv(s, l); }
    else { OtherInv(s, l); }
  }

  lemma {:induction false} RunInv(fwd: set<Copy>, s: State, labels: seq<Label>, s': State)
    requires Inv(s) && Run(fwd, s, labels, s')
    ensures Inv(s')
    decreases |labels|
  {
    hide Inv;
    hide Enabled;
    hide Next;
    if labels != [] {
      StepInv(s, labels[0]);
      RunInv(fwd, Next(s, labels[0]), labels[1..], s');
    }
  }

  lemma ReachInv(fwd: set<Copy>, s: State, s': State)
    requires Inv(s) && Reach(fwd, s, s')
    ensures Inv(s')
  {
    var labels :| Run(fwd, s, labels, s');
    RunInv(fwd, s, labels, s');
  }
}
