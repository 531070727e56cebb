/** What becomes of pushed work, whatever interleaves, crashes or fails: which deletes keep all of it, and
  which lose some. */
module Preservation {
  import opened Wrappers
  import opened Commits
  import opened Machine
  import opened Invariants

  /** Where origin still keeps the work commit w: the work ref, a rescue ref,
    base, or base's own tree, which is what merging a deleted tip of it into base gives. */
  ghost predicate OnWork(s: State, w: Id) {
    s.Work().Some? && Anc(s.log, w, s.Work().value)
  }

  ghost predicate OnRescue(s: State, w: Id) {
    exists r :: r in s.rescue && Anc(s.log, w, s.rescue[r])
  }

  ghost predicate OnBase(s: State, w: Id) {
    |s.bases| > 0 && Anc(s.log, w, s.bases[|s.bases| - 1])
  }

  ghost predicate LandedIn(s: State, d: Deletion) {
    d.why.Landed? && d.why.into in s.bases && d.why.same in s.bases && s.merge(d.why.into, d.tip, d.why.same)
  }

  ghost predicate LandedByContent(s: State, w: Id) {
    exists d :: d in s.deleted && LandedIn(s, d) && Anc(s.log, w, d.tip)
  }

  /** Kept without the branch it was pushed on. */
  ghost predicate KeptElsewhere(s: State, w: Id) {
    OnRescue(s, w) || OnBase(s, w) || LandedByContent(s, w)
  }

  ghost predicate Kept(s: State, w: Id) {
    OnWork(s, w) || KeptElsewhere(s, w)
  }

  ghost predicate IsWork(log: Log, c: Id) {
    c < |log| && log[c].body.Work?
  }

  /** What the evidence says nothing of: a commit it was judged to have on a view that is no value of base, or
    one the scan does not count. */
  predicate Overlooked(s: State, w: Id, why: Evidence) {
    match why
    case Parked(_) => false
    case NoWork(v) => if Anc(s.log, w, v) then v !in s.bases else !s.Counts(w)
    case Landed(i, m) => i !in s.bases || m !in s.bases
  }

  /** Some delete of the work ref overlooked w. */
  ghost predicate LetGo(s: State, w: Id) {
    exists d :: d in s.deleted && d.branch == WORK && Anc(s.log, w, d.tip) && Overlooked(s, w, d.why)
  }

  /** Every deletion on the record had its evidence, and still has. */
  ghost predicate DeletionsJustified(s: State) {
    forall d | d in s.deleted :: s.Justified(d.tip, d.why)
  }

  /** Each work commit that ever stood on the work ref is on it now or below a tip it was deleted at. */
  ghost predicate Accounted(s: State) {
    forall i: nat, w: Id | i < |s.history| && s.history[i].Some? && Anc(s.log, w, s.history[i].value)
        && IsWork(s.log, w) ::
      OnWork(s, w) || BelowDeleted(s, w)
  }

  ghost predicate BelowDeleted(s: State, w: Id) {
    exists d :: d in s.deleted && d.branch == WORK && Anc(s.log, w, d.tip)
  }

  // ---- evidence ----

  lemma AncBounded(log: Log, a: Id, b: Id)
    ensures Anc(log, a, b) ==> a <= b < |log|
  {
  }

  lemma ViewsInLog(s: State, v: Id)
    requires Inv(s) && s.Viewed(v)
    ensures v < |s.log|
  {
    hide Anc;
  }

  /** Evidence for a delete does not go stale. */
  lemma StillJustified(a: State, b: State, tip: Id, why: Evidence)
    requires Grows(a, b) && a.Justified(tip, why)
    ensures b.Justified(tip, why)
  {
    hide Anc;
    AncAllStable(a.log, b.log);
    forall v | a.Viewed(v) ensures b.Viewed(v) { StillViewed(a, b, v); }
    if why.NoWork? {
      forall c: Id | 0 <= c < |b.log| && Anc(b.log, c, tip) && !Anc(b.log, c, why.view)
        ensures !b.Counts(c)
      {
        AncBounded(b.log, c, tip);
        if why.view < |a.log| { } else { AncBounded(a.log, c, why.view); }
      }
    }
  }

  lemma StillViewed(a: State, b: State, v: Id)
    requires Grows(a, b) && a.Viewed(v)
    ensures b.Viewed(v)
  {
    if v !in a.bases {
      var k :| k in a.heads && v in a.heads[k];
      assert k in b.heads && v in b.heads[k];
    }
  }

  lemma OnBaseIfBelow(s: State, w: Id, b: Id)
    requires Inv(s) && b in s.bases && Anc(s.log, w, b)
    ensures OnBase(s, w)
  {
    var i :| 0 <= i < |s.bases| && s.bases[i] == b;
    AncTrans(s.log, w, b, s.bases[|s.bases| - 1]);
  }

  /** Evidence for a deletion keeps all the work below the deleted tip but what it overlooks, without
    counting on the branch that goes. */
  lemma JustifiedKeeps(s: State, d: Deletion, w: Id)
    requires Inv(s) && d in s.deleted && s.Justified(d.tip, d.why)
    requires Anc(s.log, w, d.tip) && IsWork(s.log, w) && !Overlooked(s, w, d.why)
    ensures KeptElsewhere(s, w)
  {
    match d.why {
      case Parked(h) =>
        assert Rescue(h, d.tip) in s.rescue;
      case NoWork(v) =>
        if Anc(s.log, w, v) { OnBaseIfBelow(s, w, v); }
      case Landed(i, m) =>
        assert LandedIn(s, d);
    }
  }

  // ---- runs ----

  /** A marker lands on top of the value it replaces. */
  lemma LandedAbove(s: State, m: Id)
    requires Inv(s) && Enabled(s, Land(m)) && s.Work().Some?
    ensures Anc(s.log, s.Work().value, m)
  {
    var parent, read :| s.log[m].parents == {parent} && parent < m
      && MintFits(s.log, s.bases, parent, s.log[m].body, s.expects[m], read);
    AncParent(s.log, parent, m);
    AncTrans(s.log, s.Work().value, parent, m);
  }

  /** Every step keeps what the work ref carried on it, or goes on the record as its deletion. */
  lemma StepAccounts(s: State, l: Label, w: Id)
    requires Inv(s) && Enabled(s, l) && (OnWork(s, w) || BelowDeleted(s, w))
    ensures OnWork(Next(s, l), w) || BelowDeleted(Next(s, l), w)
  {
    hide Inv;
    var s' := Next(s, l);
    StepGrows(s, l);
    AncAllStable(s.log, s'.log);
    AncBounded(s.log, w, if s.Work().Some? then s.Work().value else 0);
    hide Anc;
    hide MintFits;
    if OnWork(s, w) {
      var t := s.Work().value;
      if l.PushWork? {
        AncTrans(s.log, w, t, l.tip);
      } else if l.Land? {
        LandedAbove(s, l.marker);
        AncTrans(s.log, w, t, l.marker);
      } else if l.Delete? {
        assert Deletion(WORK, t, l.why) in s'.deleted;
      } else {
        assert s'.Work() == s.Work();
      }
    } else {
      var d :| d in s.deleted && d.branch == WORK && Anc(s.log, w, d.tip);
      AncBounded(s.log, w, d.tip);
      assert d in s'.deleted;
    }
  }

  lemma StepAccounted(s: State, l: Label)
    requires Inv(s) && Enabled(s, l) && Accounted(s)
    ensures Accounted(Next(s, l))
  {
    var s' := Next(s, l);
    StepGrows(s, l);
    forall i: nat, w: Id | i < |s'.history| && s'.history[i].Some? && Anc(s'.log, w, s'.history[i].value)
        && IsWork(s'.log, w)
      ensures OnWork(s', w) || BelowDeleted(s', w)
    {
      if i < |s.history| {
        assert s'.history[i] == s.history[i];
        HistoryInLog(s, i);
        AncStable(s.log, s'.log, w, s.history[i].value);
        hide Next;
        hide Enabled;
        hide Inv;
        StepAccounts(s, l, w);
      } else {
        assert s'.Work() == s'.history[i];
      }
    }
  }

  lemma HistoryInLog(s: State, i: nat)
    requires Inv(s) && i < |s.history| && s.history[i].Some?
    ensures s.history[i].value < |s.log|
  {
    assert Moved(s, i);
  }

  lemma StepJustified(s: State, l: Label)
    requires Enabled(s, l) && DeletionsJustified(s)
    ensures DeletionsJustified(Next(s, l))
  {
    var s' := Next(s, l);
    StepGrows(s, l);
    forall d | d in s'.deleted ensures s'.Justified(d.tip, d.why) {
      assert s.Justified(d.tip, d.why);
      StillJustified(s, s', d.tip, d.why);
    }
  }

  lemma {:induction false} RunAccounted(fwd: set<Copy>, s: State, labels: seq<Label>, s': State)
    requires Inv(s) && Accounted(s) && DeletionsJustified(s) && Run(fwd, s, labels, s')
    ensures Inv(s') && Accounted(s') && DeletionsJustified(s')
    decreases |labels|
  {
    hide Inv;
    hide Accounted;
    hide DeletionsJustified;
    hide Enabled;
    hide Next;
    if labels != [] {
      StepInv(s, labels[0]);
      StepAccounted(s, labels[0]);
      StepJustified(s, labels[0]);
      RunAccounted(fwd, Next(s, labels[0]), labels[1..], s');
    }
  }

  /** No pushed work is lost but what a delete overlooked: over every interleaving of every transition, every
    crash and every push or read fault, each work commit that ever stood on origin's work ref is still on the
    work ref, a rescue ref, base, or base's own tree; or the ref was deleted at a tip above it, on a view
    that was no value of base, or without counting it. */
  lemma NoPushedWorkIsLost(s0: State, s: State, i: nat, w: Id)
    requires Init(s0) && Reach({}, s0, s)
    requires i < |s.history| && s.history[i].Some? && Anc(s.log, w, s.history[i].value) && IsWork(s.log, w)
    ensures Kept(s, w) || LetGo(s, w)
  {
    Settled(s0, s);
    hide Reach;
    if BelowDeleted(s, w) && !LetGo(s, w) {
      var d :| d in s.deleted && d.branch == WORK && Anc(s.log, w, d.tip);
      JustifiedKeeps(s, d, w);
    }
    hide Inv;
  }

  lemma Settled(s0: State, s: State)
    requires Init(s0) && Reach({}, s0, s)
    ensures Inv(s) && Accounted(s) && DeletionsJustified(s)
  {
    InitInv(s0);
    var labels :| Run({}, s0, labels, s);
    RunAccounted({}, s0, labels, s);
  }

  /** So none is lost while each view a delete was judged on is a value of base, and the commit has a subject
    the scan counts. */
  lemma CountedWorkOnBaseViewsIsKept(s0: State, s: State, i: nat, w: Id)
    requires Init(s0) && Reach({}, s0, s)
    requires i < |s.history| && s.history[i].Some? && Anc(s.log, w, s.history[i].value) && s.Counts(w)
    requires forall d | d in s.deleted && d.branch == WORK :: OnBaseView(s, d.why)
    ensures Kept(s, w)
  {
    NoPushedWorkIsLost(s0, s, i, w);
    hide Inv;
    hide Reach;
  }

  /** The evidence was judged on values of base alone, or needs none. */
  predicate OnBaseView(s: State, why: Evidence) {
    match why
    case Parked(_) => true
    case NoWork(v) => v in s.bases
    case Landed(i, m) => i in s.bases && m in s.bases
  }

  // ---- one delete, exactly ----

  /** A delete of the work ref or of a decorated branch. */
  ghost predicate Deletes(l: Label, d: Deletion) {
    (l == Delete(d.tip, d.why) && d.branch == WORK) || l == DeleteLegacy(d.branch, d.tip, d.why)
  }

  /** A delete loses work exactly when some work commit below its tip is kept nowhere else already, on a rescue
    ref, base or base's own tree, and the scan does not count it, or only came by it through a view that is no
    value of base. */
  lemma DeleteLosesIff(s: State, l: Label, d: Deletion)
    requires Inv(s) && Enabled(s, l) && Deletes(l, d)
    ensures (exists w: Id :: Anc(s.log, w, d.tip) && IsWork(s.log, w) && !KeptElsewhere(Next(s, l), w))
      <==> (exists w: Id :: Anc(s.log, w, d.tip) && IsWork(s.log, w) && !KeptElsewhere(s, w) && Overlooked(s, w, d.why))
  {
    var s' := Next(s, l);
    DeleteEffect(s, l, d);
    StepInv(s, l);
    StepJustifies(s, l, d);
    hide Inv;
    hide Next;
    hide Enabled;
    hide Deletes;
    hide Grows;
    hide KeptElsewhere;
    hide Overlooked;
    forall w: Id | Anc(s.log, w, d.tip) && IsWork(s.log, w)
      ensures KeptElsewhere(s', w) <==> KeptElsewhere(s, w) || !Overlooked(s, w, d.why)
    {
      AfterDelete(s, s', d, w);
    }
  }

  lemma DeleteEffect(s: State, l: Label, d: Deletion)
    requires Enabled(s, l) && Deletes(l, d)
    ensures var s' := Next(s, l);
      && s'.log == s.log && s'.bases == s.bases && s'.rescue == s.rescue && s'.merge == s.merge
      && s'.deleted == s.deleted + {d}
  {
    hide Anc;
  }

  lemma StepJustifies(s: State, l: Label, d: Deletion)
    requires Enabled(s, l) && Deletes(l, d)
    ensures Next(s, l).Justified(d.tip, d.why)
  {
    StepGrows(s, l);
    assert s.Justified(d.tip, d.why);
    StillJustified(s, Next(s, l), d.tip, d.why);
  }

  lemma AfterDelete(s: State, s': State, d: Deletion, w: Id)
    requires Inv(s') && s'.Justified(d.tip, d.why)
    requires s'.log == s.log && s'.bases == s.bases && s'.rescue == s.rescue && s'.merge == s.merge
    requires s'.deleted == s.deleted + {d}
    requires Anc(s.log, w, d.tip) && IsWork(s.log, w)
    ensures KeptElsewhere(s', w) <==> KeptElsewhere(s, w) || !Overlooked(s, w, d.why)
  {
    if !Overlooked(s, w, d.why) { JustifiedKeeps(s', d, w); }
    hide Inv;
    hide Anc;
    if LandedByContent(s, w) {
      var x :| x in s.deleted && LandedIn(s, x) && Anc(s.log, w, x.tip);
      assert x in s'.deleted && LandedIn(s', x);
    }
    if LandedByContent(s', w) {
      var x :| x in s'.deleted && LandedIn(s', x) && Anc(s'.log, w, x.tip);
      if x != d { assert LandedIn(s, x); }
    }
  }

  /** So of a branch deleted on base itself, with all its work counted, nothing is lost; the same holds of a
    decorated branch. */
  lemma RetiredWorkIsKept(s: State, branch: string, tip: Id, why: Evidence, w: Id)
    requires Inv(s) && Enabled(s, DeleteLegacy(branch, tip, why))
    requires Anc(s.log, w, tip) && IsWork(s.log, w) && !Overlooked(s, w, why)
    ensures KeptElsewhere(Next(s, DeleteLegacy(branch, tip, why)), w)
  {
    var l, d := DeleteLegacy(branch, tip, why), Deletion(branch, tip, why);
    StepInv(s, l);
    StepJustifies(s, l, d);
    DeleteEffect(s, l, d);
    hide Inv;
    hide Next;
    hide Enabled;
    JustifiedKeeps(Next(s, l), d, w);
  }
}
