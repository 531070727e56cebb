/** What a renewal can and cannot do to others: fencing, and local work. */
module Fencing {
  import opened Wrappers
  import opened Commits
  import opened Machine
  import opened Invariants
  import opened History
  import opened Lock
  import opened Epochs
  import opened World
  import opened Pushes
  import opened Leases

  /** The marker governing place j does not name this holder and lane. */
  ghost predicate Foreign(s: State, j: nat, o: Opts)
    requires j < |s.history|
  {
    var g := GovAt(s.log, s.history, j);
    g.Some? ==> !Names(s.log, g.value, o)
  }

  /** The markers git may list first at place j all name this holder and lane, or none does. */
  ghost predicate Agreed(s: State, j: nat, o: Opts)
    requires j < |s.history|
  {
    s.history[j].Some? ==>
      var t := s.history[j].value;
      forall x: Id, y: Id | Nearest(s.log, t, x) && Nearest(s.log, t, y) :: Names(s.log, x, o) <==> Names(s.log, y, o)
  }

  /** At a tip into which no lane merged another life's markers they agree. */
  lemma NoStrayAgrees(s: State, j: nat, o: Opts)
    requires Inv(s) && j < |s.history| && s.history[0] == None && NoStray(s, j)
    ensures Agreed(s, j, o)
  {
    hide NoStray;
    NoStrayIsDetermined(s, j);
    hide Inv;
    hide Nearest;
    hide GovAt;
  }

  /** Where another governs, a lane can read its own marker at the tip exactly when git may list first both a
    marker that names it and one that does not. */
  lemma ForeignReadAsOwnIff(s: State, j: nat, o: Opts)
    requires Inv(s) && j < |s.history| && s.history[j].Some? && Foreign(s, j, o)
    ensures OwnTip(s.log, s.history[j].value, o) <==> !Agreed(s, j, o)
  {
    GovIsNearest(s, j);
    hide Inv;
    hide GovAt;
    hide Names;
    var t, g := s.history[j].value, GovAt(s.log, s.history, j).value;
    assert Nearest(s.log, t, g) && !Names(s.log, g, o);
    hide Nearest;
  }

  /** Fencing, at one moment: where the marker governing the ref is another's, and git's readings of the tip agree
    on that, nothing a lane minted over a tip it has left, or over one whose own marker it read, can land. */
  lemma FencedHere(s0: State, s: State, i: nat, o: Opts, m: Id, tip: Id)
    requires Inv(s0) && Inv(s) && Grows(s0, s) && m in s.expects && s.expects[m] == Some(tip) && m !in s0.landed
    requires i < |s0.history| && s0.history[i].Some? && s0.Work() != s0.history[i]
    requires |s.history| > 0 && Foreign(s, |s.history| - 1, o) && Agreed(s, |s.history| - 1, o)
    requires Some(tip) == s0.history[i] || OwnTip(s.log, tip, o)
    ensures !Enabled(s, Land(m))
  {
    hide Inv;
    hide Anc;
    hide Foreign;
    hide OwnTip;
    hide Agreed;
    var n := |s.history| - 1;
    if Some(tip) == s0.history[i] {
      if s.Work() == Some(tip) { ValueLeft(s0, s, i); }
    } else if s.Work() == Some(tip) {
      ForeignReadAsOwnIff(s, n, o);
    }
  }

  /** The reconciling beat of a bind, minted over the tip on the marker read there, and landing. */
  ghost predicate Reconciles(s: State, o: Opts, read: Id)
    requires s.Work().Some?
  {
    var t := s.Work().value;
    && Nearest(s.log, t, read) && Names(s.log, read, o)
    && var mint := Mint(t, Marker(Beat, s.log[read].body.epoch, o.holder, Written(o.lane)), s.Work(), read);
       Enabled(s, mint) && Enabled(Next(s, mint), Land(|s.log|))
  }

  /** And where another governs, a bind's reconcile can land over the tip exactly when git's readings disagree: it
    takes the ref from a foreign lease then, and only then. */
  lemma BindSeizesIff(s: State, o: Opts)
    requires Inv(s) && s.Work().Some? && Foreign(s, |s.history| - 1, o)
    ensures (exists read: Id :: Reconciles(s, o, read)) <==> !Agreed(s, |s.history| - 1, o)
  {
    hide Foreign;
    hide Agreed;
    ForeignReadAsOwnIff(s, |s.history| - 1, o);
    WorkFetchable(s);
    MintedInLog(s);
    hide Inv;
    hide Anc;
    if OwnTip(s.log, s.Work().value, o) {
      var read: Id :| Nearest(s.log, s.Work().value, read) && Names(s.log, read, o);
      CanReconcile(s, o, read);
    }
    hide Nearest;
    hide Names;
    hide Enabled;
    hide Next;
  }

  lemma CanReconcile(s: State, o: Opts, read: Id)
    requires s.Work().Some? && s.Fetchable(s.Work().value) && |s.log| !in s.expects && |s.log| !in s.landed
    requires Nearest(s.log, s.Work().value, read) && Names(s.log, read, o)
    ensures Reconciles(s, o, read)
  {
    var t := s.Work().value;
    assert Anc(s.log, t, t);
    hide Anc;
    assert IsMarker(s.log, read);
    hide Nearest;
  }

  lemma ValueLeft(s0: State, s: State, i: nat)
    requires Inv(s0) && Inv(s) && Grows(s0, s)
    requires i < |s0.history| && s0.history[i].Some? && s0.Work() != s0.history[i]
    ensures s.Work() != s0.history[i]
  {
    hide Inv;
    if s.Work() == s0.history[i] { NoValueReturns(s, i, |s.history| - 1); }
  }

  /** Fencing over whole runs: while the ref has stood under foreign acquisitions, no marker a lane minted
    over a tip it has left, or over one whose own marker it read, is the value that ends the stretch, but at a
    tip git's readings disagree on. A marker over a left tip is no later value at all. */
  lemma FencedForTheWholeRun(s0: State, s: State, i: nat, o: Opts, m: Id, tip: Id, k: nat)
    requires Inv(s0) && Inv(s) && Grows(s0, s) && m in s.expects && s.expects[m] == Some(tip) && m !in s0.landed
    requires i < |s0.history| && s0.history[i].Some? && s0.Work() != s0.history[i]
    requires Some(tip) == s0.history[i] || OwnTip(s.log, tip, o)
    requires |s0.history| <= k < |s.history| && Foreign(s, k - 1, o)
    ensures s.history[k] == Some(m) ==> !Agreed(s, k - 1, o) && Some(tip) != s0.history[i]
    ensures Some(tip) == s0.history[i] ==> m !in s.landed
  {
    hide Inv;
    hide Foreign;
    hide OwnTip;
    hide Agreed;
    if Some(tip) == s0.history[i] { NoneLandsOverLeft(s0, s, i, m); }
    if s.history[k] == Some(m) {
      ReplacedTip(s, m, k);
      if Some(tip) != s0.history[i] { ForeignReadAsOwnIff(s, k - 1, o); }
    }
  }

  /** A minted marker that is a value of the ref replaced exactly what it expected. */
  lemma ReplacedTip(s: State, m: Id, k: nat)
    requires Inv(s) && 1 <= k < |s.history| && s.history[k] == Some(m) && m in s.expects
    ensures m in s.landed && s.landed[m] == k && s.history[k-1] == s.expects[m]
  {
    hide Anc;
    hide Grounded;
    hide RefsOk;
    assert MintedFor(s.log, s.bases, m, s.expects[m]);
    assert Moved(s, k);
  }

  // ---- the transitions, fenced ----

  /** A grant means its tip was still there: a renewal, resume or release started from a tip the ref has left
    never wins, */
  lemma GrantMeansStillThere(a: State, b: State, g: Grant, from: Id, i: nat)
    requires Inv(a) && Inv(b) && Grows(a, b) && GrantedOver(a, b, g, from)
    requires i < |a.history| && a.history[i] == Some(from)
    ensures a.Work() == Some(from)
  {
    hide Inv;
    if b.landed[g.tip] > |a.history| { NoValueReturns(b, i, b.landed[g.tip] - 1); }
  }

  /** and the marker it minted lands in no later state, however late its push arrives: with what Renew, Resume
    and Release ensure of the marker they minted. */
  lemma LeftRenewalNeverLands(s0: State, s1: State, s: State, i: nat, o: Opts, from: Id, kind: Kind, m: Id)
    requires Inv(s0) && Inv(s1) && Inv(s) && Grows(s0, s1) && Grows(s1, s)
    requires i < |s0.history| && s0.history[i] == Some(from) && s0.Work() != Some(from)
    requires |s0.log| <= m && Renewal(s1, m, kind, o, from)
    ensures m !in s.landed
  {
    GrowsTrans(s0, s1, s);
    NotYetLanded(s0, m);
    hide Inv;
    hide Anc;
    hide Nearest;
    NoneLandsOverLeft(s0, s, i, m);
  }

  lemma NotYetLanded(s: State, m: Id)
    requires Inv(s) && |s.log| <= m
    ensures m !in s.landed
  {
  }

  /** A bind started from a left tip, with what RenewToBind ensures of its two markers: the first lands in no
    later state, and the reconciling one ends a foreign stretch only at a tip git's readings disagree on. */
  lemma BindIsFenced(s0: State, s1: State, s: State, i: nat, o: Opts, from: Id, first: Id, again: Option<Id>, tip: Id,
                     k: nat)
    requires Inv(s0) && Inv(s1) && Inv(s) && Grows(s0, s1) && Grows(s1, s)
    requires i < |s0.history| && s0.history[i] == Some(from) && s0.Work() != Some(from)
    requires |s0.log| <= first && Renewal(s1, first, Beat, o, from)
    requires again.Some? ==> |s0.log| <= again.value && OwnTip(s1.log, tip, o) && Renewal(s1, again.value, Beat, o, tip)
    requires |s0.history| <= k < |s.history| && Foreign(s, k - 1, o)
    ensures first !in s.landed
    ensures again.Some? && s.history[k] == again ==> !Agreed(s, k - 1, o)
  {
    hide Inv;
    hide Anc;
    hide Nearest;
    hide OwnTip;
    hide Foreign;
    hide Agreed;
    LeftRenewalNeverLands(s0, s1, s, i, o, from, Beat, first);
    if again.Some? {
      GrowsTrans(s0, s1, s);
      NotYetLanded(s0, again.value);
      OwnTipStable(s1.log, s.log, tip, o);
      FencedForTheWholeRun(s0, s, i, o, again.value, tip, k);
    }
  }

  /** The acquisition is an older one: a tip this lane's marker governed has been
    left once a foreign marker governs the ref. */
  lemma ForeignMeansLeft(s: State, i: nat, o: Opts)
    requires Inv(s) && i < |s.history| && s.history[i].Some?
    requires !Foreign(s, i, o) && Foreign(s, |s.history| - 1, o)
    ensures s.Work() != s.history[i]
  {
    hide Inv;
    hide Names;
    hide GovAt;
    if s.Work() == s.history[i] && i < |s.history| - 1 { NoValueReturns(s, i, |s.history| - 1); }
  }

  // ---- local work ----

  /** What a copy held, at the start or at any moment of a run. */
  ghost predicate KeptLocally(s: State, s': State, k: Copy) {
    && (k in s.local ==> k in s'.local && Anc(s'.log, s.local[k], s'.local[k]))
    && (forall i | |s.reflog| <= i < |s'.reflog| && s'.reflog[i].0 == k ::
          s'.reflog[i].1.Some? && k in s'.local && Anc(s'.log, s'.reflog[i].1.value, s'.local[k]))
  }

  lemma StepKeepsLocal(fwd: set<Copy>, s0: State, s: State, l: Label, k: Copy)
    requires Inv(s) && Enabled(s, l) && Forward(fwd, s, l) && k in fwd && KeptLocally(s0, s, k)
    requires s0.reflog <= s.reflog
    ensures KeptLocally(s0, Next(s, l), k)
  {
    hide Inv;
    hide KeptLocally;
    if l.MoveLocal? && l.copy == k {
      MoveKeepsLocal(fwd, s0, s, l, k);
    } else {
      OtherKeepsLocal(s0, s, l, k);
    }
  }

  lemma MoveKeepsLocal(fwd: set<Copy>, s0: State, s: State, l: Label, k: Copy)
    requires Enabled(s, l) && Forward(fwd, s, l) && k in fwd && KeptLocally(s0, s, k) && l.MoveLocal? && l.copy == k
    ensures KeptLocally(s0, Next(s, l), k)
  {
    MovedForward(s, k, l.to.value);
    hide Anc;
  }

  /** A step that leaves the copy leaves what is below it. */
  lemma OtherKeepsLocal(s0: State, s: State, l: Label, k: Copy)
    requires Inv(s) && Enabled(s, l) && KeptLocally(s0, s, k) && !(l.MoveLocal? && l.copy == k)
    ensures KeptLocally(s0, Next(s, l), k)
  {
    StepGrows(s, l);
    if k in s.local { LocalInLog(s, k); }
    AncAllStable(s.log, Next(s, l).log);
    SameCopy(s, l, k);
    hide Inv;
    hide Anc;
    hide Enabled;
    hide Next;
  }

  lemma SameCopy(s: State, l: Label, k: Copy)
    requires Enabled(s, l) && !(l.MoveLocal? && l.copy == k)
    ensures var s' := Next(s, l);
      && s'.Local(k) == s.Local(k)
      && forall i | |s.reflog| <= i < |s'.reflog| :: s'.reflog[i].0 != k
  {
    hide Anc;
    hide MintFits;
  }

  lemma MovedForward(s: State, k: Copy, to: Id)
    requires to < |s.log| && (k in s.local ==> Anc(s.log, s.local[k], to))
    ensures Anc(s.log, to, to)
    ensures k in s.local ==> forall x: Id :: Anc(s.log, x, s.local[k]) ==> Anc(s.log, x, to)
  {
    forall x: Id | k in s.local && Anc(s.log, x, s.local[k]) ensures Anc(s.log, x, to) {
      AncTrans(s.log, x, s.local[k], to);
    }
  }

  lemma LocalInLog(s: State, k: Copy)
    requires Inv(s) && k in s.local
    ensures s.local[k] < |s.log|
  {
  }

  lemma {:induction false} RunKeepsLocal(fwd: set<Copy>, s0: State, s: State, labels: seq<Label>, s': State, k: Copy)
    requires Inv(s) && Run(fwd, s, labels, s') && k in fwd && KeptLocally(s0, s, k) && s0.reflog <= s.reflog
    ensures KeptLocally(s0, s', k)
    decreases |labels|
  {
    hide Inv;
    hide KeptLocally;
    hide Enabled;
    hide Next;
    if labels != [] {
      StepInv(s, labels[0]);
      StepGrows(s, labels[0]);
      StepKeepsLocal(fwd, s0, s, labels[0], k);
      RunKeepsLocal(fwd, s0, Next(s, labels[0]), labels[1..], s', k);
    }
  }

  /** Renewals never drop local work. Renew, RenewToBind, BeatFor and Release keep
    Valid whatever copies the rely protects, this clone's own included; so if the
    lane only ever commits on top, then after any of them, and with commits made
    while the push was in flight, the local branch descends from everything it
    held since the run began. */
  lemma RenewalsKeepLocalWork(w: World, k: Copy)
    requires w.Valid() && k in w.rely.forward
    ensures KeptLocally(w.since, w.s, k)
  {
    var labels :| Run(w.rely.forward, w.since, labels, w.s);
    if k in w.since.local {
      LocalInLog(w.since, k);
      Self(w.since.log, w.since.local[k]);
    }
    RunKeepsLocal(w.rely.forward, w.since, w.since, labels, w.s, k);
  }
}
