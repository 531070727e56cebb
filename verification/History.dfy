/** The work ref appends, and never shows a value twice. */
module History {
  import opened Wrappers
  import opened Commits
  import opened Machine
  import opened Invariants

  /** Values i..j of the history belong to one life of the ref. */
  ghost predicate OneLife(s: State, i: nat, j: nat) {
    j < |s.history| && forall k | i <= k <= j :: s.history[k].Some?
  }

  lemma BornAbsent(s: State)
    requires Inv(s)
    ensures |s.history| > 0 && s.history[0] == None
  {
  }

  /** What a marker expected is an ancestor of it, and not the marker itself. */
  lemma ExpectedBelow(s: State, m: Id)
    requires Grounded(s) && Minting(s) && m in s.expects && s.expects[m].Some?
    ensures Anc(s.log, s.expects[m].value, m) && s.expects[m].value != m
  {
    assert MintedFor(s.log, s.bases, m, s.expects[m]);
    var parent, read :| s.log[m].parents == {parent} && parent < m
      && MintFits(s.log, s.bases, parent, s.log[m].body, s.expects[m], read);
    AncParent(s.log, parent, m);
    AncTrans(s.log, s.expects[m].value, parent, m);
  }

  /** The first value is no ref; work is only ever pushed onto a value. */
  lemma ValueFacts(s: State, j: nat)
    requires Inv(s) && j < |s.history| && s.history[j].Some?
    ensures 1 <= j && s.history[j].value < |s.log|
    ensures !IsMarker(s.log, s.history[j].value) ==> s.history[j-1].Some?
  {
    hide Grounded;
    hide RefsOk;
    hide Minting;
    hide Anc;
    assert s.history[0] == None;
    assert Moved(s, j);
  }

  /** What the work ref holds, a branch may stand at. */
  lemma WorkFetchable(s: State)
    requires Inv(s) && s.Work().Some?
    ensures s.Fetchable(s.Work().value)
  {
    hide Anc;
    hide Grounded;
    hide RefsOk;
    hide Minting;
    assert s.history[0] == None;
    assert Moved(s, |s.history| - 1);
  }

  /** Append only: within one life of the ref every value descends from the one
    it replaces, and so from every earlier one. */
  lemma {:induction false} AppendOnly(s: State, i: nat, j: nat)
    requires Inv(s) && i <= j && OneLife(s, i, j)
    ensures Anc(s.log, s.history[i].value, s.history[j].value)
    ensures i < j ==> s.history[i].value != s.history[j].value
    decreases j
  {
    hide Grounded;
    hide RefsOk;
    hide Minting;
    assert s.history[i].Some? && s.history[j].Some?;
    assert Moved(s, i) && Moved(s, j);
    assert Anc(s.log, s.history[i].value, s.history[i].value);
    hide Anc;
    if i < j {
      AppendOnly(s, i, j - 1);
      var v := s.history[j].value;
      if IsMarker(s.log, v) { ExpectedBelow(s, v); }
      AncTrans(s.log, s.history[i].value, s.history[j-1].value, v);
    }
  }

  /** The latest deletion (or the birth) of the ref at or before j. */
  function LifeStart(h: seq<Option<Id>>, j: nat): (k: nat)
    requires j < |h| && h[0] == None
    ensures k <= j && h[k] == None && forall i | k < i <= j :: h[i].Some?
    decreases j
  {
    if h[j].None? then j else LifeStart(h, j - 1)
  }

  /** All places of one life have one start. */
  lemma SameLife(h: seq<Option<Id>>, i: nat, j: nat)
    requires i <= j < |h| && h[0] == None && forall k | i <= k <= j :: h[k].Some?
    ensures LifeStart(h, i) == LifeStart(h, j) < i
  {
    var a, b := LifeStart(h, i), LifeStart(h, j);
    assert h[a].None? && h[b].None?;
  }

  /** A life of the ref starts with a fresh claim. */
  lemma LifeStartsClaimed(s: State, k: nat)
    requires Inv(s) && k + 1 < |s.history| && s.history[k] == None && s.history[k+1].Some?
    ensures var c := s.history[k+1].value;
      && IsMarker(s.log, c) && s.log[c].body.kind.Claim? && s.log[c].body.epoch == 1
      && c in s.landed && s.landed[c] == k + 1
  {
    var c := s.history[k+1].value;
    assert Moved(s, k + 1);
    assert MintedFor(s.log, s.bases, c, s.expects[c]);
    hide Anc;
    hide Nearest;
    hide Grounded;
    hide RefsOk;
  }

  /** ABA freedom: no value of the work ref ever returns, not even in a later
    life of the ref. */
  lemma NoValueReturns(s: State, i: nat, j: nat)
    requires Inv(s) && i < j < |s.history| && s.history[i].Some?
    ensures s.history[i] != s.history[j]
  {
    hide Anc;
    hide Grounded;
    hide RefsOk;
    hide Minting;
    if s.history[j].Some? {
      var k := LifeStart(s.history, j);
      if k < i {
        AppendOnly(s, i, j);
      } else {
        LifeStartsClaimed(s, k);
        AppendOnly(s, k + 1, j);
        assert Moved(s, i) && Moved(s, j);
      }
    }
  }

  /** So a CAS on a recorded tip succeeds only if the ref has not moved at all. */
  lemma StillThereMeansNeverMoved(fwd: set<Copy>, s: State, s': State, tip: Id)
    requires Inv(s) && Reach(fwd, s, s') && s.Work() == Some(tip) && s'.Work() == Some(tip)
    ensures s'.history == s.history
  {
    ReachInv(fwd, s, s');
    ReachGrows(fwd, s, s');
    if |s.history| < |s'.history| {
      NoValueReturns(s', |s.history| - 1, |s'.history| - 1);
    }
  }

  /** A marker already in the earlier history had already landed. */
  lemma LandedWithin(s: State, s': State, m: Id)
    requires Inv(s) && Inv(s') && Grows(s, s') && m in s'.landed && s'.landed[m] < |s.history|
    ensures m in s.landed
  {
    hide Anc;
    hide Grounded;
    hide RefsOk;
    hide Minting;
    var j := s'.landed[m];
    assert s.history[j] == s'.history[j] == Some(m);
    assert s.history[0] == None;
    assert Moved(s, j);
  }

  /** And a CAS on a tip the ref has left never succeeds again, in any run:
    the ref does not go back there, */
  lemma LeftForGood(fwd: set<Copy>, s: State, s': State, i: nat)
    requires Inv(s) && Reach(fwd, s, s') && i < |s.history| && s.history[i].Some? && s.Work() != s.history[i]
    ensures s'.Work() != s.history[i]
  {
    hide Inv;
    ReachInv(fwd, s, s');
    ReachGrows(fwd, s, s');
    NoValueReturns(s', i, |s'.history| - 1);
  }

  /** and no marker minted over it lands any more. */
  lemma NeverLandsOverLeft(fwd: set<Copy>, s: State, s': State, i: nat, m: Id)
    requires Inv(s) && Reach(fwd, s, s') && i < |s.history| && s.history[i].Some? && s.Work() != s.history[i]
    requires m in s'.expects && s'.expects[m] == s.history[i] && m !in s.landed
    ensures m !in s'.landed
  {
    hide Inv;
    ReachInv(fwd, s, s');
    ReachGrows(fwd, s, s');
    NoneLandsOverLeft(s, s', i, m);
  }

  lemma NoneLandsOverLeft(s: State, s': State, i: nat, m: Id)
    requires Inv(s) && Inv(s') && Grows(s, s') && i < |s.history| && s.history[i].Some? && s.Work() != s.history[i]
    requires m in s'.expects && s'.expects[m] == s.history[i] && m !in s.landed
    ensures m !in s'.landed
  {
    hide Anc;
    hide Grounded;
    hide RefsOk;
    hide Minting;
    if m in s'.landed {
      var j := s'.landed[m];
      assert Moved(s', j);
      if j < |s.history| {
        LandedWithin(s, s', m);
      } else {
        NoValueReturns(s', i, j - 1);
      }
    }
  }
}
