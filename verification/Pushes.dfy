/** The arbitrated push every transition rides, and what its answer means. */
module Pushes {
  import opened Wrappers
  import opened Commits
  import opened Machine
  import opened Invariants
  import opened History
  import opened Lock
  import opened World

  /** Who acts: the clone it runs in, and the identity its markers carry. */
  datatype Opts = Opts(clone: nat, holder: string, lane: string)

  /** A lane as a marker's trailer writes it: "-" for none. */
  function Written(lane: string): string {
    if lane == "" then "-" else lane
  }

  /** This clone's copy of the work ref. */
  function OwnCopy(o: Opts): Copy {
    Copy(o.clone, WORK)
  }

  /** Everybody else's promises, without those about this clone's own copy. */
  function Loose(rely: Rely, k: Copy): Rely {
    rely.(still := rely.still - {k})
  }

  datatype Cas = WonCas | Lost(tip: Id) | Unconfirmed | Faulted

  lemma PassedLoose(rely: Rely, k: Copy, a: State, b: State)
    requires Passed(rely, a, b)
    ensures Passed(Loose(rely, k), a, b)
  {
  }

  lemma ExpectedFetchable(s: State, m: Id)
    requires Inv(s) && m in s.expects && m in s.landed
    ensures s.Fetchable(m) && IsMarker(s.log, m)
  {
    hide Anc;
    assert MintedFor(s.log, s.bases, m, s.expects[m]);
  }

  /** A marker standing on the work ref has landed. */
  lemma StandingLanded(s: State, m: Id)
    requires Inv(s) && s.Work() == Some(m) && IsMarker(s.log, m)
    ensures m in s.landed
  {
    hide Anc;
    hide Grounded;
    hide RefsOk;
    hide Minting;
    assert s.history[0] == None;
    assert Moved(s, |s.history| - 1);
  }

  /** The marker was pushed and, if that failed, the very next thing was to read the ref. */
  ghost predicate PushReadAt(own: seq<Deed>, i: int, m: Id, read: Option<Read>) {
    && HeardAt(own, i, OfPush(m), if read.None? then Answer(Some(m)) else Fault)
    && (read.Some? ==> HeardAt(own, i + 1, OfWork, read.value))
  }

  ghost predicate PushRead(a: seq<Deed>, b: seq<Deed>, m: Id, read: Option<Read>) {
    exists i :: |a| <= i && PushReadAt(b, i, m, read)
  }

  lemma PushReadStill(a: seq<Deed>, b: seq<Deed>, c: seq<Deed>, m: Id, read: Option<Read>)
    requires PushRead(a, b, m, read) && b <= c
    ensures PushRead(a, c, m, read)
  {
    var i :| |a| <= i && PushReadAt(b, i, m, read);
    assert PushReadAt(c, i, m, read);
  }

  /** pushThenConfirm: push the marker over exactly what it expects, and read a failed push by what the ref
    holds then. */
  method PushThenConfirm(w: World, m: Id) returns (res: Cas, ghost read: Option<Read>)
    requires w.Valid() && m in w.s.expects && IsMarker(w.s.log, m)
    modifies w`s, w`own
    ensures w.Valid() && Passed(w.rely, old(w.s), w.s)
    ensures Acted(old(w.own), w.own, NOTHING.(lands := {m}))
    // it confirms a push that failed, and no other, and then that read is the last thing it did
    ensures PushReadAt(w.own, |w.own| - if read.None? then 1 else 2, m, read) && PushRead(old(w.own), w.own, m, read)
    ensures read.Some? ==> |old(w.own)| < |w.own| && LastHeard(w.own, OfWork, read.value)
    // a win landed, and nothing else claims to have won
    ensures res.WonCas? <==> read.None? || read == Some(Answer(Some(m)))
    ensures res.WonCas? ==> m in w.s.landed
    // a lost race names what the ref holds, which is not our marker
    ensures res.Lost? <==> read.Some? && read.value.Answer? && read.value.tip.Some? && read.value.tip != Some(m)
    ensures res.Lost? ==> res.tip != m && read == Some(Answer(Some(res.tip))) && w.s.Work() == Some(res.tip)
    // an unreadable confirmation is folded into nothing else, and a fault is a ref confirmed absent
    ensures res.Unconfirmed? <==> read == Some(Fault)
    ensures res.Faulted? <==> read == Some(Answer(None))
    ensures res.Faulted? ==> w.s.Work().None?
    // with nobody else at work only our own landing can have happened, and a lost race means it did not
    ensures w.rely.alone ==> w.s == old(w.s) || Did(old(w.s), Land(m), w.s)
    ensures w.rely.alone && res.Lost? ==> w.s == old(w.s)
  {
    hide Inv;
    hide Anc;
    hide Passed;
    hide Acted;
    ghost var start, own := w.s, w.own;
    var ok := w.PushMarker(m);
    ghost var pushed, pushing := w.s, w.own;
    if pushed != start && w.rely.alone { LandMoves(start, m); }
    hide Enabled;
    read := None;
    assert ok ==> PushReadAt(pushing, |pushing| - 1, m, None);
    if ok { return WonCas, None; }
    var r := w.LsRemote();
    assert PushReadAt(w.own, |pushing| - 1, m, Some(r));
    PassedTrans(w.rely, start, pushed, w.s);
    ActedThen(own, pushing, w.own, NOTHING.(lands := {m}), NOTHING, NOTHING.(lands := {m}));
    ActedLonger(own, pushing, NOTHING.(lands := {m}));
    read := Some(r);
    if r == Fault { return Unconfirmed, read; }
    if r.tip.None? { return Faulted, read; }
    if r.tip.value != m { return Lost(r.tip.value), read; }
    PassedGrows(w.rely, start, w.s);
    assert IsMarker(w.s.log, m);
    StandingLanded(w.s, m);
    res := WonCas;
  }

  lemma LandMoves(s: State, m: Id)
    requires Enabled(s, Land(m))
    ensures var s' := Next(s, Land(m));
      s'.Work() == Some(m) && s'.history == s.history + [Some(m)] && s'.local == s.local
      && s'.bases == s.bases && s'.rescue == s.rescue && s'.legacy == s.legacy
  {
  }

  /** syncLocalRef: after a win the local copy follows, from the tip read before only. */
  method Follow(w: World, k: Copy, m: Id, seen: Option<Id>)
    requires w.Valid() && m in w.s.expects && m in w.s.landed
    requires k in w.rely.forward ==> seen.Some? ==> Anc(w.s.log, seen.value, m)
    modifies w`s, w`own
    ensures w.Valid() && Passed(Loose(w.rely, k), old(w.s), w.s)
    ensures Acted(old(w.own), w.own, NOTHING.(moves := {(k, Some(m))}))
    ensures MovesMet(old(w.own), w.own, k, seen)
    ensures Tried(old(w.own), w.own, MoveLocal(k, Some(m)), OfMove(k, Some(m)))
    ensures m in w.s.landed
    ensures w.rely.alone ==> SameRemote(old(w.s), w.s)
    ensures w.rely.alone ==>
      w.s.Local(k) == old(w.s).Local(k) || (old(w.s).Local(k) == seen && w.s.Local(k) == Some(m))
    ensures w.rely.alone ==> forall other | other != k :: w.s.Local(other) == old(w.s).Local(other)
  {
    ghost var start := w.s;
    ExpectedFetchable(w.s, m);
    CopyMoves(start, k, m);
    hide Inv;
    hide Anc;
    hide Passed;
    hide Next;
    hide Enabled;
    w.UpdateRef(k, m, seen);
    LandedStays(Loose(w.rely, k), start, w.s, m);
  }

  lemma CopyMoves(s: State, k: Copy, m: Id)
    requires s.Fetchable(m)
    ensures var s' := Next(s, MoveLocal(k, Some(m)));
      s'.Local(k) == Some(m) && forall other | other != k :: s'.Local(other) == s.Local(other)
  {
  }

  lemma LandedStays(rely: Rely, a: State, b: State, m: Id)
    requires Passed(rely, a, b) && m in a.landed
    ensures m in b.landed
  {
  }

  /** casPush: the confirmed push, and on a win, and a win only, the local copy after it. */
  method CasPush(w: World, k: Copy, m: Id, seen: Option<Id>) returns (res: Cas, ghost read: Option<Read>)
    requires w.Valid() && m in w.s.expects && IsMarker(w.s.log, m)
    requires k in w.rely.forward ==> seen.Some? ==> Anc(w.s.log, seen.value, m)
    modifies w`s, w`own
    ensures w.Valid() && Passed(Loose(w.rely, k), old(w.s), w.s)
    // all it does is land our marker and, from the tip read before only, move the local copy to it
    ensures Acted(old(w.own), w.own, Pushing(k, m))
    ensures MovesMet(old(w.own), w.own, k, seen)
    ensures res.WonCas? <==> read.None? || read == Some(Answer(Some(m)))
    ensures res.WonCas? ==> m in w.s.landed
    ensures res.Lost? <==> read.Some? && read.value.Answer? && read.value.tip.Some? && read.value.tip != Some(m)
    ensures res.Lost? ==> res.tip != m && read == Some(Answer(Some(res.tip))) && w.s.Work() == Some(res.tip)
    ensures res.Unconfirmed? <==> read == Some(Fault)
    ensures res.Faulted? <==> read == Some(Answer(None))
    ensures res.Faulted? ==> w.s.Work().None?
    // short of a win, the push and the confirming read are the last things it did
    ensures PushRead(old(w.own), w.own, m, read)
    ensures !res.WonCas? ==> |old(w.own)| < |w.own| && PushReadAt(w.own, |w.own| - 2, m, read)
    // a win has the local copy follow, and nothing else does
    ensures res.WonCas? ==> Tried(old(w.own), w.own, MoveLocal(k, Some(m)), OfMove(k, Some(m)))
    ensures !res.WonCas? ==> Passed(w.rely, old(w.s), w.s)
    // with nobody else at work, a win is one move of the ref to our marker, and a lost race no move at all
    ensures w.rely.alone && m !in old(w.s).landed && res.WonCas? ==> MovedTo(old(w.s), w.s, k, m)
    ensures w.rely.alone && res.Lost? ==> w.s == old(w.s)
    ensures w.rely.alone ==> w.s.legacy == old(w.s).legacy
  {
    hide Inv;
    hide Anc;
    hide Passed;
    hide Grows;
    hide Acted;
    hide MovesMet;
    hide Enabled;
    hide LastHeard;
    hide PushRead;
    hide PushReadAt;
    hide Tried;
    hide Did;
    hide MovedTo;
    hide SameRemote;
    ghost var start, own := w.s, w.own;
    res, read := PushThenConfirm(w, m);
    ghost var pushed, landing := w.s, w.own;
    LandsOnly(own, landing, k, m, seen);
    if w.rely.alone && pushed != start { LandKeepsLegacy(start, pushed, m); }
    PassedLoose(w.rely, k, start, pushed);
    if res.WonCas? {
      PassedGrows(w.rely, start, pushed);
      StillBelow(start, pushed, m, seen);
      Follow(w, k, m, seen);
      PassedTrans(Loose(w.rely, k), start, pushed, w.s);
      ActedThen(own, landing, w.own, Pushing(k, m), NOTHING.(moves := {(k, Some(m))}), Pushing(k, m));
      MovesMetTrans(own, landing, w.own, k, seen);
      ActedLonger(own, landing, Pushing(k, m));
      ActedLonger(landing, w.own, NOTHING.(moves := {(k, Some(m))}));
      PushReadStill(own, landing, w.own, m, read);
      TriedStill(own, landing, w.own, w.own, MoveLocal(k, Some(m)), OfMove(k, Some(m)));
      if w.rely.alone { FollowedTo(start, pushed, w.s, k, m); }
    }
  }

  lemma LandKeepsLegacy(a: State, b: State, m: Id)
    requires Did(a, Land(m), b)
    ensures b.legacy == a.legacy
  {
    hide Enabled;
  }

  /** Landing and the copy following are one move of the ref. */
  lemma FollowedTo(a: State, b: State, c: State, k: Copy, m: Id)
    requires (b == a || Did(a, Land(m), b)) && m in b.landed && SameRemote(b, c)
    requires c.Local(k) == b.Local(k) || c.Local(k) == Some(m)
    requires forall other | other != k :: c.Local(other) == b.Local(other)
    ensures m !in a.landed ==> MovedTo(a, c, k, m)
    ensures c.legacy == a.legacy
  {
    if b != a {
      LandMoves(a, m);
      hide Enabled;
      hide Next;
      assert forall other :: b.Local(other) == a.Local(other);
    }
  }

  function Ids(m: Option<Id>): set<Id> {
    if m.Some? then {m.value} else {}
  }

  /** All a transition does itself that mints at most one marker m over one value: mint, land, move its own
    copy to it, save it as its lane's token, fetch in its own clone. */
  function Marking(o: Opts, over: Option<Id>, m: Option<Id>): Footprint {
    NOTHING.(mints := {over}, lands := Ids(m), moves := if m.Some? then {(OwnCopy(o), m)} else {},
             saves := if m.Some? then {(Lane(o.clone, o.lane), m.value)} else {}, fetches := {o.clone})
  }

  /** What a push of a marker does. */
  function Pushing(k: Copy, m: Id): Footprint {
    NOTHING.(lands := {m}, moves := {(k, Some(m))})
  }

  lemma LandsOnly(a: seq<Deed>, b: seq<Deed>, k: Copy, m: Id, seen: Option<Id>)
    requires Acted(a, b, NOTHING.(lands := {m}))
    ensures Acted(a, b, Pushing(k, m)) && MovesMet(a, b, k, seen)
  {
    ActedWider(a, b, NOTHING.(lands := {m}), Pushing(k, m));
    NoMoves(a, b, NOTHING.(lands := {m}), k, seen);
  }

  lemma StillBelow(a: State, b: State, m: Id, seen: Option<Id>)
    requires Grows(a, b) && m in a.expects && m < |a.log|
    ensures m in b.expects && (seen.Some? && Anc(a.log, seen.value, m) ==> Anc(b.log, seen.value, m))
  {
    if seen.Some? { AncStable(a.log, b.log, seen.value, m); }
  }

  /** When "lost" means the push never landed. The ref may still hold the expected
    tip, and our marker may have landed and been built upon; but as long as the
    ref was not deleted meanwhile, our marker landed exactly when it is an
    ancestor of the tip the refusal names. */
  lemma LostMeansNeverLandedIff(s0: State, s: State, m: Id, tip: Id)
    requires Inv(s0) && Inv(s) && Grows(s0, s)
    requires m !in s0.landed && IsMarker(s.log, m) && s.Work() == Some(tip)
    requires forall i | |s0.history| <= i < |s.history| :: s.history[i].Some?
    ensures m in s.landed <==> Anc(s.log, m, tip)
  {
    hide Anc;
    hide Grounded;
    hide RefsOk;
    hide Minting;
    var n := |s.history| - 1;
    if m in s.landed {
      assert s.history[s.landed[m]] == Some(m);
      if s.landed[m] < |s0.history| { LandedWithin(s0, s, m); }
      assert OneLife(s, s.landed[m], n);
      hide Inv;
      AppendOnly(s, s.landed[m], n);
    } else if Anc(s.log, m, tip) {
      LandedBy(s, n, m);
    }
  }
}
