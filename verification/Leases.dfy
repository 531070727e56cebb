/** The holder's transitions: renew, bind, beat for a holder, release. */
module Leases {
  import opened Wrappers
  import opened Commits
  import opened Machine
  import opened Invariants
  import opened History
  import opened World
  import opened Pushes

  /** What a won transition leaves: the tip is the lease token. */
  datatype Grant = Grant(tip: Id, epoch: nat)

  datatype Error =
    | NoMarker                                            // no marker is reachable
    | GitFault                                            // a local git command failed
    | PushFault                                           // the push failed and left no ref
    | Unconfirmed                                         // push and confirmation both failed
    | HeldBy(tip: Id, marker: Option<Id>, landed: bool, ours: bool)  // lost to this tip, our own host's or not
    | Fenced(tip: Id, marker: Option<Id>)                 // the ref stands here instead
    | LocalDiverges(local: Id)
    | LeaseDiverges(local: Id)
    | LocalWork(local: Id)

  datatype Outcome = Won(grant: Grant) | Failed(error: Error)

  // ---- what the log of a transition says of its outcome ----

  /** After place lo the marker at the tip was read, fetched for if need be, and this is what was found. */
  ghost predicate Named(own: seq<Deed>, lo: nat, clone: nat, tip: Id, x: Option<Id>) {
    exists hi: nat :: lo <= hi && MarkerTold(own, lo, hi, clone, tip, x)
  }

  /** The outcome is the one that the push at place i, and the read that followed a failure, call for: a win if it
    succeeded or the ref is found at our marker, a refusal naming the tip and its marker if at another, a fault if
    it is absent, and unconfirmed if that read failed too. */
  ghost predicate Decided(own: seq<Deed>, i: nat, m: Id, read: Option<Read>, clone: nat, held: bool, r: Outcome) {
    match read
    case None => r.Won?
    case Some(Fault) => r == Failed(Error.Unconfirmed)
    case Some(Answer(None)) => r == Failed(PushFault)
    case Some(Answer(Some(t))) =>
      if t == m then r.Won?
      else
        && r.Failed? && (if held then r.error.HeldBy? else r.error.Fenced?) && r.error.tip == t
        && Named(own, i + 2, clone, t, r.error.marker)
  }

  ghost predicate Arbitrated(a: seq<Deed>, b: seq<Deed>, m: Id, clone: nat, held: bool, r: Outcome) {
    exists i: nat, read :: |a| <= i && PushReadAt(b, i, m, read) && Decided(b, i, m, read, clone, held, r)
  }

  /** A win had this clone's copy of the work ref follow. */
  ghost predicate Followed(a: seq<Deed>, b: seq<Deed>, o: Opts, m: Id) {
    Tried(a, b, MoveLocal(OwnCopy(o), Some(m)), OfMove(OwnCopy(o), Some(m)))
  }

  /** The reason a renewal or release of `from` minted nothing, as git told it. */
  ghost predicate Refused(a: seq<Deed>, b: seq<Deed>, o: Opts, from: Id, relay: bool, e: Error) {
    match e
    case NoMarker => HeardIn(a, b, OfMarker(from), Answer(None))
    case GitFault => HeardIn(a, b, OfMint, Fault)
    case LeaseDiverges(l) =>
      relay && HeardIn(a, b, OfCopy(OwnCopy(o)), Answer(Some(l)))
      && HeardIn(a, b, OfBelow(from, l), Answer(None)) && HeardIn(a, b, OfBelow(l, from), Answer(None))
    case LocalWork(l) =>
      !relay && HeardIn(a, b, OfCopy(OwnCopy(o)), Answer(Some(l))) && HeardIn(a, b, OfBelow(l, from), Answer(None))
    case _ => false
  }

  /** With nobody else at work that reason is so. */
  ghost predicate TrulyRefused(s: State, o: Opts, from: Id, e: Error) {
    match e
    case NoMarker => forall y: Id :: !Nearest(s.log, from, y)
    case LeaseDiverges(l) => s.Local(OwnCopy(o)) == Some(l) && !Anc(s.log, from, l) && !Anc(s.log, l, from)
    case LocalWork(l) => s.Local(OwnCopy(o)) == Some(l) && !Anc(s.log, l, from)
    case _ => true
  }

  /** A transition does its job: with no marker minted it was refused with a reason that it was told; and any
    marker it mints it pushes, and the outcome is what that push calls for. */
  ghost predicate Told(a: seq<Deed>, b: seq<Deed>, o: Opts, from: Id, relay: bool, m: Option<Id>, r: Outcome) {
    if m.None? then r.Failed? && Refused(a, b, o, from, relay, r.error)
    else Arbitrated(a, b, m.value, o.clone, false, r) && (r.Won? ==> Followed(a, b, o, m.value))
  }

  lemma ArbitratedStill(a: seq<Deed>, b: seq<Deed>, c: seq<Deed>, d: seq<Deed>, m: Id, clone: nat, held: bool,
                        r: Outcome)
    requires Arbitrated(b, c, m, clone, held, r) && |a| <= |b| && c <= d
    ensures Arbitrated(a, d, m, clone, held, r)
  {
    var i: nat, read :| |b| <= i && PushReadAt(c, i, m, read) && Decided(c, i, m, read, clone, held, r);
    assert PushReadAt(d, i, m, read);
    NamedStill(c, d, i + 2, clone);
    hide Named;
    assert Decided(d, i, m, read, clone, held, r);
  }

  lemma NamedStill(b: seq<Deed>, c: seq<Deed>, lo: nat, clone: nat)
    requires b <= c
    ensures forall tip, x :: Named(b, lo, clone, tip, x) ==> Named(c, lo, clone, tip, x)
  {
    forall tip, x | Named(b, lo, clone, tip, x) ensures Named(c, lo, clone, tip, x) {
      var hi: nat :| lo <= hi && MarkerTold(b, lo, hi, clone, tip, x);
      assert MarkerTold(c, lo, hi, clone, tip, x);
    }
  }

  /** A confirmed push read as an outcome. */
  lemma PushDecides(a: seq<Deed>, b: seq<Deed>, c: seq<Deed>, m: Id, clone: nat, held: bool, read: Option<Read>,
                    r: Outcome, lo: nat)
    requires PushRead(a, b, m, read) && b <= c
    requires r.Won? <==> read.None? || read == Some(Answer(Some(m)))
    requires read == Some(Fault) ==> r == Failed(Error.Unconfirmed)
    requires read == Some(Answer(None)) ==> r == Failed(PushFault)
    requires r.Failed? && read.value.Answer? && read.value.tip.Some? ==>
      && (if held then r.error.HeldBy? else r.error.Fenced?) && r.error.tip == read.value.tip.value
      && |b| <= lo && MarkerTold(c, lo, |c|, clone, r.error.tip, r.error.marker)
    ensures Arbitrated(a, c, m, clone, held, r)
  {
    var i :| |a| <= i && PushReadAt(b, i, m, read);
    assert PushReadAt(c, i, m, read);
    if r.Failed? && read.value.Answer? && read.value.tip.Some? {
      assert MarkerTold(c, i + 2, |c|, clone, r.error.tip, r.error.marker);
    }
    assert Decided(c, i, m, read, clone, held, r);
  }

  lemma LastRead(own: seq<Deed>, m: Id, read: Read)
    requires PushReadAt(own, |own| - 2, m, Some(read))
    ensures LastHeard(own, OfWork, read)
  {
  }

  lemma RefusedStill(a: seq<Deed>, b: seq<Deed>, c: seq<Deed>, d: seq<Deed>, o: Opts, from: Id, relay: bool, e: Error)
    requires Refused(b, c, o, from, relay, e) && |a| <= |b| && c <= d
    ensures Refused(a, d, o, from, relay, e)
  {
    hide HeardIn;
    forall of, answer | HeardIn(b, c, of, answer) ensures HeardIn(a, d, of, answer) {
      HeardStill(a, b, c, d, of, answer);
    }
  }

  lemma ToldStill(a: seq<Deed>, b: seq<Deed>, c: seq<Deed>, d: seq<Deed>, o: Opts, from: Id, relay: bool, m: Option<Id>,
                  r: Outcome)
    requires Told(b, c, o, from, relay, m, r) && |a| <= |b| && c <= d
    ensures Told(a, d, o, from, relay, m, r)
  {
    if m.None? {
      hide Refused;
      RefusedStill(a, b, c, d, o, from, relay, r.error);
    } else {
      hide Arbitrated;
      ArbitratedStill(a, b, c, d, m.value, o.clone, false, r);
      if r.Won? {
        TriedStill(a, b, c, d, MoveLocal(OwnCopy(o), Some(m.value)), OfMove(OwnCopy(o), Some(m.value)));
      }
    }
  }

  /** A marker minted for a renewal or release of `from`: over exactly that tip, at
    the epoch read beneath it, carrying the actor's identity, on top of it. */
  ghost predicate Renewal(s: State, m: Id, kind: Kind, o: Opts, from: Id) {
    && IsMarker(s.log, m) && m in s.expects && s.expects[m] == Some(from)
    && Anc(s.log, from, m)
    && s.log[m].body.kind == kind && s.log[m].body.holder == o.holder && s.log[m].body.lane == Written(o.lane)
    && exists x: Id :: Nearest(s.log, from, x) && s.log[m].body.epoch == s.log[x].body.epoch
  }

  lemma RenewalStable(a: State, b: State, m: Id, kind: Kind, o: Opts, from: Id)
    requires Renewal(a, m, kind, o, from) && Grows(a, b)
    ensures Renewal(b, m, kind, o, from)
  {
    hide Anc;
    AncStable(a.log, b.log, from, m);
    var x: Id :| Nearest(a.log, from, x) && a.log[m].body.epoch == a.log[x].body.epoch;
    NearestBelow(a.log, b.log, from, x);
    assert b.log[x] == a.log[x] && b.log[m] == a.log[m];
  }

  lemma NearestBelow(log: Log, more: Log, tip: Id, x: Id)
    requires Nearest(log, tip, x) && log <= more
    ensures Nearest(more, tip, x) && x < |log| && IsMarker(more, x)
  {
    NearestStable(log, more, tip, x);
  }

  /** relayBase: mint on the local tip when it fast-forwards `from`, on `from`
    when the local copy is absent or behind, and refuse a local tip beside it. */
  method RelayBase(w: World, o: Opts, from: Id) returns (parent: Id, seen: Option<Id>, err: Option<Error>)
    requires w.Valid() && w.s.Fetchable(from)
    modifies w`s, w`own
    ensures Acted(old(w.own), w.own, NOTHING) && |old(w.own)| < |w.own|
    // the local tip is the one it read first
    ensures FirstHeard(old(w.own), w.own, OfCopy(OwnCopy(o)), Answer(seen))
    ensures w.Valid() && Passed(w.rely, old(w.s), w.s)
    ensures w.rely.alone ==> w.s == old(w.s)
    ensures err.None? ==>
      && w.s.Fetchable(parent) && Anc(w.s.log, from, parent)
      && (seen.Some? ==> w.s.Local(OwnCopy(o)) == seen && Anc(w.s.log, seen.value, parent))
      && (parent == from || seen == Some(parent))
    ensures err.Some? ==>
      err.value.LeaseDiverges? && w.s.Local(OwnCopy(o)) == Some(err.value.local) && err.value.local != from
    // and it was told that neither is below the other
    ensures err.Some? ==> Refused(old(w.own), w.own, o, from, true, err.value)
    ensures w.rely.alone ==> var local := w.s.Local(OwnCopy(o));
      err.Some? <==> local.Some? && !Anc(w.s.log, from, local.value) && !Anc(w.s.log, local.value, from)
  {
    hide Inv;
    hide Anc;
    hide Acted;
    hide HeardIn;
    hide Passed;
    ghost var start, own := w.s, w.own;
    assert Anc(start.log, from, from) by { Self(start.log, from); }
    var local := w.LocalTip(OwnCopy(o));
    ghost var looking := w.own;
    PassedGrows(w.rely, start, w.s);
    Self(w.s.log, from);
    if local.None? || local == Some(from) { return from, local, None; }
    Self(w.s.log, local.value);
    var ahead := w.IsAncestor(from, local.value);
    ghost var asking := w.own;
    ReadThen(own, looking, asking, NOTHING);
    if ahead { return local.value, local, None; }
    var behind := w.IsAncestor(local.value, from);
    ReadThen(own, asking, w.own, NOTHING);
    if behind { return from, local, None; }
    Beside(own, looking, asking, w.own, w.s, o, from, local.value);
    return from, local, Some(LeaseDiverges(local.value));
  }

  /** Three answers that make a divergence. */
  lemma Beside(a: seq<Deed>, b: seq<Deed>, c: seq<Deed>, d: seq<Deed>, s: State, o: Opts, from: Id, local: Id)
    requires a < b < c < d && LastHeard(b, OfCopy(OwnCopy(o)), Answer(Some(local)))
    requires LastHeard(c, OfBelow(from, local), Answer(None)) && LastHeard(d, OfBelow(local, from), Answer(None))
    ensures Refused(a, d, o, from, true, LeaseDiverges(local))
  {
    assert HeardAt(d, |b| - 1, OfCopy(OwnCopy(o)), Answer(Some(local)));
    assert HeardAt(d, |c| - 1, OfBelow(from, local), Answer(None));
    assert HeardAt(d, |d| - 1, OfBelow(local, from), Answer(None));
  }

  lemma Self(log: Log, x: Id)
    requires x < |log|
    ensures Anc(log, x, x)
  {
  }

  /** holderBase: the same for a beat on another holder's behalf, which relays
    nothing. */
  method HolderBase(w: World, o: Opts, from: Id) returns (parent: Id, seen: Option<Id>, err: Option<Error>)
    requires w.Valid() && w.s.Fetchable(from)
    modifies w`s, w`own
    ensures Acted(old(w.own), w.own, NOTHING) && |old(w.own)| < |w.own|
    // the local tip is the one it read first
    ensures FirstHeard(old(w.own), w.own, OfCopy(OwnCopy(o)), Answer(seen))
    ensures w.Valid() && Passed(w.rely, old(w.s), w.s)
    ensures w.rely.alone ==> w.s == old(w.s)
    ensures err.None? ==>
      && parent == from && w.s.Fetchable(from)
      && (seen.Some? ==> w.s.Local(OwnCopy(o)) == seen && Anc(w.s.log, seen.value, from))
    ensures err.Some? ==>
      err.value.LocalWork? && w.s.Local(OwnCopy(o)) == Some(err.value.local) && err.value.local != from
    // and it was told that it is not below `from`
    ensures err.Some? ==> Refused(old(w.own), w.own, o, from, false, err.value)
    ensures w.rely.alone ==> var local := w.s.Local(OwnCopy(o));
      err.Some? <==> local.Some? && !Anc(w.s.log, local.value, from)
  {
    hide Inv;
    hide Acted;
    hide Passed;
    ghost var start, own := w.s, w.own;
    var local := w.LocalTip(OwnCopy(o));
    ghost var looking := w.own;
    PassedGrows(w.rely, start, w.s);
    parent, seen, err := from, local, None;
    if local.None? { return; }
    var behind := w.IsAncestor(local.value, from);
    ReadThen(own, looking, w.own, NOTHING);
    if local != Some(from) && !behind {
      assert HeardAt(w.own, |own|, OfCopy(OwnCopy(o)), Answer(Some(local.value)));
      assert HeardAt(w.own, |own| + 1, OfBelow(local.value, from), Answer(None));
      err := Some(LocalWork(local.value));
    }
  }

  /** fenceError: the mover's marker, when it can be read. */
  method FenceError(w: World, o: Opts, tip: Id) returns (e: Error)
    requires w.Valid()
    modifies w`s, w`own
    ensures Acted(old(w.own), w.own, NOTHING.(fetches := {o.clone}))
    ensures w.Valid() && Passed(w.rely, old(w.s), w.s) && (w.rely.alone ==> OnlyFetched(old(w.s), w.s))
    ensures e.Fenced? && e.tip == tip && (e.marker.Some? ==> Nearest(w.s.log, tip, e.marker.value))
    ensures MarkerTold(w.own, |old(w.own)|, |w.own|, o.clone, tip, e.marker)
  {
    var x := w.FetchedMarker(o.clone, tip);
    e := Fenced(tip, x);
  }

  /** mintMarker, for a renewal or release. */
  method MintRenewal(w: World, o: Opts, kind: Kind, from: Id, x: Id, parent: Id, seen: Option<Id>)
    returns (m: Option<Id>)
    requires w.Valid() && Nearest(w.s.log, from, x) && (kind.Beat? || kind.Release?)
    requires w.s.Fetchable(parent) && Anc(w.s.log, from, parent)
    requires seen.Some? ==> Anc(w.s.log, seen.value, parent)
    modifies w`s, w`own
    ensures Acted(old(w.own), w.own, NOTHING.(mints := {Some(from)}))
    ensures w.Valid() && Passed(w.rely, old(w.s), w.s)
    ensures w.rely.alone ==> SameRefs(old(w.s), w.s)
    ensures m.Some? ==> m.value !in w.s.landed
    ensures m.None? ==> HeardIn(old(w.own), w.own, OfMint, Fault)
    ensures m.Some? ==>
      && |old(w.s).log| <= m.value < |w.s.log| && Renewal(w.s, m.value, kind, o, from)
      && w.s.log[m.value].parents == {parent} && (seen.Some? ==> Anc(w.s.log, seen.value, m.value))
  {
    hide Inv;
    hide Anc;
    hide Nearest;
    hide Acted;
    hide Passed;
    hide Grows;
    hide Renewal;
    ghost var start := w.s;
    NearestBelow(start.log, start.log, from, x);
    var body := Marker(kind, w.s.log[x].body.epoch, o.holder, Written(o.lane));
    assert MintFits(start.log, start.bases, parent, body, Some(from), x);
    hide MintFits;
    m := w.MintMarker(parent, body, Some(from), x);
    PassedGrows(w.rely, start, w.s);
    if m.None? {
      assert HeardAt(w.own, |w.own| - 1, OfMint, Fault);
    } else {
      MintedRenewal(start, w.s, m.value, kind, o, from, parent, x);
      if seen.Some? { OnTopOf(start, w.s, m.value, parent, seen.value); }
    }
  }

  /** The CAS of a minted renewal, read as a grant or a fence. */
  method PushRenewal(w: World, o: Opts, kind: Kind, from: Id, m: Id, seen: Option<Id>) returns (r: Outcome)
    requires w.Valid() && Renewal(w.s, m, kind, o, from)
    requires seen.Some? ==> Anc(w.s.log, seen.value, m)
    modifies w`s, w`own
    ensures Acted(old(w.own), w.own, Marking(o, Some(from), Some(m)))
    ensures MovesMet(old(w.own), w.own, OwnCopy(o), seen)
    ensures w.Valid() && Passed(Loose(w.rely, OwnCopy(o)), old(w.s), w.s) && Renewal(w.s, m, kind, o, from)
    ensures r.Won? ==> r.grant.tip == m && m in w.s.landed && w.s.log[m].body.epoch == r.grant.epoch
    ensures r.Failed? && r.error.Fenced? ==> r.error.tip != m && FencedAt(old(w.s), w.s, r.error)
    ensures r.Failed? ==> r.error.Fenced? || r.error.Unconfirmed? || r.error.PushFault?
    ensures PushToldApart(w.s, w.own, r)
    ensures Told(old(w.own), w.own, o, from, true, Some(m), r)
    ensures r.Failed? ==> Passed(w.rely, old(w.s), w.s)
    ensures w.rely.alone && m !in old(w.s).landed && r.Won? ==> MovedTo(old(w.s), w.s, OwnCopy(o), m)
    ensures w.rely.alone && r.Failed? && r.error.Fenced? ==> OnlyFetched(old(w.s), w.s)
  {
    hide Inv;
    hide Anc;
    hide Nearest;
    hide Acted;
    hide MovesMet;
    hide Passed;
    hide Grows;
    hide FencedAt;
    hide PushRead;
    hide PushReadAt;
    hide MarkerTold;
    hide Tried;
    hide Arbitrated;
    ghost var start, own := w.s, w.own;
    var res, read := CasPush(w, OwnCopy(o), m, seen);
    ghost var pushed, pushing := w.s, w.own;
    ActedLonger(own, pushing, Pushing(OwnCopy(o), m));
    ghost var all := Marking(o, Some(from), Some(m));
    ActedWider(own, pushing, Pushing(OwnCopy(o), m), all);
    PassedGrows(Loose(w.rely, OwnCopy(o)), start, pushed);
    RenewalStable(start, pushed, m, kind, o, from);
    match res {
      case WonCas => r := Won(Grant(m, w.s.log[m].body.epoch));
      case Lost(tip) =>
        var e := FenceError(w, o, tip);
        r := Failed(e);
        ActedThen(own, pushing, w.own, all, NOTHING.(fetches := {o.clone}), all);
        NoMoves(pushing, w.own, NOTHING.(fetches := {o.clone}), OwnCopy(o), seen);
        MovesMetTrans(own, pushing, w.own, OwnCopy(o), seen);
        PassedTrans(w.rely, start, pushed, w.s);
        PassedLoose(w.rely, OwnCopy(o), start, w.s);
        PassedGrows(w.rely, pushed, w.s);
        RenewalStable(pushed, w.s, m, kind, o, from);
        FencedThere(start, pushed, w.s, e);
        ActedLonger(pushing, w.own, NOTHING.(fetches := {o.clone}));
      case Unconfirmed =>
        LastRead(w.own, m, read.value);
        r := Failed(Error.Unconfirmed);
      case Faulted => r := Failed(PushFault);
    }
    PushDecides(own, pushing, w.own, m, o.clone, false, read, r, |pushing|);
  }

  /** The tip a fence names was the ref's during the call, and the marker it names may be listed first there. */
  ghost predicate FencedAt(a: State, b: State, e: Error)
    requires e.Fenced?
  {
    && SeenBetween(a, b, Some(e.tip)) && b.Fetchable(e.tip)
    && (e.marker.Some? ==> Nearest(b.log, e.tip, e.marker.value))
  }

  lemma FencedThere(a: State, b: State, c: State, e: Error)
    requires Inv(b) && Grows(a, b) && Grows(b, c) && e.Fenced? && b.Work() == Some(e.tip)
    requires e.marker.Some? ==> Nearest(c.log, e.tip, e.marker.value)
    ensures FencedAt(a, c, e)
  {
    hide Anc;
    hide Nearest;
    WorkFetchable(b);
    hide Inv;
    StillFetchable(b, c, e.tip);
    SeenStable(a, b, c);
  }

  /** A push that failed is a fault only with the ref confirmed absent, and unconfirmed only when the read
    that was to confirm it failed. */
  ghost predicate PushToldApart(s: State, own: seq<Deed>, r: Outcome) {
    && (r.Failed? && r.error.PushFault? ==> s.Work().None?)
    && (r.Failed? && r.error.Unconfirmed? ==> LastHeard(own, OfWork, Fault))
  }

  /** The first half of advance: read the epoch, pick the base, mint the marker. */
  method MintAdvance(w: World, o: Opts, kind: Kind, from: Id, relay: bool)
    returns (m: Option<Id>, seen: Option<Id>, err: Option<Error>)
    requires w.Valid() && w.s.Fetchable(from) && (kind.Beat? || kind.Release?)
    modifies w`s, w`own
    ensures w.Valid() && Passed(w.rely, old(w.s), w.s)
    ensures Acted(old(w.own), w.own, Marking(o, Some(from), m)) && MovesMet(old(w.own), w.own, OwnCopy(o), seen)
    ensures Relayed(old(w.s), w.s, o, seen, m)
    ensures m.Some? ==> HeardIn(old(w.own), w.own, OfCopy(OwnCopy(o)), Answer(seen))
    ensures m.None? <==> err.Some?
    ensures err.Some? ==> !err.value.Fenced? && !err.value.HeldBy? && !err.value.PushFault? && !err.value.Unconfirmed?
    ensures err.Some? ==> Refused(old(w.own), w.own, o, from, relay, err.value)
    ensures w.rely.alone && err.Some? ==> TrulyRefused(w.s, o, from, err.value)
    ensures m.Some? ==>
      && |old(w.s).log| <= m.value < |w.s.log| && m.value !in w.s.landed && Renewal(w.s, m.value, kind, o, from)
      && (!relay ==> w.s.log[m.value].parents == {from}) && (seen.Some? ==> Anc(w.s.log, seen.value, m.value))
    ensures w.rely.alone ==> SameRefs(old(w.s), w.s)
  {
    hide Inv;
    hide Anc;
    hide Nearest;
    hide Passed;
    hide Grows;
    hide Renewal;
    hide Acted;
    hide MovesMet;
    hide Relayed;
    hide HeardIn;
    hide LastHeard;
    hide FirstHeard;
    hide Within;
    hide Refused;
    hide TrulyRefused;
    ghost var start, own := w.s, w.own;
    PassedSelf(w.rely, start);
    NotRelayed(start, start, o);
    var x := w.LatestMarker(from);
    ghost var reading := w.own;
    OnlyRead(own, reading, o, Some(from), None);
    if x.None? {
      NoneHeard(own, reading, w.s, o, from, relay);
      return None, None, Some(NoMarker);
    }
    var parent, local, wrong;
    if relay { parent, local, wrong := RelayBase(w, o, from); } else { parent, local, wrong := HolderBase(w, o, from); }
    ghost var based, basing := w.s, w.own;
    ReadThen(own, reading, basing, NOTHING);
    ActedLonger(own, reading, NOTHING);
    FirstStill(reading, basing, basing, OfCopy(OwnCopy(o)), Answer(local));
    HeardStill(own, reading, basing, basing, OfCopy(OwnCopy(o)), Answer(local));
    PassedGrows(w.rely, start, based);
    if wrong.Some? {
      OnlyRead(own, basing, o, Some(from), None);
      NotRelayed(start, based, o);
      RefusedStill(own, reading, basing, basing, o, from, relay, wrong.value);
      if w.rely.alone { WrongTruly(based, o, from, wrong.value); }
      return None, None, wrong;
    }
    RelayedFrom(start, based, o, local);
    Self(based.log, from);
    NearestBelow(start.log, based.log, from, x.value);
    m := MintRenewal(w, o, kind, from, x.value, parent, local);
    seen, err := local, if m.None? then Some(GitFault) else None;
    if m.None? {
      HeardStill(own, basing, w.own, w.own, OfMint, Fault);
      MintRefused(own, w.own, w.s, o, from, relay);
    }
    PassedGrows(w.rely, based, w.s);
    PassedTrans(w.rely, start, based, w.s);
    RelayedLater(start, based, w.s, o, seen, m);
    ActedLonger(basing, w.own, NOTHING.(mints := {Some(from)}));
    HeardStill(own, own, basing, w.own, OfCopy(OwnCopy(o)), Answer(local));
    ReadThen(own, basing, w.own, NOTHING.(mints := {Some(from)}));
    MintedOnly(own, w.own, o, Some(from), m, seen);
  }

  lemma NoneHeard(a: seq<Deed>, b: seq<Deed>, s: State, o: Opts, from: Id, relay: bool)
    requires |a| < |b| && LastHeard(b, OfMarker(from), Answer(None))
    ensures Refused(a, b, o, from, relay, NoMarker)
    ensures (forall y: Id :: !Nearest(s.log, from, y)) ==> TrulyRefused(s, o, from, NoMarker)
  {
    HeardLast(a, b, OfMarker(from), Answer(None));
  }

  lemma MintRefused(a: seq<Deed>, b: seq<Deed>, s: State, o: Opts, from: Id, relay: bool)
    requires HeardIn(a, b, OfMint, Fault)
    ensures Refused(a, b, o, from, relay, GitFault) && TrulyRefused(s, o, from, GitFault)
  {
    hide HeardIn;
  }

  lemma WrongTruly(s: State, o: Opts, from: Id, e: Error)
    requires e.LeaseDiverges? || e.LocalWork?
    requires s.Local(OwnCopy(o)) == Some(e.local) && !Anc(s.log, e.local, from)
    requires e.LeaseDiverges? ==> !Anc(s.log, from, e.local)
    ensures TrulyRefused(s, o, from, e)
  {
    hide Anc;
  }

  /** advance: mint a marker on the base picked and CAS the ref from exactly
    `from`. A marker once minted may land late, whatever is answered; it can only
    ever replace `from`. */
  method Advance(w: World, o: Opts, kind: Kind, from: Id, relay: bool)
    returns (r: Outcome, ghost minted: Option<Id>, ghost seen: Option<Id>)
    requires w.Valid() && w.s.Fetchable(from) && (kind.Beat? || kind.Release?)
    modifies w`s, w`own
    ensures w.Valid() && Passed(Loose(w.rely, OwnCopy(o)), old(w.s), w.s)
    // all it does itself is mint over `from`, land that marker and move its own copy to it
    ensures Acted(old(w.own), w.own, Marking(o, Some(from), minted))
    ensures MovesMet(old(w.own), w.own, OwnCopy(o), seen)
    // the marker descends from the local tip read, which the copy held during the call
    ensures Relayed(old(w.s), w.s, o, seen, minted)
    ensures minted.Some? ==> HeardIn(old(w.own), w.own, OfCopy(OwnCopy(o)), Answer(seen))
    // whatever was minted renews `from` and is new
    ensures minted.Some? ==> |old(w.s).log| <= minted.value && Renewal(w.s, minted.value, kind, o, from)
    ensures minted.Some? && !relay ==> w.s.log[minted.value].parents == {from}
    // a grant is the minted marker, landed during the call over `from`
    ensures r.Won? ==> minted == Some(r.grant.tip) && GrantedOver(old(w.s), w.s, r.grant, from)
    // a fence names a tip the ref held during the call, never our own marker
    ensures r.Failed? && r.error.Fenced? ==>
      minted.Some? && r.error.tip != minted.value && FencedAt(old(w.s), w.s, r.error)
    ensures PushToldApart(w.s, w.own, r)
    // what it was told decides: whether it mints at all, and how the push of what it minted ends
    ensures Told(old(w.own), w.own, o, from, relay, minted, r)
    ensures w.rely.alone && minted.None? ==> TrulyRefused(w.s, o, from, r.error)
    // with nobody else at work a win is one move of the ref, and a fence none
    ensures w.rely.alone && r.Won? ==> MovedTo(old(w.s), w.s, OwnCopy(o), r.grant.tip)
    ensures w.rely.alone && r.Failed? && r.error.Fenced? ==> SameRefs(old(w.s), w.s)
    // and a failure leaves the local copy as it stands
    ensures r.Failed? ==> Passed(w.rely, old(w.s), w.s)
  {
    hide Inv;
    hide Anc;
    hide Nearest;
    hide Passed;
    hide Grows;
    hide Renewal;
    hide Acted;
    hide MovesMet;
    hide Relayed;
    ghost var start, own := w.s, w.own;
    hide HeardIn;
    hide FencedAt;
    hide Told;
    hide Refused;
    hide TrulyRefused;
    hide GrantedOver;
    hide PushToldApart;
    hide MovedTo;
    hide SameRefs;
    hide OnlyFetched;
    var m, local, err := MintAdvance(w, o, kind, from, relay);
    minted, seen := m, local;
    PassedLoose(w.rely, OwnCopy(o), start, w.s);
    if m.None? {
      RefusedTold(own, w.own, w.s, o, from, relay, err.value);
      return Failed(err.value), None, seen;
    }
    ghost var mint, minting := w.s, w.own;
    PassedGrows(w.rely, start, mint);
    r := PushRenewal(w, o, kind, from, m.value, local);
    MintedAndPushed(w.rely, start, mint, w.s, o, kind, from, m.value, seen, r);
    PushedToo(own, minting, w.own, o, from, relay, m.value, seen, r);
    if w.rely.alone {
      if r.Won? {
        MovedAmong(start, mint, w.s, w.s, OwnCopy(o), m.value) by { SameSelfRefs(w.s); }
      } else if r.error.Fenced? {
        FetchedSame(start, mint, w.s);
      }
    }
  }

  lemma SameSelfRefs(s: State)
    ensures SameRefs(s, s)
  {
  }

  lemma RefusedTold(a: seq<Deed>, b: seq<Deed>, s: State, o: Opts, from: Id, relay: bool, e: Error)
    requires Refused(a, b, o, from, relay, e)
    ensures Told(a, b, o, from, relay, None, Failed(e)) && PushToldApart(s, b, Failed(e))
  {
    hide HeardIn;
  }

  /** A minted marker and how its push ended, seen from before the mint. */
  lemma MintedAndPushed(rely: Rely, a: State, b: State, c: State, o: Opts, kind: Kind, from: Id, m: Id,
                        seen: Option<Id>, r: Outcome)
    requires Inv(a) && Inv(c) && Passed(rely, a, b) && Passed(Loose(rely, OwnCopy(o)), b, c)
    requires |a.log| <= m < |b.log| && Renewal(c, m, kind, o, from) && Relayed(a, b, o, seen, Some(m))
    requires r.Won? ==> r.grant.tip == m && m in c.landed && c.log[m].body.epoch == r.grant.epoch
    requires r.Failed? && r.error.Fenced? ==> FencedAt(b, c, r.error)
    requires r.Failed? ==> Passed(rely, b, c)
    ensures Passed(Loose(rely, OwnCopy(o)), a, c) && (r.Failed? ==> Passed(rely, a, c))
    ensures b.log[m] == c.log[m] && Relayed(a, c, o, seen, Some(m))
    ensures r.Won? ==> GrantedOver(a, c, r.grant, from)
    ensures r.Failed? && r.error.Fenced? ==> FencedAt(a, c, r.error)
  {
    hide Inv;
    hide Anc;
    hide Nearest;
    PassedGrows(rely, a, b);
    PassedGrows(Loose(rely, OwnCopy(o)), b, c);
    PassedLoose(rely, OwnCopy(o), a, b);
    PassedTrans(Loose(rely, OwnCopy(o)), a, b, c);
    hide Passed;
    GrowsTrans(a, b, c);
    hide Grows;
    RelayedLater(a, b, c, o, seen, Some(m));
    hide Relayed;
    if r.Won? {
      RenewalLanded(a, c, m, kind, o, from);
    } else {
      PassedTrans(rely, a, b, c);
      if r.error.Fenced? { FencedEarlier(a, b, c, r.error); }
    }
  }

  lemma FetchedSame(a: State, b: State, c: State)
    requires SameRefs(a, b) && OnlyFetched(b, c)
    ensures SameRefs(a, c)
  {
  }

  lemma FencedLater(a: State, b: State, c: State, e: Error)
    requires e.Fenced? && FencedAt(a, b, e) && Grows(b, c)
    ensures FencedAt(a, c, e)
  {
    hide Anc;
    StillFetchable(b, c, e.tip);
    SeenLater(a, b, c, Some(e.tip));
    if e.marker.Some? { NearestBelow(b.log, c.log, e.tip, e.marker.value); }
  }

  lemma FencedEarlier(a: State, b: State, c: State, e: Error)
    requires e.Fenced? && FencedAt(b, c, e) && Grows(a, b)
    ensures FencedAt(a, c, e)
  {
    hide Anc;
    hide Nearest;
  }

  /** The local tip read was the copy's during the call, and the marker minted descends from it. */
  ghost predicate Relayed(a: State, b: State, o: Opts, seen: Option<Id>, m: Option<Id>) {
    seen.Some? ==> CopySeen(a, b, OwnCopy(o), seen.value) && (m.Some? ==> Anc(b.log, seen.value, m.value))
  }

  lemma NotRelayed(a: State, b: State, o: Opts)
    ensures Relayed(a, b, o, None, None)
  {
  }

  lemma RelayedFrom(a: State, b: State, o: Opts, seen: Option<Id>)
    requires Grows(a, b) && (seen.Some? ==> b.Local(OwnCopy(o)) == seen)
    ensures Relayed(a, b, o, seen, None)
  {
    if seen.Some? { CopySeenNow(a, b, b, OwnCopy(o), seen.value); }
  }

  lemma RelayedLater(a: State, b: State, c: State, o: Opts, seen: Option<Id>, m: Option<Id>)
    requires Grows(b, c) && (Relayed(a, b, o, seen, None) || Relayed(a, b, o, seen, m))
    requires m.Some? && seen.Some? ==>
      Anc(c.log, seen.value, m.value) || (Relayed(a, b, o, seen, m) && m.value < |b.log|)
    ensures Relayed(a, c, o, seen, m)
  {
    if seen.Some? {
      CopySeenLater(a, b, c, OwnCopy(o), seen.value);
      if m.Some? && m.value < |b.log| { AncStable(b.log, c.log, seen.value, m.value); }
    }
  }

  /** A call that only read did nothing it was not allowed. */
  lemma OnlyRead(a: seq<Deed>, b: seq<Deed>, o: Opts, over: Option<Id>, m: Option<Id>)
    requires Acted(a, b, NOTHING)
    ensures Acted(a, b, Marking(o, over, m)) && forall seen :: MovesMet(a, b, OwnCopy(o), seen)
  {
    hide MovesMet;
    ActedWider(a, b, NOTHING, Marking(o, over, m));
    forall seen ensures MovesMet(a, b, OwnCopy(o), seen) { NoMoves(a, b, NOTHING, OwnCopy(o), seen); }
  }

  lemma MintedOnly(a: seq<Deed>, b: seq<Deed>, o: Opts, over: Option<Id>, m: Option<Id>, seen: Option<Id>)
    requires Acted(a, b, NOTHING.(mints := {over}))
    ensures Acted(a, b, Marking(o, over, m)) && MovesMet(a, b, OwnCopy(o), seen)
  {
    hide Acted;
    hide MovesMet;
    ActedWider(a, b, NOTHING.(mints := {over}), Marking(o, over, m));
    NoMoves(a, b, NOTHING.(mints := {over}), OwnCopy(o), seen);
  }

  /** The mint, and then the push, which goes the same way whatever the marker was minted on. */
  lemma PushedToo(a: seq<Deed>, b: seq<Deed>, c: seq<Deed>, o: Opts, from: Id, relay: bool, m: Id, seen: Option<Id>,
                  r: Outcome)
    requires Acted(a, b, Marking(o, Some(from), Some(m))) && Acted(b, c, Marking(o, Some(from), Some(m)))
    requires MovesMet(a, b, OwnCopy(o), seen) && MovesMet(b, c, OwnCopy(o), seen)
    requires HeardIn(a, b, OfCopy(OwnCopy(o)), Answer(seen)) && Told(b, c, o, from, true, Some(m), r)
    ensures Acted(a, c, Marking(o, Some(from), Some(m))) && MovesMet(a, c, OwnCopy(o), seen)
    ensures HeardIn(a, c, OfCopy(OwnCopy(o)), Answer(seen)) && Told(a, c, o, from, relay, Some(m), r)
  {
    var f := Marking(o, Some(from), Some(m));
    ActedThen(a, b, c, f, f, f);
    ActedLonger(a, b, f);
    ActedLonger(b, c, f);
    hide Acted;
    MovesMetTrans(a, b, c, OwnCopy(o), seen);
    HeardStill(a, a, b, c, OfCopy(OwnCopy(o)), Answer(seen));
    ToldStill(a, b, c, c, o, from, true, Some(m), r);
  }

  lemma SavedToo(a: seq<Deed>, b: seq<Deed>, c: seq<Deed>, o: Opts, over: Option<Id>, m: Id)
    requires Acted(a, b, Marking(o, over, Some(m)))
    requires Acted(b, c, NOTHING.(saves := {(Lane(o.clone, o.lane), m)}))
    ensures Acted(a, c, Marking(o, over, Some(m)))
  {
    ActedThen(a, b, c, Marking(o, over, Some(m)), NOTHING.(saves := {(Lane(o.clone, o.lane), m)}),
              Marking(o, over, Some(m)));
  }

  /** The grant's marker landed between the two states, over exactly `from`. */
  ghost predicate GrantedOver(a: State, b: State, g: Grant, from: Id) {
    && IsMarker(b.log, g.tip) && b.log[g.tip].body.epoch == g.epoch
    && g.tip in b.landed && |a.history| <= b.landed[g.tip] && 1 <= b.landed[g.tip] < |b.history|
    && b.history[b.landed[g.tip]] == Some(g.tip) && b.history[b.landed[g.tip] - 1] == Some(from)
  }

  lemma MintedRenewal(a: State, b: State, m: Id, kind: Kind, o: Opts, from: Id, parent: Id, x: Id)
    requires Grows(a, b) && m == |a.log| && Anc(a.log, from, parent) && Nearest(a.log, from, x)
    requires b.log == a.log + [Commit({parent}, Marker(kind, a.log[x].body.epoch, o.holder, Written(o.lane)))]
    requires m in b.expects && b.expects[m] == Some(from)
    ensures Renewal(b, m, kind, o, from)
  {
    NearestBelow(a.log, b.log, from, x);
    OnTopOf(a, b, m, parent, from);
  }

  /** A fresh child descends from whatever its parent does. */
  lemma OnTopOf(a: State, b: State, m: Id, parent: Id, x: Id)
    requires a.log <= b.log && m == |a.log| < |b.log| && b.log[m].parents == {parent} && Anc(a.log, x, parent)
    ensures Anc(b.log, x, m)
  {
    AncStable(a.log, b.log, x, parent);
    AncParent(b.log, parent, m);
    AncTrans(b.log, x, parent, m);
  }

  lemma RenewalLanded(start: State, s: State, m: Id, kind: Kind, o: Opts, from: Id)
    requires Inv(start) && Inv(s) && Grows(start, s) && |start.log| <= m
    requires Renewal(s, m, kind, o, from) && m in s.landed
    ensures GrantedOver(start, s, Grant(m, s.log[m].body.epoch), from)
  {
    LandedOver(start, s, m);
  }

  /** A marker minted since `start` landed since then, over what it expected. */
  lemma LandedOver(start: State, s: State, m: Id)
    requires Inv(start) && Inv(s) && Grows(start, s) && m in s.expects && m in s.landed && |start.log| <= m
    ensures |start.history| <= s.landed[m] && 1 <= s.landed[m] < |s.history|
    ensures s.history[s.landed[m] - 1] == s.expects[m] && s.history[s.landed[m]] == Some(m)
  {
    hide Anc;
    hide Grounded;
    hide RefsOk;
    hide Minting;
    var j := s.landed[m];
    assert Moved(s, j);
    if j < |start.history| { LandedWithin(start, s, m); }
  }

  // ---- the transitions ----

  /** The epilogue of a won renewal: the lane's token follows its lease. */
  method Persist(w: World, o: Opts, g: Grant, ghost start: State, ghost from: Id)
    requires w.Valid() && GrantedOver(start, w.s, g, from) && !IsRelease(w.s.log, g.tip)
    modifies w`s, w`own
    ensures w.Valid() && Passed(w.rely, old(w.s), w.s) && GrantedOver(start, w.s, g, from)
    ensures Acted(old(w.own), w.own, NOTHING.(saves := {(Lane(o.clone, o.lane), g.tip)}))
    ensures SaveTried(old(w.own), w.own, Lane(o.clone, o.lane), g.tip)
    ensures w.rely.alone ==> SameRefs(old(w.s), w.s)
  {
    hide Inv;
    hide Passed;
    hide Grows;
    ghost var before := w.s;
    var saved := w.WriteToken(Lane(o.clone, o.lane), g.tip);
    PassedGrows(w.rely, before, w.s);
    GrantStable(start, before, w.s, g, from);
  }

  lemma GrantStable(a: State, b: State, c: State, g: Grant, from: Id)
    requires GrantedOver(a, b, g, from) && Grows(b, c)
    ensures GrantedOver(a, c, g, from)
  {
    assert c.log[g.tip] == b.log[g.tip];
    assert c.history[b.landed[g.tip]] == b.history[b.landed[g.tip]];
    assert c.history[b.landed[g.tip] - 1] == b.history[b.landed[g.tip] - 1];
  }

  /** The shared contract of a beat: whatever happens, the one marker it may leave
    behind renews `from`, and a grant is that marker landed over `from`. */
  ghost predicate BeatDone(a: State, b: State, o: Opts, from: Id, r: Outcome, minted: Option<Id>, seen: Option<Id>) {
    && (minted.Some? ==> |a.log| <= minted.value && Renewal(b, minted.value, Beat, o, from))
    && Relayed(a, b, o, seen, minted)
    && (r.Won? ==> minted == Some(r.grant.tip) && GrantedOver(a, b, r.grant, from))
    && (r.Failed? && r.error.Fenced? ==>
          minted.Some? && r.error.tip != minted.value && SeenBetween(a, b, Some(r.error.tip)))
  }

  /** A beat through Advance, with the token saved on a win. */
  method BeatFrom(w: World, o: Opts, from: Id, relay: bool)
    returns (r: Outcome, ghost minted: Option<Id>, ghost seen: Option<Id>)
    requires w.Valid() && w.s.Fetchable(from)
    modifies w`s, w`own
    ensures w.Valid() && Passed(Loose(w.rely, OwnCopy(o)), old(w.s), w.s)
    ensures Acted(old(w.own), w.own, Marking(o, Some(from), minted))
    ensures MovesMet(old(w.own), w.own, OwnCopy(o), seen)
    ensures BeatDone(old(w.s), w.s, o, from, r, minted, seen) && PushToldApart(w.s, w.own, r)
    ensures Told(old(w.own), w.own, o, from, relay, minted, r)
    ensures r.Won? ==> SaveTried(old(w.own), w.own, Lane(o.clone, o.lane), r.grant.tip)
    ensures w.rely.alone && minted.None? ==> TrulyRefused(w.s, o, from, r.error)
    ensures minted.Some? ==> HeardIn(old(w.own), w.own, OfCopy(OwnCopy(o)), Answer(seen))
    ensures minted.Some? && !relay ==> w.s.log[minted.value].parents == {from}
    ensures w.rely.alone && r.Won? ==> MovedTo(old(w.s), w.s, OwnCopy(o), r.grant.tip)
    ensures r.Failed? ==> Passed(w.rely, old(w.s), w.s)
  {
    hide Inv;
    hide Passed;
    hide Grows;
    hide Acted;
    hide MovesMet;
    hide Relayed;
    hide HeardIn;
    hide Told;
    hide SaveTried;
    hide TrulyRefused;
    ghost var start, own := w.s, w.own;
    r, minted, seen := Advance(w, o, Beat, from, relay);
    if r.Won? {
      ghost var won, doing := w.s, w.own;
      ActedLonger(own, doing, Marking(o, Some(from), minted));
      hide Anc;
      hide Nearest;
      Persist(w, o, r.grant, start, from);
      PassedGrows(w.rely, won, w.s);
      PassedLoose(w.rely, OwnCopy(o), won, w.s);
      PassedTrans(Loose(w.rely, OwnCopy(o)), start, won, w.s);
      RenewalStable(won, w.s, minted.value, Beat, o, from);
      assert w.s.log[minted.value] == won.log[minted.value];
      SavedToo(own, doing, w.own, o, Some(from), minted.value);
      NoMoves(doing, w.own, NOTHING.(saves := {(Lane(o.clone, o.lane), minted.value)}), OwnCopy(o), seen);
      MovesMetTrans(own, doing, w.own, OwnCopy(o), seen);
      ActedLonger(doing, w.own, NOTHING.(saves := {(Lane(o.clone, o.lane), minted.value)}));
      HeardStill(own, own, doing, w.own, OfCopy(OwnCopy(o)), Answer(seen));
      RelayedLater(start, won, w.s, o, seen, minted);
      ToldStill(own, own, doing, w.own, o, from, relay, minted, r);
      SaveStill(own, doing, w.own, Lane(o.clone, o.lane), r.grant.tip);
    }
  }

  lemma SaveStill(a: seq<Deed>, b: seq<Deed>, c: seq<Deed>, lane: Lane, m: Id)
    requires |a| <= |b| && SaveTried(b, c, lane, m)
    ensures SaveTried(a, c, lane, m)
  {
  }

  /** Renew, and Resume, which is a renewal named for what the caller does. */
  method Renew(w: World, o: Opts, from: Id)
    returns (r: Outcome, ghost minted: Option<Id>, ghost seen: Option<Id>)
    requires w.Valid() && w.s.Fetchable(from)
    modifies w`s, w`own
    ensures w.Valid() && Passed(Loose(w.rely, OwnCopy(o)), old(w.s), w.s)
    ensures Acted(old(w.own), w.own, Marking(o, Some(from), minted))
    ensures MovesMet(old(w.own), w.own, OwnCopy(o), seen)
    ensures BeatDone(old(w.s), w.s, o, from, r, minted, seen) && PushToldApart(w.s, w.own, r)
    // what it was told decides the outcome, and a win had the copy and the lane's token follow
    ensures Told(old(w.own), w.own, o, from, true, minted, r)
    ensures r.Won? ==> SaveTried(old(w.own), w.own, Lane(o.clone, o.lane), r.grant.tip)
    ensures w.rely.alone && minted.None? ==> TrulyRefused(w.s, o, from, r.error)
    ensures minted.Some? ==> HeardIn(old(w.own), w.own, OfCopy(OwnCopy(o)), Answer(seen))
    ensures w.rely.alone && r.Won? ==> MovedTo(old(w.s), w.s, OwnCopy(o), r.grant.tip)
    ensures r.Failed? ==> Passed(w.rely, old(w.s), w.s)
  {
    r, minted, seen := BeatFrom(w, o, from, true);
  }

  /** BeatFor: a beat on another holder's behalf pushes nothing but its marker. */
  method BeatFor(w: World, o: Opts, from: Id)
    returns (r: Outcome, ghost minted: Option<Id>, ghost seen: Option<Id>)
    requires w.Valid() && w.s.Fetchable(from)
    modifies w`s, w`own
    ensures w.Valid() && Passed(Loose(w.rely, OwnCopy(o)), old(w.s), w.s)
    ensures Acted(old(w.own), w.own, Marking(o, Some(from), minted))
    ensures MovesMet(old(w.own), w.own, OwnCopy(o), seen)
    ensures BeatDone(old(w.s), w.s, o, from, r, minted, seen) && PushToldApart(w.s, w.own, r)
    ensures Told(old(w.own), w.own, o, from, false, minted, r)
    ensures r.Won? ==> SaveTried(old(w.own), w.own, Lane(o.clone, o.lane), r.grant.tip)
    ensures w.rely.alone && minted.None? ==> TrulyRefused(w.s, o, from, r.error)
    ensures minted.Some? ==> HeardIn(old(w.own), w.own, OfCopy(OwnCopy(o)), Answer(seen))
    ensures minted.Some? ==> forall c: Id | Anc(w.s.log, c, minted.value) :: c == minted.value || Anc(w.s.log, c, from)
    ensures w.rely.alone && r.Won? ==> MovedTo(old(w.s), w.s, OwnCopy(o), r.grant.tip)
    ensures r.Failed? ==> Passed(w.rely, old(w.s), w.s)
  {
    r, minted, seen := BeatFrom(w, o, from, false);
    if minted.Some? { OnlyChild(w.s.log, minted.value, from); }
  }

  lemma OnlyChild(log: Log, m: Id, from: Id)
    requires m < |log| && log[m].parents == {from}
    ensures forall c: Id | Anc(log, c, m) :: c == m || Anc(log, c, from)
  {
  }

  /** Release: a release marker over exactly `from`; it deletes nothing. */
  method Release(w: World, o: Opts, from: Id)
    returns (r: Outcome, ghost minted: Option<Id>, ghost seen: Option<Id>)
    requires w.Valid() && w.s.Fetchable(from)
    modifies w`s, w`own
    ensures w.Valid() && Passed(Loose(w.rely, OwnCopy(o)), old(w.s), w.s)
    ensures Acted(old(w.own), w.own, Marking(o, Some(from), minted))
    ensures MovesMet(old(w.own), w.own, OwnCopy(o), seen)
    ensures minted.Some? ==> |old(w.s).log| <= minted.value && Renewal(w.s, minted.value, Kind.Release, o, from)
    ensures Relayed(old(w.s), w.s, o, seen, minted)
    ensures minted.Some? ==> HeardIn(old(w.own), w.own, OfCopy(OwnCopy(o)), Answer(seen))
    ensures r.Won? ==> minted == Some(r.grant.tip) && GrantedOver(old(w.s), w.s, r.grant, from)
    ensures PushToldApart(w.s, w.own, r)
    ensures Told(old(w.own), w.own, o, from, true, minted, r)
    ensures w.rely.alone && minted.None? ==> TrulyRefused(w.s, o, from, r.error)
    ensures w.rely.alone && r.Won? ==> MovedTo(old(w.s), w.s, OwnCopy(o), r.grant.tip)
    ensures r.Failed? ==> Passed(w.rely, old(w.s), w.s)
  {
    r, minted, seen := Advance(w, o, Kind.Release, from, true);
  }

  /** ownHold's reading of one marker: it names this lane, of this holder, which is not empty. */
  predicate Names(log: Log, x: Id, o: Opts) {
    IsMarker(log, x) && o.holder != "" && log[x].body.holder == o.holder && log[x].body.lane == o.lane
  }

  /** Some marker git may list first at the tip is this lane's own. */
  ghost predicate OwnTip(log: Log, tip: Id, o: Opts) {
    exists x: Id :: Nearest(log, tip, x) && Names(log, x, o)
  }

  /** A marker a lane mints for itself names it, and so can be read as its own hold, exactly when its lane is bound
    and its host has a name. */
  lemma OwnMarkerIsNamed(s: State, m: Id, kind: Kind, o: Opts, from: Id)
    requires Renewal(s, m, kind, o, from)
    ensures Names(s.log, m, o) <==> o.holder != "" && o.lane != ""
    ensures o.lane == "" ==> s.log[m].body.lane == "-"
  {
  }

  /** ownHold: the marker read at the tip that fenced us is this lane's own. */
  method OwnHold(w: World, o: Opts, marker: Option<Id>, tip: Id) returns (yes: bool)
    requires marker.Some? ==> Nearest(w.s.log, tip, marker.value)
    ensures yes <==> marker.Some? && Names(w.s.log, marker.value, o)
    ensures yes ==> OwnTip(w.s.log, tip, o)
  {
    yes := false;
    if marker.Some? {
      var body := w.s.log[marker.value].body;
      yes := body.holder != "" && body.holder == o.holder && body.lane == o.lane;
    }
  }

  lemma OwnTipStable(log: Log, more: Log, tip: Id, o: Opts)
    requires OwnTip(log, tip, o) && log <= more
    ensures OwnTip(more, tip, o)
  {
    hide Anc;
    var x: Id :| Nearest(log, tip, x) && Names(log, x, o);
    NearestBelow(log, more, tip, x);
    assert more[x] == log[x];
  }

  /** All a bind does itself: two such transitions at most. */
  function Binding(o: Opts, from: Id, first: Option<Id>, tip: Id, again: Option<Id>): Footprint {
    var f, g := Marking(o, Some(from), first), Marking(o, Some(tip), again);
    NOTHING.(mints := f.mints + g.mints, lands := f.lands + g.lands, moves := f.moves + g.moves,
             saves := f.saves + g.saves, fetches := {o.clone})
  }

  lemma BoundFirst(a: seq<Deed>, b: seq<Deed>, o: Opts, from: Id, first: Option<Id>)
    requires Acted(a, b, Marking(o, Some(from), first))
    ensures Acted(a, b, Binding(o, from, first, from, None))
  {
    ActedWider(a, b, Marking(o, Some(from), first), Binding(o, from, first, from, None));
  }

  lemma BoundAgain(a: seq<Deed>, b: seq<Deed>, c: seq<Deed>, o: Opts, from: Id, first: Option<Id>, tip: Id,
                   again: Option<Id>)
    requires Acted(a, b, Marking(o, Some(from), first)) && Acted(b, c, Marking(o, Some(tip), again))
    ensures Acted(a, c, Binding(o, from, first, tip, again))
  {
    ActedThen(a, b, c, Marking(o, Some(from), first), Marking(o, Some(tip), again),
              Binding(o, from, first, tip, again));
  }

  lemma BoundSaved(a: seq<Deed>, b: seq<Deed>, c: seq<Deed>, o: Opts, from: Id, first: Option<Id>, tip: Id,
                   again: Option<Id>, m: Id)
    requires Acted(a, b, Binding(o, from, first, tip, again)) && (first == Some(m) || again == Some(m))
    requires Acted(b, c, NOTHING.(saves := {(Lane(o.clone, o.lane), m)}))
    ensures Acted(a, c, Binding(o, from, first, tip, again))
  {
    ActedThen(a, b, c, Binding(o, from, first, tip, again), NOTHING.(saves := {(Lane(o.clone, o.lane), m)}),
              Binding(o, from, first, tip, again));
  }

  /** Whenever the call moved the copy, it met it as one of its two reads told. */
  ghost predicate MovesMetEither(a: seq<Deed>, b: seq<Deed>, k: Copy, one: Option<Id>, two: Option<Id>) {
    a <= b && forall i | |a| <= i < |b| && b[i].Deed? && b[i].what.MoveLocal? ::
      b[i].at.Local(k) == one || b[i].at.Local(k) == two
  }

  lemma MetEither(a: seq<Deed>, b: seq<Deed>, c: seq<Deed>, k: Copy, one: Option<Id>, two: Option<Id>)
    requires (MovesMet(a, b, k, one) || MovesMetEither(a, b, k, one, two)) && MovesMet(b, c, k, two)
    ensures MovesMetEither(a, c, k, one, two)
  {
    forall i | |a| <= i < |c| && c[i].Deed? && c[i].what.MoveLocal?
      ensures c[i].at.Local(k) == one || c[i].at.Local(k) == two
    {
      if i < |b| { assert c[i] == b[i]; }
    }
  }

  /** RenewToBind: a renewal that, fenced by this lane's own hold, renews once more
    from where the ref is. Nothing it mints can replace anything but `from` or a
    tip whose marker names this very holder and lane; and either marker descends
    from the local tip read before it. */
  method RenewToBind(w: World, o: Opts, from: Id)
    returns (r: Outcome, ghost first: Option<Id>, ghost again: Option<Id>, ghost tip: Id, ghost read: Option<Id>,
             ghost reread: Option<Id>, ghost once: Outcome)
    requires w.Valid() && w.s.Fetchable(from)
    modifies w`s, w`own
    ensures w.Valid() && Passed(Loose(w.rely, OwnCopy(o)), old(w.s), w.s)
    ensures Acted(old(w.own), w.own, Binding(o, from, first, tip, again))
    ensures MovesMetEither(old(w.own), w.own, OwnCopy(o), read, reread)
    ensures Relayed(old(w.s), w.s, o, read, first) && Relayed(old(w.s), w.s, o, reread, again)
    ensures first.Some? ==> HeardIn(old(w.own), w.own, OfCopy(OwnCopy(o)), Answer(read))
    ensures again.Some? ==> HeardIn(old(w.own), w.own, OfCopy(OwnCopy(o)), Answer(reread))
    ensures first.Some? ==> |old(w.s).log| <= first.value && Renewal(w.s, first.value, Beat, o, from)
    ensures again.Some? ==>
      |old(w.s).log| <= again.value && OwnTip(w.s.log, tip, o) && Renewal(w.s, again.value, Beat, o, tip)
    ensures r.Won? ==>
      || (first == Some(r.grant.tip) && GrantedOver(old(w.s), w.s, r.grant, from))
      || (again == Some(r.grant.tip) && GrantedOver(old(w.s), w.s, r.grant, tip))
    ensures w.rely.alone && r.Won? ==> MovedTo(old(w.s), w.s, OwnCopy(o), r.grant.tip)
    ensures r.Failed? ==> Passed(w.rely, old(w.s), w.s)
    ensures PushToldApart(w.s, w.own, r)
    // a fence by its own hold is not the end: it renews once more, and ends as told then
    ensures BindTold(old(w.own), w.own, w.s, o, from, first, once, tip, again, r)
    ensures r.Failed? && r.error.Fenced? && again.None? ==>
      r.error.marker.None? || !Names(w.s.log, r.error.marker.value, o)
    ensures w.rely.alone && r.Failed? && first.None? ==> TrulyRefused(w.s, o, from, r.error)
    ensures w.rely.alone && r.Failed? && first.Some? && again.None? && r != once ==>
      TrulyRefused(w.s, o, tip, r.error)
    ensures once.Failed? && once.error.Fenced? ==> FencedAt(old(w.s), w.s, once.error)
    ensures r.Won? ==> SaveTried(old(w.own), w.own, Lane(o.clone, o.lane), r.grant.tip)
  {
    hide Inv;
    hide Passed;
    hide Grows;
    hide Anc;
    hide Nearest;
    hide Renewal;
    hide MovedTo;
    hide LastHeard;
    hide Acted;
    hide MovesMet;
    hide MovesMetEither;
    hide HeardIn;
    hide OwnTip;
    hide Names;
    hide Relayed;
    hide Binding;
    hide Marking;
    hide BindTold;
    hide TrulyRefused;
    hide SaveTried;
    hide FencedAt;
    hide GrantedOver;
    hide SameRefs;
    ghost var start, own := w.s, w.own;
    r, first, again, tip, read, reread, once := BindTwice(w, o, from);
    if r.Won? {
      ghost var won, did := w.s, w.own;
      ActedLonger(own, did, Binding(o, from, first, tip, again));
      if once.Failed? && once.error.Fenced? { FencedMeans(start, won, once.error); }
      ghost var over := if again.Some? then tip else from;
      BeatIsNoRelease(w.s, r.grant.tip, o, over);
      Persist(w, o, r.grant, start, over);
      if w.rely.alone { MovedAmong(start, start, won, w.s, OwnCopy(o), r.grant.tip); }
      PassedGrows(w.rely, won, w.s);
      PassedLoose(w.rely, OwnCopy(o), won, w.s);
      PassedTrans(Loose(w.rely, OwnCopy(o)), start, won, w.s);
      BoundSaved(own, did, w.own, o, from, first, tip, again, r.grant.tip);
      SavedTold(own, did, w.own, o, r.grant.tip, read, reread);
      MarkersLast(start, won, w.s, o, from, first, read);
      if again.Some? { OwnTipStable(won.log, w.s.log, tip, o); }
      MarkersLast(start, won, w.s, o, tip, again, reread);
      ActedLonger(did, w.own, NOTHING.(saves := {(Lane(o.clone, o.lane), r.grant.tip)}));
      if once.Failed? && once.error.Fenced? { FencedLater(start, won, w.s, once.error); }
      BoundStill(own, did, w.own, won, w.s, o, from, first, once, tip, again, r);
      SaveStill(own, did, w.own, Lane(o.clone, o.lane), r.grant.tip);
    }
  }

  /** The fence came from this lane's own hold. */
  predicate ByOwnHold(log: Log, once: Outcome, o: Opts) {
    once.Failed? && once.error.Fenced? && once.error.marker.Some? && Names(log, once.error.marker.value, o)
  }

  /** A bind does its job: its first renewal ended `once`, as told; after a fence by its own hold it renewed again,
    from the tip that fenced it, and ended as that was told; and short of that it ended there. */
  ghost predicate BindTold(a: seq<Deed>, b: seq<Deed>, s: State, o: Opts, from: Id, first: Option<Id>, once: Outcome,
                           tip: Id, again: Option<Id>, r: Outcome)
  {
    exists mid: seq<Deed> :: a <= mid <= b && Told(a, mid, o, from, true, first, once) &&
      if ByOwnHold(s.log, once, o) then tip == once.error.tip && Told(mid, b, o, tip, true, again, r)
      else r == once && again.None?
  }

  lemma BoundStill(a: seq<Deed>, b: seq<Deed>, c: seq<Deed>, s: State, s': State, o: Opts, from: Id, first: Option<Id>,
                   once: Outcome, tip: Id, again: Option<Id>, r: Outcome)
    requires BindTold(a, b, s, o, from, first, once, tip, again, r) && b <= c && Grows(s, s')
    requires once.Failed? && once.error.Fenced? && once.error.marker.Some? ==> once.error.marker.value < |s.log|
    ensures BindTold(a, c, s', o, from, first, once, tip, again, r)
  {
    hide Told;
    var mid: seq<Deed> :| a <= mid <= b && Told(a, mid, o, from, true, first, once) &&
      if ByOwnHold(s.log, once, o) then tip == once.error.tip && Told(mid, b, o, tip, true, again, r)
      else r == once && again.None?;
    if ByOwnHold(s.log, once, o) { ToldStill(mid, mid, b, c, o, tip, true, again, r); }
    assert ByOwnHold(s'.log, once, o) == ByOwnHold(s.log, once, o);
  }

  /** Saving the token moves no copy, and forgets no read. */
  lemma SavedTold(a: seq<Deed>, b: seq<Deed>, c: seq<Deed>, o: Opts, m: Id, read: Option<Id>, reread: Option<Id>)
    requires MovesMetEither(a, b, OwnCopy(o), read, reread)
    requires Acted(b, c, NOTHING.(saves := {(Lane(o.clone, o.lane), m)}))
    ensures MovesMetEither(a, c, OwnCopy(o), read, reread)
    ensures forall of, answer :: HeardIn(a, b, of, answer) ==> HeardIn(a, c, of, answer)
  {
    ActedLonger(b, c, NOTHING.(saves := {(Lane(o.clone, o.lane), m)}));
    NoMoves(b, c, NOTHING.(saves := {(Lane(o.clone, o.lane), m)}), OwnCopy(o), reread);
    hide Acted;
    hide MovesMet;
    MetEither(a, b, c, OwnCopy(o), read, reread);
    hide MovesMetEither;
    hide HeardIn;
    forall of, answer | HeardIn(a, b, of, answer) ensures HeardIn(a, c, of, answer) {
      HeardStill(a, a, b, c, of, answer);
    }
  }

  /** What a minted beat renews and carries, it still does later. */
  lemma MarkersLast(a: State, b: State, c: State, o: Opts, from: Id, m: Option<Id>, seen: Option<Id>)
    requires Grows(b, c) && Relayed(a, b, o, seen, m) && (m.Some? ==> Renewal(b, m.value, Beat, o, from))
    ensures Relayed(a, c, o, seen, m) && (m.Some? ==> Renewal(c, m.value, Beat, o, from))
  {
    hide Grows;
    hide Nearest;
    hide Relayed;
    if m.Some? {
      RenewalStable(b, c, m.value, Beat, o, from);
      AncBelow(b.log, from, m.value);
      hide Anc;
      hide Renewal;
    }
    RelayedLater(a, b, c, o, seen, m);
  }

  lemma AncBelow(log: Log, a: Id, b: Id)
    requires Anc(log, a, b)
    ensures b < |log|
  {
  }

  /** Both of a bind's renewals, short of saving the token. */
  method BindTwice(w: World, o: Opts, from: Id)
    returns (r: Outcome, ghost first: Option<Id>, ghost again: Option<Id>, ghost tip: Id, ghost read: Option<Id>,
             ghost reread: Option<Id>, ghost once: Outcome)
    requires w.Valid() && w.s.Fetchable(from)
    modifies w`s, w`own
    ensures w.Valid() && Passed(Loose(w.rely, OwnCopy(o)), old(w.s), w.s)
    ensures Acted(old(w.own), w.own, Binding(o, from, first, tip, again))
    ensures MovesMetEither(old(w.own), w.own, OwnCopy(o), read, reread)
    ensures Relayed(old(w.s), w.s, o, read, first) && Relayed(old(w.s), w.s, o, reread, again)
    ensures first.Some? ==> HeardIn(old(w.own), w.own, OfCopy(OwnCopy(o)), Answer(read))
    ensures again.Some? ==> HeardIn(old(w.own), w.own, OfCopy(OwnCopy(o)), Answer(reread))
    ensures first.Some? ==> |old(w.s).log| <= first.value && Renewal(w.s, first.value, Beat, o, from)
    ensures again.Some? ==>
      |old(w.s).log| <= again.value && OwnTip(w.s.log, tip, o) && Renewal(w.s, again.value, Beat, o, tip)
    ensures r.Won? ==>
      || (again.None? && first == Some(r.grant.tip) && GrantedOver(old(w.s), w.s, r.grant, from))
      || (again == Some(r.grant.tip) && GrantedOver(old(w.s), w.s, r.grant, tip))
    ensures w.rely.alone && r.Won? ==> MovedTo(old(w.s), w.s, OwnCopy(o), r.grant.tip)
    ensures r.Failed? ==> Passed(w.rely, old(w.s), w.s)
    ensures PushToldApart(w.s, w.own, r)
    // a fence by its own hold is not the end: it renews once more, and ends as told then
    ensures BindTold(old(w.own), w.own, w.s, o, from, first, once, tip, again, r)
    ensures r.Failed? && r.error.Fenced? && again.None? ==>
      r.error.marker.None? || !Names(w.s.log, r.error.marker.value, o)
    ensures w.rely.alone && r.Failed? && first.None? ==> TrulyRefused(w.s, o, from, r.error)
    ensures w.rely.alone && r.Failed? && first.Some? && again.None? && r != once ==>
      TrulyRefused(w.s, o, tip, r.error)
    ensures once.Failed? && once.error.Fenced? ==> FencedAt(old(w.s), w.s, once.error)
  {
    hide Inv;
    hide Passed;
    hide Grows;
    hide Anc;
    hide Nearest;
    hide Renewal;
    hide MovedTo;
    hide LastHeard;
    hide Acted;
    hide MovesMet;
    hide MovesMetEither;
    hide HeardIn;
    hide OwnTip;
    hide Names;
    hide Relayed;
    hide Binding;
    hide Marking;
    hide Told;
    hide TrulyRefused;
    hide FencedAt;
    hide BindTold;
    ghost var start, own, k := w.s, w.own, OwnCopy(o);
    again, tip, reread := None, from, None;
    r, first, read := Advance(w, o, Beat, from, true);
    once := r;
    ghost var mid, doing := w.s, w.own;
    if r.Failed? && r.error.Fenced? { FencedMeans(start, mid, r.error); }
    ActedLonger(own, doing, Marking(o, Some(from), first));
    BoundOnce(own, doing, w.s, o, from, first, once);
    BoundFirst(own, doing, o, from, first);
    MetOnce(own, doing, k, read);
    PassedGrows(Loose(w.rely, k), start, mid);
    NotRelayed(start, mid, o);
    if r.Failed? && r.error.Fenced? {
      var mine := OwnHold(w, o, r.error.marker, r.error.tip);
      if mine {
        var fence := r.error.tip;
        tip := fence;
        r, again, reread := Advance(w, o, Beat, fence, true);
        ghost var done, did := w.s, w.own;
        PassedGrows(Loose(w.rely, k), mid, done);
        BoundAgain(own, doing, did, o, from, first, tip, again);
        ActedLonger(doing, did, Marking(o, Some(tip), again));
        MetEither(own, doing, did, k, read, reread);
        OwnTipStable(mid.log, done.log, tip, o);
        MarkersLast(start, mid, done, o, from, first, read);
        RelayedEarlier(start, mid, done, o, reread, again);
        HeardStill(own, own, doing, did, OfCopy(k), Answer(read));
        if again.Some? { HeardStill(own, doing, did, did, OfCopy(k), Answer(reread)); }
        PassedTrans(Loose(w.rely, k), start, mid, done);
        if r.Failed? { PassedTrans(w.rely, start, mid, done); }
        if w.rely.alone && r.Won? { MovedAmong(start, mid, done, done, k, r.grant.tip); }
        if r.Won? { EarlierStart(w.rely, start, mid, done, r.grant, tip); }
        FencedLater(start, mid, done, once.error);
        NamesStill(mid, done, o, once.error.marker.value);
        BoundTwice(own, doing, did, done, o, from, first, once, tip, again, r);
      }
    }
  }

  lemma FencedMeans(a: State, b: State, e: Error)
    requires e.Fenced? && FencedAt(a, b, e)
    ensures b.Fetchable(e.tip) && (e.marker.Some? ==> Nearest(b.log, e.tip, e.marker.value) && e.marker.value < |b.log|)
  {
    if e.marker.Some? { NearestBelow(b.log, b.log, e.tip, e.marker.value); }
  }

  lemma NamesStill(a: State, b: State, o: Opts, x: Id)
    requires Grows(a, b) && x < |a.log|
    ensures Names(b.log, x, o) <==> Names(a.log, x, o)
  {
  }

  /** Without a fence by its own hold a bind ends with its first renewal. */
  lemma BoundOnce(a: seq<Deed>, b: seq<Deed>, s: State, o: Opts, from: Id, first: Option<Id>, once: Outcome)
    requires a <= b && Told(a, b, o, from, true, first, once)
    ensures !ByOwnHold(s.log, once, o) ==> BindTold(a, b, s, o, from, first, once, from, None, once)
  {
  }

  lemma BoundTwice(a: seq<Deed>, b: seq<Deed>, c: seq<Deed>, s: State, o: Opts, from: Id, first: Option<Id>,
                   once: Outcome, tip: Id, again: Option<Id>, r: Outcome)
    requires a <= b <= c && Told(a, b, o, from, true, first, once) && ByOwnHold(s.log, once, o)
    requires tip == once.error.tip && Told(b, c, o, tip, true, again, r)
    ensures BindTold(a, c, s, o, from, first, once, tip, again, r)
    ensures r.Failed? && again.None? ==> !r.error.Fenced?
  {
    hide Arbitrated;
  }

  lemma MetOnce(a: seq<Deed>, b: seq<Deed>, k: Copy, one: Option<Id>)
    requires MovesMet(a, b, k, one)
    ensures forall two :: MovesMetEither(a, b, k, one, two)
  {
  }

  lemma RelayedEarlier(a: State, b: State, c: State, o: Opts, seen: Option<Id>, m: Option<Id>)
    requires Grows(a, b) && Relayed(b, c, o, seen, m)
    ensures Relayed(a, c, o, seen, m)
  {
    hide Anc;
    if seen.Some? {
      var mid: State :| Grows(b, mid) && Grows(mid, c) && mid.Local(OwnCopy(o)) == seen;
      GrowsTrans(a, b, mid);
      CopySeenNow(a, mid, c, OwnCopy(o), seen.value);
    }
  }

  lemma BeatIsNoRelease(s: State, m: Id, o: Opts, from: Id)
    requires Renewal(s, m, Beat, o, from)
    ensures !IsRelease(s.log, m)
  {
  }

  lemma EarlierStart(rely: Rely, a: State, b: State, c: State, g: Grant, from: Id)
    requires Passed(rely, a, b) && GrantedOver(b, c, g, from)
    ensures GrantedOver(a, c, g, from)
  {
  }
}
