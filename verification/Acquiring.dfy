/** The transitions that take a plan: acquire and takeover. */
module Acquiring {
  import opened Wrappers
  import opened Commits
  import opened Machine
  import opened Invariants
  import opened History
  import opened Preservation
  import opened World
  import opened Pushes
  import opened Leases

  /** How landedTip comes to yes: a view base's name stood for has the tip below it; or the tip has work above
    one, and merged into another it gives the tree of a third. */
  datatype Reading = Reached(view: Id) | Merged(above: Id, into: Id, same: Id)

  ghost predicate LandedAs(s: State, tip: Id, r: Reading) {
    match r
    case Reached(v) => s.Viewed(v) && Anc(s.log, tip, v)
    case Merged(v, i, m) => s.Viewed(v) && s.Viewed(i) && s.Viewed(m) && s.HasWork(v, tip) && s.merge(i, tip, m)
  }

  /** All of those were values of base. */
  ghost predicate ReadOnBase(s: State, r: Reading) {
    match r
    case Reached(v) => v in s.bases
    case Merged(v, i, m) => v in s.bases && i in s.bases && m in s.bases
  }

  /** Landed evidence on one view. */
  ghost predicate LandedOn(s: State, view: Id, tip: Id) {
    LandedAs(s, tip, Reached(view)) || LandedAs(s, tip, Merged(view, view, view))
  }

  /** Landed evidence is evidence a delete loses nothing, so a lost race and the
    scavenge that follows it agree; the converse fails only for bare markers. */
  lemma LandedIsNotUnlanded(s: State, view: Id, tip: Id)
    requires s.Viewed(view) && tip < |s.log|
    ensures LandedOn(s, view, tip) ==> !(s.HasWork(view, tip) && !s.merge(view, tip, view))
    ensures !(s.HasWork(view, tip) && !s.merge(view, tip, view)) ==>
      (LandedOn(s, view, tip) <==> Anc(s.log, tip, view) || s.HasWork(view, tip))
    ensures LandedOn(s, view, tip) ==> s.Justified(tip, NoWork(view)) || s.Justified(tip, Landed(view, view))
  {
    if Anc(s.log, tip, view) { ReachedHasNoWork(s, view, tip); }
  }

  lemma ReachedHasNoWork(s: State, view: Id, tip: Id)
    requires Anc(s.log, tip, view)
    ensures !s.HasWork(view, tip)
  {
    forall c: Id | Anc(s.log, c, tip) ensures Anc(s.log, c, view) { AncTrans(s.log, c, tip, view); }
  }

  /** A landed reading would justify a delete at that tip, and on base if it was on base. */
  lemma LandedJustifies(s: State, tip: Id, r: Reading)
    requires LandedAs(s, tip, r) && tip < |s.log|
    ensures exists why :: s.Justified(tip, why) && (ReadOnBase(s, r) ==> OnBaseView(s, why))
  {
    match r {
      case Reached(v) =>
        ReachedHasNoWork(s, v, tip);
        assert s.Justified(tip, NoWork(v)) && (ReadOnBase(s, r) ==> OnBaseView(s, NoWork(v)));
      case Merged(v, i, m) =>
        assert s.Justified(tip, Landed(i, m)) && (ReadOnBase(s, r) ==> OnBaseView(s, Landed(i, m)));
    }
  }

  lemma WorkStays(a: State, b: State, view: Id, tip: Id)
    requires Inv(a) && Grows(a, b) && a.Viewed(view) && a.HasWork(view, tip)
    ensures b.HasWork(view, tip)
  {
    ViewsInLog(a, view);
    var c: Id :| 0 <= c < |a.log| && Anc(a.log, c, tip) && !Anc(a.log, c, view) && a.Counts(c);
    AncBounded(a.log, c, tip);
    AncStable(a.log, b.log, c, tip);
    AncStable(a.log, b.log, c, view);
  }

  lemma LandedStays(a: State, b: State, tip: Id, r: Reading)
    requires Inv(a) && Grows(a, b) && LandedAs(a, tip, r)
    ensures LandedAs(b, tip, r) && (ReadOnBase(a, r) ==> ReadOnBase(b, r))
  {
    match r {
      case Reached(v) =>
        StillViewed(a, b, v);
        ViewsInLog(a, v);
        AncStable(a.log, b.log, tip, v);
      case Merged(v, i, m) =>
        StillViewed(a, b, v);
        StillViewed(a, b, i);
        StillViewed(a, b, m);
        WorkStays(a, b, v, tip);
    }
  }

  lemma StillLandedOn(a: State, b: State, view: Id, tip: Id)
    requires OnlyFetched(a, b) && view in a.bases
    ensures LandedOn(a, view, tip) <==> LandedOn(b, view, tip)
  {
    hide Anc;
    assert a.HasWork(view, tip) == b.HasWork(view, tip);
  }

  /** A tip is answered as not landed only after base, by its fresh name, was told not to have it, and then its
    chain could not be read, or shows no work, or merging it was told to change base. */
  ghost predicate NotLanded(own: seq<Deed>, lo: nat, tip: Id) {
    exists i :: lo <= i && HeardAt(own, i, OfBaseHas(tip), Answer(None)) && NoSameMerge(own, i + 1, tip)
  }

  ghost predicate NoSameMerge(own: seq<Deed>, i: nat, tip: Id) {
    || HeardAt(own, i, OfChain(tip), Fault) || HeardAt(own, i, OfChain(tip), Answer(None))
    || HeardAt(own, i + 1, OfMerge(tip), Answer(None))
  }

  lemma NotLandedStill(own: seq<Deed>, lo: nat, own': seq<Deed>, lo': nat, tip: Id)
    requires NotLanded(own, lo, tip) && own <= own' && lo' <= lo
    ensures NotLanded(own', lo', tip)
  {
    var i :| lo <= i && HeardAt(own, i, OfBaseHas(tip), Answer(None)) && NoSameMerge(own, i + 1, tip);
    assert HeardAt(own', i, OfBaseHas(tip), Answer(None)) && NoSameMerge(own', i + 1, tip);
  }

  /** landedTip. */
  method LandedTip(w: World, o: Opts, tip: Id) returns (yes: bool, ghost r: Reading)
    requires w.Valid()
    modifies w`s, w`own
    ensures Acted(old(w.own), w.own, NOTHING.(fetches := {o.clone}))
    ensures w.Valid() && Passed(w.rely, old(w.s), w.s) && (w.rely.alone ==> OnlyFetched(old(w.s), w.s))
    ensures yes ==> LandedAs(w.s, tip, r)
    ensures !yes ==> NotLanded(w.own, |old(w.own)|, tip)
    // with no other fetch in this clone meanwhile, it was judged on base
    ensures yes && o.clone in w.rely.quiet ==> ReadOnBase(w.s, r)
    ensures w.rely.alone ==> |w.s.bases| > 0 && (yes <==> LandedOn(w.s, w.s.Base(), tip))
  {
    hide Inv;
    hide Passed;
    hide Acted;
    hide Grows;
    hide LandedAs;
    hide LandedOn;
    hide ReadOnBase;
    hide NotLanded;
    ghost var start, own, f := w.s, w.own, NOTHING.(fetches := {o.clone});
    var name := w.FreshBase(o.clone);
    ghost var fetched, fetching := w.s, w.own;
    ghost var view, above, into, same;
    yes, view := w.BaseHas(o.clone, name, tip);
    r := Reached(view);
    AskedLanded(w.s, tip, view, yes);
    ghost var asked, asking := w.s, w.own;
    PassedTrans(w.rely, start, fetched, asked);
    ReadThen(own, fetching, asking, f);
    if !yes {
      var work;
      work, above := w.ReadsWork(o.clone, name, tip);
      ghost var read, reading := w.s, w.own;
      PassedTrans(w.rely, start, asked, read);
      ReadThen(own, asking, reading, f);
      if work == Some(true) {
        yes, into, same := w.MergesToNothing(o.clone, name, tip);
        PassedTrans(w.rely, start, read, w.s);
        PassedGrows(w.rely, read, w.s);
        WorkStays(read, w.s, above, tip);
        StillViewed(read, w.s, above);
        ReadThen(own, reading, w.own, f);
        ActedLonger(reading, w.own, NOTHING);
        r := Merged(above, into, same);
        MergedLanded(w.s, tip, above, into, same, yes);
      }
      if w.rely.alone { AloneLanded(w.s, view, tip, work == Some(true), yes); }
      if !yes { ToldNotLanded(own, asking, reading, w.own, tip); }
    }
  }

  lemma AloneLanded(s: State, view: Id, tip: Id, work: bool, same: bool)
    requires s.Viewed(view) && !Anc(s.log, tip, view) && work == s.HasWork(view, tip)
    requires if work then same == s.merge(view, tip, view) else !same
    ensures LandedOn(s, view, tip) <==> same
  {
  }

  lemma AskedLanded(s: State, tip: Id, view: Id, yes: bool)
    requires yes ==> s.Viewed(view) && Anc(s.log, tip, view)
    ensures yes ==> LandedAs(s, tip, Reached(view)) && LandedOn(s, view, tip)
    ensures view in s.bases ==> ReadOnBase(s, Reached(view))
  {
  }

  lemma MergedLanded(s: State, tip: Id, above: Id, into: Id, same: Id, yes: bool)
    requires s.Viewed(above) && s.HasWork(above, tip)
    requires yes ==> s.Viewed(into) && s.Viewed(same) && s.merge(into, tip, same)
    ensures yes ==> LandedAs(s, tip, Merged(above, into, same))
    ensures above in s.bases && into in s.bases && same in s.bases ==> ReadOnBase(s, Merged(above, into, same))
  {
  }

  lemma ToldNotLanded(a: seq<Deed>, b: seq<Deed>, c: seq<Deed>, d: seq<Deed>, tip: Id)
    requires |a| < |b| && LastHeard(b, OfBaseHas(tip), Answer(None)) && b <= c <= d && |c| == |b| + 1
    requires LastHeard(c, OfChain(tip), Fault) || LastHeard(c, OfChain(tip), Answer(None)) ||
             (|d| == |c| + 1 && LastHeard(d, OfMerge(tip), Answer(None)))
    ensures NotLanded(d, |a|, tip)
  {
    assert HeardAt(d, |b| - 1, OfBaseHas(tip), Answer(None)) && NoSameMerge(d, |b|, tip);
  }

  /** A lost race is named rightly: the marker found at that tip, whether it landed on the evidence read, or on
    the answers that showed none, and whether it is our own host's. With nobody else at work, landed is whether
    base as it stands says so, and a marker there is found. */
  ghost predicate HeldRight(own: seq<Deed>, lo: nat, s: State, o: Opts, rely: Rely, e: Error)
    requires e.HeldBy?
  {
    && Named(own, lo, o.clone, e.tip, e.marker) && (e.marker.Some? ==> Nearest(s.log, e.tip, e.marker.value))
    && (e.ours <==> e.marker.Some? && o.holder != "" && s.log[e.marker.value].body.holder == o.holder)
    && (if e.landed then exists r :: LandedAs(s, e.tip, r) && (o.clone in rely.quiet ==> ReadOnBase(s, r))
        else NotLanded(own, lo, e.tip))
    && (rely.alone ==> |s.bases| > 0 && (e.landed <==> LandedOn(s, s.Base(), e.tip)))
    && (rely.alone && e.marker.None? ==> forall y: Id :: !Nearest(s.log, e.tip, y))
  }

  lemma HeldEarlier(own: seq<Deed>, lo: nat, lo': nat, s: State, o: Opts, rely: Rely, e: Error)
    requires e.HeldBy? && HeldRight(own, lo, s, o, rely, e) && lo' <= lo
    ensures HeldRight(own, lo', s, o, rely, e)
  {
    hide LandedOn;
    hide LandedAs;
    hide ReadOnBase;
    hide Nearest;
    hide MarkerTold;
    if !e.landed { NotLandedStill(own, lo, own, lo', e.tip); }
    hide NotLanded;
    var hi: nat :| lo <= hi && MarkerTold(own, lo, hi, o.clone, e.tip, e.marker);
    MarkerSooner(own, lo, lo', hi, o.clone, e.tip, e.marker);
  }

  lemma MarkerSooner(own: seq<Deed>, lo: nat, lo': nat, hi: nat, clone: nat, tip: Id, x: Option<Id>)
    requires MarkerTold(own, lo, hi, clone, tip, x) && lo' <= lo
    ensures MarkerTold(own, lo', hi, clone, tip, x)
  {
  }

  /** heldError: who holds the ref, and whether that work already landed. */
  method HeldError(w: World, o: Opts, tip: Id) returns (e: Error)
    requires w.Valid()
    modifies w`s, w`own
    ensures Acted(old(w.own), w.own, NOTHING.(fetches := {o.clone}))
    ensures w.Valid() && Passed(w.rely, old(w.s), w.s) && (w.rely.alone ==> OnlyFetched(old(w.s), w.s))
    ensures e.HeldBy? && e.tip == tip && HeldRight(w.own, |old(w.own)|, w.s, o, w.rely, e)
    // what is named last was read last
    ensures |old(w.own)| < |w.own| && MarkerTold(w.own, |old(w.own)|, |w.own|, o.clone, tip, e.marker)
  {
    hide Inv;
    hide Nearest;
    hide Passed;
    hide LandedAs;
    hide LandedOn;
    hide ReadOnBase;
    hide Acted;
    hide NotLanded;
    hide MarkerTold;
    ghost var start, own, f := w.s, w.own, NOTHING.(fetches := {o.clone});
    var ok := w.FetchWork(o.clone);
    ghost var fetched, fetching := w.s, w.own;
    var landed, r := LandedTip(w, o, tip);
    ghost var judged, judging := w.s, w.own;
    PassedTrans(w.rely, start, fetched, judged);
    ActedThen(own, fetching, judging, f, f, f);
    var x := w.FetchedMarker(o.clone, tip);
    PassedGrows(w.rely, judged, w.s);
    PassedTrans(w.rely, start, judged, w.s);
    ActedThen(own, judging, w.own, f, f, f);
    ActedLonger(own, fetching, f);
    ActedLonger(fetching, judging, f);
    ActedLonger(judging, w.own, f);
    if !landed { NotLandedStill(judging, |fetching|, w.own, |own|, tip); }
    MarkerSooner(w.own, |judging|, |own|, |w.own|, o.clone, tip, x);
    if landed { LandedStays(judged, w.s, tip, r); }
    if w.rely.alone { StillLandedOn(judged, w.s, w.s.Base(), tip); }
    if x.Some? { NearestBelow(w.s.log, w.s.log, tip, x.value); }
    e := HeldBy(tip, x, landed,
                x.Some? && w.s.log[x.value].body.holder != "" && w.s.log[x.value].body.holder == o.holder);
  }

  /** A marker minted to acquire over `over`: a first claim, a claim on a release, or
    a takeover of exactly the tip observed, one epoch on. */
  ghost predicate Acquisition(s: State, m: Id, o: Opts, over: Option<Id>) {
    && IsAcquisition(s.log, m) && m in s.expects && s.expects[m] == over
    && s.log[m].body.holder == o.holder && s.log[m].body.lane == Written(o.lane)
    && (over.None? ==> s.log[m].body.kind.Claim? && s.log[m].body.epoch == 1)
    && (over.Some? ==> s.log[m].parents == {over.value})
    && (over.Some? && s.log[m].body.kind.Claim? ==>
          IsRelease(s.log, over.value) && s.log[m].body.epoch == s.log[over.value].body.epoch + 1)
    && (over.Some? && s.log[m].body.kind.Takeover? ==>
          exists x: Id :: Nearest(s.log, over.value, x) && s.log[m].body.epoch == s.log[x].body.epoch + 1)
  }

  lemma AcquisitionStable(a: State, b: State, m: Id, o: Opts, over: Option<Id>)
    requires Acquisition(a, m, o, over) && Grows(a, b) && (over.Some? ==> over.value < |a.log|)
    ensures Acquisition(b, m, o, over)
  {
    hide Anc;
    assert b.log[m] == a.log[m];
    if over.Some? {
      assert b.log[over.value] == a.log[over.value];
      if a.log[m].body.kind.Takeover? {
        var x: Id :| Nearest(a.log, over.value, x) && a.log[m].body.epoch == a.log[x].body.epoch + 1;
        NearestBelow(a.log, b.log, over.value, x);
        assert b.log[x] == a.log[x];
      }
    }
  }

  /** The acquisition landed between the two states, over exactly `over`. */
  ghost predicate TakenOver(a: State, b: State, g: Grant, o: Opts, over: Option<Id>) {
    && Acquisition(b, g.tip, o, over) && b.log[g.tip].body.epoch == g.epoch
    && g.tip in b.landed && |a.history| <= b.landed[g.tip] && 1 <= b.landed[g.tip] < |b.history|
    && b.history[b.landed[g.tip]] == Some(g.tip) && b.history[b.landed[g.tip] - 1] == over
  }

  /** What an acquiring call leaves: the one marker it may have minted acquires over
    `over`, a grant is that marker landed there during the call, and a lost race
    names another tip the ref held meanwhile. */
  ghost predicate AcquireDone(a: State, b: State, o: Opts, over: Option<Id>, r: Outcome, minted: Option<Id>) {
    && (minted.Some? ==> |a.log| <= minted.value && Acquisition(b, minted.value, o, over))
    && (r.Won? ==> minted == Some(r.grant.tip) && TakenOver(a, b, r.grant, o, over))
    && (r.Failed? && r.error.HeldBy? ==>
          Some(r.error.tip) != minted && SeenBetween(a, b, Some(r.error.tip)))
  }

  /** A minted acquisition is pushed, the outcome is what that push calls for, a loss is named rightly, and a win
    had the copy and the lane's token follow. */
  ghost predicate PushTold(a: seq<Deed>, b: seq<Deed>, s: State, o: Opts, rely: Rely, m: Id, r: Outcome) {
    && Arbitrated(a, b, m, o.clone, true, r)
    && (r.Won? ==> Followed(a, b, o, m) && SaveTried(a, b, Lane(o.clone, o.lane), m))
    && (r.Failed? && r.error.HeldBy? ==> HeldRight(b, |a|, s, o, rely, r.error))
  }

  lemma PushEarlier(a: seq<Deed>, b: seq<Deed>, c: seq<Deed>, s: State, o: Opts, rely: Rely, m: Id, r: Outcome)
    requires PushTold(b, c, s, o, rely, m, r) && |a| <= |b|
    ensures PushTold(a, c, s, o, rely, m, r)
  {
    hide HeldRight;
    ArbitratedStill(a, b, c, c, m, o.clone, true, r);
    hide Arbitrated;
    if r.Failed? && r.error.HeldBy? { HeldEarlier(c, |b|, |a|, s, o, rely, r.error); }
  }

  /** Whenever it moved this clone's copy it met it as it had read it. */
  ghost predicate MetAsRead(a: seq<Deed>, b: seq<Deed>, k: Copy) {
    exists seen: Option<Id> :: HeardIn(a, b, OfCopy(k), Answer(seen)) && MovesMet(a, b, k, seen)
  }

  lemma MetLonger(a: seq<Deed>, b: seq<Deed>, c: seq<Deed>, k: Copy, f: Footprint)
    requires Acted(a, b, f) && f.moves == {} && MetAsRead(b, c, k) && b <= c
    ensures MetAsRead(a, c, k)
  {
    hide MovesMet;
    hide HeardIn;
    ActedLonger(a, b, f);
    var seen: Option<Id> :| HeardIn(b, c, OfCopy(k), Answer(seen)) && MovesMet(b, c, k, seen);
    NoMoves(a, b, f, k, seen);
    MovesMetTrans(a, b, c, k, seen);
    HeardStill(a, b, c, c, OfCopy(k), Answer(seen));
  }

  lemma MetThen(a: seq<Deed>, b: seq<Deed>, c: seq<Deed>, k: Copy, seen: Option<Id>, f: Footprint)
    requires Acted(a, b, f) && f.moves == {} && HeardIn(a, b, OfCopy(k), Answer(seen)) && MovesMet(b, c, k, seen)
    ensures MetAsRead(a, c, k)
  {
    hide HeardIn;
    NoMoves(a, b, f, k, seen);
    MovesMetTrans(a, b, c, k, seen);
    HeardStill(a, a, b, c, OfCopy(k), Answer(seen));
  }

  /** The CAS of a minted acquisition, read as a grant or a lost race. */
  method PushAcquisition(w: World, o: Opts, over: Option<Id>, m: Id, seen: Option<Id>, ghost start: State)
    returns (r: Outcome)
    requires w.Valid() && Inv(start) && Grows(start, w.s) && |start.log| <= m
    requires Acquisition(w.s, m, o, over) && (over.Some? ==> over.value < |w.s.log|)
    requires OwnCopy(o) !in w.rely.forward
    modifies w`s, w`own
    ensures Acted(old(w.own), w.own, Marking(o, over, Some(m)))
    ensures MovesMet(old(w.own), w.own, OwnCopy(o), seen)
    ensures w.Valid() && Passed(Loose(w.rely, OwnCopy(o)), old(w.s), w.s)
    ensures w.rely.alone ==> w.s.legacy == old(w.s).legacy
    ensures AcquireDone(start, w.s, o, over, r, Some(m)) && PushToldApart(w.s, w.own, r)
    ensures PushTold(old(w.own), w.own, w.s, o, w.rely, m, r)
    ensures w.rely.alone && m !in old(w.s).landed && r.Won? ==> MovedTo(old(w.s), w.s, OwnCopy(o), m)
    ensures r.Failed? ==> Passed(w.rely, old(w.s), w.s)
  {
    hide Inv;
    hide Passed;
    hide Grows;
    hide Nearest;
    hide Anc;
    hide Acted;
    hide MovedTo;
    hide MovesMet;
    hide HeldRight;
    hide MarkerTold;
    hide PushTold;
    hide PushRead;
    hide PushReadAt;
    hide Followed;
    hide SaveTried;
    hide Tried;
    hide Acquisition;
    hide LastHeard;
    ghost var mint, own := w.s, w.own;
    AcquiringMarker(mint, m, o, over);
    var res, read := CasPush(w, OwnCopy(o), m, seen);
    ghost var pushing := w.own;
    ActedWider(own, pushing, Pushing(OwnCopy(o), m), Marking(o, over, Some(m)));
    PassedGrows(Loose(w.rely, OwnCopy(o)), mint, w.s);
    AcquisitionStable(mint, w.s, m, o, over);
    GrowsTrans(start, mint, w.s);
    ActedLonger(own, pushing, Pushing(OwnCopy(o), m));
    FollowedBy(own, pushing, o, m);
    match res {
      case WonCas =>
        Taken(start, w.s, m, o, over);
        var g := Grant(m, w.s.log[m].body.epoch);
        r := Won(g);
        ghost var won := w.s;
        var saved := w.WriteToken(Lane(o.clone, o.lane), m);
        SavedToo(own, pushing, w.own, o, over, m);
        if w.rely.alone && m !in mint.landed { MovedAmong(mint, mint, won, w.s, OwnCopy(o), m); }
        NoMoves(pushing, w.own, NOTHING.(saves := {(Lane(o.clone, o.lane), m)}), OwnCopy(o), seen);
        MovesMetTrans(own, pushing, w.own, OwnCopy(o), seen);
        PassedGrows(w.rely, won, w.s);
        AcquisitionStable(won, w.s, m, o, over);
        TakenStable(start, won, w.s, g, o, over);
        PassedLoose(w.rely, OwnCopy(o), won, w.s);
        PassedTrans(Loose(w.rely, OwnCopy(o)), mint, won, w.s);
        ActedLonger(pushing, w.own, NOTHING.(saves := {(Lane(o.clone, o.lane), m)}));
      case Lost(tip) =>
        ghost var lost := w.s;
        var e := HeldError(w, o, tip);
        r := Failed(e);
        FetchedToo(own, pushing, w.own, o, over, m, seen);
        PassedGrows(w.rely, lost, w.s);
        AcquisitionStable(lost, w.s, m, o, over);
        SeenStable(start, lost, w.s);
        PassedTrans(w.rely, mint, lost, w.s);
        PassedLoose(w.rely, OwnCopy(o), mint, w.s);
        ActedLonger(pushing, w.own, NOTHING.(fetches := {o.clone}));
      case Unconfirmed =>
        LastRead(w.own, m, read.value);
        r := Failed(Error.Unconfirmed);
      case Faulted => r := Failed(PushFault);
    }
    PushSettled(own, pushing, w.own, w.s, o, w.rely, m, read, r);
  }

  lemma FollowedBy(a: seq<Deed>, b: seq<Deed>, o: Opts, m: Id)
    ensures Tried(a, b, MoveLocal(OwnCopy(o), Some(m)), OfMove(OwnCopy(o), Some(m))) <==> Followed(a, b, o, m)
  {
  }

  lemma AcquiringMarker(s: State, m: Id, o: Opts, over: Option<Id>)
    requires Acquisition(s, m, o, over)
    ensures m in s.expects && IsMarker(s.log, m) && !IsRelease(s.log, m)
  {
    hide Nearest;
  }

  lemma Taken(start: State, s: State, m: Id, o: Opts, over: Option<Id>)
    requires Inv(start) && Inv(s) && Grows(start, s) && |start.log| <= m && Acquisition(s, m, o, over) && m in s.landed
    ensures TakenOver(start, s, Grant(m, s.log[m].body.epoch), o, over)
  {
    hide Inv;
    hide Nearest;
    hide Anc;
    LandedOver(start, s, m);
  }

  /** How a minted acquisition ends, from how its push did. */
  lemma PushSettled(a: seq<Deed>, b: seq<Deed>, c: seq<Deed>, s: State, o: Opts, rely: Rely, m: Id,
                    read: Option<Read>, r: Outcome)
    requires PushRead(a, b, m, read) && a <= b <= c
    requires r.Won? <==> read.None? || read == Some(Answer(Some(m)))
    requires r.Won? ==> Followed(a, b, o, m) && SaveTried(b, c, Lane(o.clone, o.lane), m)
    requires read == Some(Fault) ==> r == Failed(Error.Unconfirmed)
    requires read == Some(Answer(None)) ==> r == Failed(PushFault)
    requires r.Failed? && read.value.Answer? && read.value.tip.Some? ==>
      && r.error.HeldBy? && r.error.tip == read.value.tip.value && HeldRight(c, |b|, s, o, rely, r.error)
      && MarkerTold(c, |b|, |c|, o.clone, r.error.tip, r.error.marker)
    ensures PushTold(a, c, s, o, rely, m, r)
  {
    hide HeldRight;
    hide MarkerTold;
    hide PushRead;
    hide SaveTried;
    hide Arbitrated;
    PushDecides(a, b, c, m, o.clone, true, read, r, |b|);
    if r.Won? {
      TriedStill(a, a, b, c, MoveLocal(OwnCopy(o), Some(m)), OfMove(OwnCopy(o), Some(m)));
      SaveStill(a, b, c, Lane(o.clone, o.lane), m);
    } else if read.value.Answer? && read.value.tip.Some? {
      HeldEarlier(c, |b|, |a|, s, o, rely, r.error);
    }
  }

  lemma FetchedToo(a: seq<Deed>, b: seq<Deed>, c: seq<Deed>, o: Opts, over: Option<Id>, m: Id, seen: Option<Id>)
    requires Acted(a, b, Marking(o, over, Some(m))) && MovesMet(a, b, OwnCopy(o), seen)
    requires Acted(b, c, NOTHING.(fetches := {o.clone}))
    ensures Acted(a, c, Marking(o, over, Some(m))) && MovesMet(a, c, OwnCopy(o), seen)
  {
    ActedThen(a, b, c, Marking(o, over, Some(m)), NOTHING.(fetches := {o.clone}), Marking(o, over, Some(m)));
    NoMoves(b, c, NOTHING.(fetches := {o.clone}), OwnCopy(o), seen);
    MovesMetTrans(a, b, c, OwnCopy(o), seen);
  }

  lemma TakenStable(a: State, b: State, c: State, g: Grant, o: Opts, over: Option<Id>)
    requires TakenOver(a, b, g, o, over) && Grows(b, c) && Acquisition(c, g.tip, o, over)
    ensures TakenOver(a, c, g, o, over)
  {
    hide Nearest;
    hide Anc;
    assert c.log[g.tip] == b.log[g.tip];
    assert c.history[b.landed[g.tip]] == b.history[b.landed[g.tip]];
    assert c.history[b.landed[g.tip] - 1] == b.history[b.landed[g.tip] - 1];
  }

  /** mintMarker, for a takeover of exactly `from`. */
  method MintTakeover(w: World, o: Opts, from: Id, x: Id) returns (m: Option<Id>)
    requires w.Valid() && w.s.Fetchable(from) && Nearest(w.s.log, from, x)
    modifies w`s, w`own
    ensures Acted(old(w.own), w.own, NOTHING.(mints := {Some(from)}))
    ensures w.Valid() && Passed(w.rely, old(w.s), w.s)
    ensures w.rely.alone ==> SameRefs(old(w.s), w.s)
    ensures m.Some? ==> m.value !in w.s.landed
    ensures m.None? ==> HeardIn(old(w.own), w.own, OfMint, Fault)
    ensures m.Some? ==>
      && |old(w.s).log| <= m.value < |w.s.log| && Acquisition(w.s, m.value, o, Some(from))
      && w.s.log[m.value].body.kind.Takeover?
  {
    hide Inv;
    hide Anc;
    hide Nearest;
    hide Acquisition;
    hide Passed;
    hide Grows;
    ghost var start := w.s;
    NearestBelow(start.log, start.log, from, x);
    var body := Marker(Kind.Takeover, w.s.log[x].body.epoch + 1, o.holder, Written(o.lane));
    m := w.MintMarker(from, body, Some(from), x);
    PassedGrows(w.rely, start, w.s);
    if m.None? {
      assert HeardAt(w.own, |w.own| - 1, OfMint, Fault);
    } else {
      MintedTakeover(start, w.s, m.value, o, from, x);
    }
  }

  /** A takeover does its job: it mints nothing only when it found no marker at the tip, or the mint failed; and
    any marker it mints it pushes. */
  ghost predicate TakeoverTold(a: seq<Deed>, b: seq<Deed>, s: State, o: Opts, rely: Rely, from: Id, minted: Option<Id>,
                               r: Outcome)
  {
    if minted.Some? then PushTold(a, b, s, o, rely, minted.value, r)
    else
      || (r == Failed(NoMarker) && Named(b, |a|, o.clone, from, None))
      || (r == Failed(GitFault) && HeardIn(a, b, OfMint, Fault))
  }

  /** Takeover: a takeover marker on exactly the observed tip. Nothing compares the
    local copy with it, so the copy must be one nobody counts on. */
  method Takeover(w: World, o: Opts, from: Id) returns (r: Outcome, ghost minted: Option<Id>)
    requires w.Valid() && w.s.Fetchable(from) && OwnCopy(o) !in w.rely.forward
    modifies w`s, w`own
    // all it does itself is mint over `from`, land that marker, move its own copy to it and save it
    ensures Acted(old(w.own), w.own, Marking(o, Some(from), minted))
    ensures w.Valid() && Passed(Loose(w.rely, OwnCopy(o)), old(w.s), w.s)
    ensures AcquireDone(old(w.s), w.s, o, Some(from), r, minted) && PushToldApart(w.s, w.own, r)
    // what it was told decides, and with nobody else at work a marker there is found
    ensures TakeoverTold(old(w.own), w.own, w.s, o, w.rely, from, minted, r)
    ensures w.rely.alone && minted.None? && r == Failed(NoMarker) ==> forall y: Id :: !Nearest(w.s.log, from, y)
    ensures minted.Some? ==> MetAsRead(old(w.own), w.own, OwnCopy(o))
    ensures minted.Some? ==> minted.value < |w.s.log| && w.s.log[minted.value].body == Marker(Kind.Takeover,
      w.s.log[minted.value].body.epoch, o.holder, Written(o.lane))
    ensures w.rely.alone && r.Won? ==> MovedTo(old(w.s), w.s, OwnCopy(o), r.grant.tip)
    ensures r.Failed? ==> Passed(w.rely, old(w.s), w.s)
  {
    hide Inv;
    hide Anc;
    hide Nearest;
    hide Passed;
    hide Grows;
    hide Acted;
    hide MovesMet;
    hide Acquisition;
    hide PushTold;
    hide MetAsRead;
    hide HeardIn;
    hide LastHeard;
    hide MarkerTold;
    hide PushToldApart;
    hide TakenOver;
    ghost var start, own := w.s, w.own;
    ghost var f := NOTHING.(fetches := {o.clone});
    minted := None;
    var x := w.FetchedMarker(o.clone, from);
    ghost var asked, asking := w.s, w.own;
    ActedWider(own, asking, f, Marking(o, Some(from), None));
    PassedLoose(w.rely, OwnCopy(o), start, asked);
    if x.None? {
      NoneNamed(asking, |own|, o.clone, from);
      NoneAcquired(asked, asking, NoMarker);
      return Failed(NoMarker), None;
    }
    PassedGrows(w.rely, start, asked);
    var m := MintTakeover(w, o, from, x.value);
    ghost var minting := w.own;
    ActedThen(own, asking, minting, f, NOTHING.(mints := {Some(from)}), Marking(o, Some(from), m));
    PassedTrans(w.rely, start, asked, w.s);
    PassedLoose(w.rely, OwnCopy(o), start, w.s);
    ActedLonger(own, asking, f);
    if m.None? {
      HeardStill(own, asking, minting, minting, OfMint, Fault);
      NoneAcquired(w.s, minting, GitFault);
      return Failed(GitFault), None;
    }
    minted := m;
    ghost var mint := w.s;
    var seen := w.LocalTip(OwnCopy(o));
    ghost var read, reading := w.s, w.own;
    PassedTrans(w.rely, start, mint, read);
    PassedGrows(w.rely, mint, read);
    AcquisitionStable(mint, read, m.value, o, Some(from));
    PassedGrows(w.rely, start, read);
    ReadThen(own, minting, reading, Marking(o, Some(from), m));
    ActedLonger(own, minting, Marking(o, Some(from), m));
    ActedLonger(minting, reading, NOTHING);
    r := PushAcquisition(w, o, Some(from), m.value, seen, start);
    ActedThen(own, reading, w.own, Marking(o, Some(from), m), Marking(o, Some(from), m), Marking(o, Some(from), m));
    PushEarlier(own, reading, w.own, w.s, o, w.rely, m.value, r);
    ActedThen(own, asking, minting, f, NOTHING.(mints := {Some(from)}), Moveless(o, Some(from)));
    ReadThen(own, minting, reading, Moveless(o, Some(from)));
    JustHeard(own, minting, reading, OfCopy(OwnCopy(o)), Answer(seen));
    MetThen(own, reading, w.own, OwnCopy(o), seen, Moveless(o, Some(from)));
    PassedGrows(Loose(w.rely, OwnCopy(o)), read, w.s);
    AfterPush(w.rely, OwnCopy(o), start, read, w.s, r);
    assert w.s.log[m.value] == mint.log[m.value];
    TakeoverBody(mint, m.value, o, from);
    if w.rely.alone && r.Won? {
      FetchedRefs(start, asked);
      MovedAmong(start, read, w.s, w.s, OwnCopy(o), m.value);
    }
  }

  lemma JustHeard(a: seq<Deed>, b: seq<Deed>, c: seq<Deed>, of: Subject, answer: Read)
    requires a <= b < c && c[|b|].Heard? && c[|b|].of == of && c[|b|].answer == answer
    ensures HeardIn(a, c, of, answer)
  {
    assert HeardAt(c, |b|, of, answer);
  }

  lemma NoneNamed(own: seq<Deed>, lo: nat, clone: nat, tip: Id)
    requires MarkerTold(own, lo, |own|, clone, tip, None)
    ensures Named(own, lo, clone, tip, None)
  {
    assert MarkerTold(own, lo, |own|, clone, tip, None);
  }

  lemma NoneAcquired(s: State, own: seq<Deed>, e: Error)
    requires e.NoMarker? || e.GitFault? || e.LocalDiverges?
    ensures PushToldApart(s, own, Failed(e))
  {
  }

  /** Minting over one value, and fetching, move no copy. */
  function Moveless(o: Opts, over: Option<Id>): Footprint {
    NOTHING.(mints := {over}, fetches := {o.clone})
  }

  lemma TakeoverBody(s: State, m: Id, o: Opts, from: Id)
    requires Acquisition(s, m, o, Some(from)) && s.log[m].body.kind.Takeover?
    ensures s.log[m].body == Marker(Kind.Takeover, s.log[m].body.epoch, o.holder, Written(o.lane))
  {
    hide Nearest;
  }

  lemma FetchedRefs(a: State, b: State)
    requires OnlyFetched(a, b)
    ensures SameRefs(a, b)
  {
  }

  lemma AfterPush(rely: Rely, k: Copy, a: State, b: State, c: State, r: Outcome)
    requires Passed(rely, a, b) && Passed(Loose(rely, k), b, c) && (r.Failed? ==> Passed(rely, b, c))
    ensures Passed(Loose(rely, k), a, c) && (r.Failed? ==> Passed(rely, a, c))
  {
  }

  lemma MintedTakeover(a: State, b: State, m: Id, o: Opts, from: Id, x: Id)
    requires Grows(a, b) && m == |a.log| && Nearest(a.log, from, x)
    requires b.log ==
      a.log + [Commit({from}, Marker(Kind.Takeover, a.log[x].body.epoch + 1, o.holder, Written(o.lane)))]
    requires m in b.expects && b.expects[m] == Some(from)
    ensures Acquisition(b, m, o, Some(from))
  {
    NearestBelow(a.log, b.log, from, x);
    hide Nearest;
    assert b.log[x] == a.log[x];
  }

  /** The commit a fresh claim is minted on, unless the local copy carries commits
    that view of base does not. */
  method ClaimBase(w: World, o: Opts, guarded: bool) returns (base: Id, err: Option<Error>, ghost local: Option<Id>)
    requires w.Valid()
    modifies w`s, w`own
    ensures Acted(old(w.own), w.own, NOTHING)
    ensures w.Valid() && Passed(w.rely, old(w.s), w.s)
    ensures w.rely.alone ==> w.s == old(w.s)
    ensures err.None? ==> base in w.s.bases && w.s.Fetchable(base)
    // a guarded claim reads the local copy, and goes ahead only with one the base has
    ensures guarded && err.None? ==>
      HeardAt(w.own, |old(w.own)|, OfBase, Answer(Some(base))) &&
      HeardAt(w.own, |old(w.own)| + 1, OfCopy(OwnCopy(o)), Answer(local))
    ensures guarded && err.None? && local.Some? ==> Anc(w.s.log, local.value, base)
    // it gives up only on a base it could not read, or on being told that the local tip is not below it
    ensures err.Some? ==> Unclaimed(old(w.own), w.own, o, !guarded, err.value)
    ensures err.Some? && err.value.LocalDiverges? ==> w.s.Local(OwnCopy(o)) == Some(err.value.local)
    ensures w.rely.alone && err.Some? ==> err.value.LocalDiverges? && TrulyDiverges(w.s, o, err.value)
  {
    hide Inv;
    hide Anc;
    hide Acted;
    hide Passed;
    ghost var start, own := w.s, w.own;
    err, base, local := None, 0, None;
    var b := w.TrackingBase();
    ghost var based, basing := w.s, w.own;
    if b.None? {
      JustHeard(own, own, basing, OfBase, Answer(None));
      return 0, Some(GitFault), None;
    }
    base := b.value;
    if guarded {
      var tip := w.LocalTip(OwnCopy(o));
      ghost var looking := w.own;
      local := tip;
      PassedTrans(w.rely, start, based, w.s);
      PassedGrows(w.rely, based, w.s);
      ReadThen(own, basing, looking, NOTHING);
      if tip.Some? {
        var behind := w.IsAncestor(tip.value, base);
        ReadThen(own, looking, w.own, NOTHING);
        if !behind {
          ToldBeside(own, w.own, o, base, tip.value);
          err := Some(LocalDiverges(tip.value));
        }
      }
    }
  }

  /** Why a claim minted nothing: base could not be read or the mint failed, or, for a fresh one, the local tip
    was told not to be below the base it read. */
  ghost predicate Unclaimed(a: seq<Deed>, b: seq<Deed>, o: Opts, onto: bool, e: Error) {
    match e
    case GitFault => HeardIn(a, b, OfBase, Answer(None)) || HeardIn(a, b, OfMint, Fault)
    case LocalDiverges(l) =>
      !onto && HeardIn(a, b, OfCopy(OwnCopy(o)), Answer(Some(l))) &&
      exists base :: HeardIn(a, b, OfBase, Answer(Some(base))) && HeardIn(a, b, OfBelow(l, base), Answer(None))
    case _ => false
  }

  /** A local tip that some base did not have. */
  ghost predicate TrulyDiverges(s: State, o: Opts, e: Error)
    requires e.LocalDiverges?
  {
    s.Local(OwnCopy(o)) == Some(e.local) && exists base :: base in s.bases && !Anc(s.log, e.local, base)
  }

  lemma ToldBeside(a: seq<Deed>, b: seq<Deed>, o: Opts, base: Id, local: Id)
    requires HeardAt(b, |a|, OfBase, Answer(Some(base)))
    requires HeardAt(b, |a| + 1, OfCopy(OwnCopy(o)), Answer(Some(local)))
    requires HeardAt(b, |a| + 2, OfBelow(local, base), Answer(None))
    ensures Unclaimed(a, b, o, false, LocalDiverges(local))
  {
    assert HeardIn(a, b, OfBase, Answer(Some(base))) && HeardIn(a, b, OfBelow(local, base), Answer(None));
    assert HeardIn(a, b, OfCopy(OwnCopy(o)), Answer(Some(local)));
  }

  lemma UnclaimedStill(a: seq<Deed>, b: seq<Deed>, c: seq<Deed>, d: seq<Deed>, o: Opts, onto: bool, e: Error)
    requires Unclaimed(b, c, o, onto, e) && |a| <= |b| && c <= d
    ensures Unclaimed(a, d, o, onto, e)
  {
    hide HeardIn;
    forall of, answer | HeardIn(b, c, of, answer) ensures HeardIn(a, d, of, answer) {
      HeardStill(a, b, c, d, of, answer);
    }
  }

  /** mintMarker, for a claim. */
  method MintClaim(w: World, o: Opts, onto: Option<Id>, base: Id) returns (m: Option<Id>)
    requires w.Valid() && base in w.s.bases && w.s.Fetchable(base)
    requires onto.Some? ==> w.s.Fetchable(onto.value) && IsRelease(w.s.log, onto.value)
    modifies w`s, w`own
    ensures Acted(old(w.own), w.own, NOTHING.(mints := {onto}))
    ensures w.Valid() && Passed(w.rely, old(w.s), w.s)
    ensures w.rely.alone ==> w.s.legacy == old(w.s).legacy
    ensures w.rely.alone ==> SameRefs(old(w.s), w.s)
    ensures m.Some? ==> m.value !in w.s.landed
    ensures m.None? ==> w.s == old(w.s) && HeardIn(old(w.own), w.own, OfMint, Fault)
    ensures m.Some? ==>
      && |old(w.s).log| <= m.value < |w.s.log| && Acquisition(w.s, m.value, o, onto)
      && IsMarker(w.s.log, m.value) && w.s.log[m.value].body.kind.Claim? && m.value in w.s.expects
    ensures m.Some? && onto.None? ==> w.s.log[m.value].parents == {base}
  {
    hide Inv;
    hide Anc;
    hide Nearest;
    ghost var start := w.s;
    var epoch := if onto.Some? then w.s.log[onto.value].body.epoch + 1 else 1;
    var parent := if onto.Some? then onto.value else base;
    m := w.MintMarker(parent, Marker(Claim, epoch, o.holder, Written(o.lane)), onto, 0);
    assert m.None? ==> HeardAt(w.own, |w.own| - 1, OfMint, Fault);
    StillOnto(start, w.s, onto);
  }

  /** A fresh claim was minted on the base read at place i of the log, which has the local tip read after it. */
  ghost predicate ClaimedClean(own: seq<Deed>, i: nat, s: State, o: Opts, m: Id) {
    && m < |s.log| && i + 1 < |own| && own[i+1].Heard? && own[i+1].answer.Answer?
    && HeardAt(own, i + 1, OfCopy(OwnCopy(o)), own[i+1].answer)
    && exists base :: base in s.bases && s.log[m].parents == {base} && HeardAt(own, i, OfBase, Answer(Some(base))) &&
         (own[i+1].answer.tip.Some? ==> Anc(s.log, own[i+1].answer.tip.value, base))
  }

  lemma MintedClean(own: seq<Deed>, i: nat, s0: State, s: State, o: Opts, base: Id, local: Option<Id>, m: Id)
    requires Inv(s0) && Grows(s0, s) && base in s0.bases && m < |s.log| && s.log[m].parents == {base}
    requires HeardAt(own, i, OfBase, Answer(Some(base))) && HeardAt(own, i + 1, OfCopy(OwnCopy(o)), Answer(local))
    requires local.Some? ==> Anc(s0.log, local.value, base)
    ensures ClaimedClean(own, i, s, o, m)
  {
    if local.Some? { AncStable(s0.log, s.log, local.value, base); }
    hide Anc;
    hide Inv;
    assert base in s.bases;
  }

  lemma PlaceStill(own: seq<Deed>, own': seq<Deed>, i: nat, of: Subject, answer: Read)
    requires HeardAt(own, i, of, answer) && own <= own'
    ensures HeardAt(own', i, of, answer)
  {
  }

  /** A claim does its job: it mints nothing only for a reason it was told, and any marker it mints it pushes. */
  ghost predicate ClaimTold(a: seq<Deed>, b: seq<Deed>, s: State, o: Opts, rely: Rely, onto: bool, minted: Option<Id>,
                            r: Outcome)
  {
    if minted.Some? then PushTold(a, b, s, o, rely, minted.value, r)
    else r.Failed? && Unclaimed(a, b, o, onto, r.error)
  }

  lemma CleanStill(own: seq<Deed>, own': seq<Deed>, i: nat, s: State, s': State, o: Opts, m: Id)
    requires ClaimedClean(own, i, s, o, m) && own <= own' && Grows(s, s')
    ensures ClaimedClean(own', i, s', o, m)
  {
    var base :| base in s.bases && s.log[m].parents == {base} && HeardAt(own, i, OfBase, Answer(Some(base))) &&
      (own[i+1].answer.tip.Some? ==> Anc(s.log, own[i+1].answer.tip.value, base));
    if own[i+1].answer.tip.Some? { AncStable(s.log, s'.log, own[i+1].answer.tip.value, base); }
    hide Anc;
    assert base in s'.bases && HeardAt(own', i, OfBase, Answer(Some(base)));
  }

  /** The half of pushClaimMarker before the push. The local copy is checked against base only for a fresh claim,
    and read again before the mint. */
  method MintOnto(w: World, o: Opts, onto: Option<Id>) returns (m: Option<Id>, seen: Option<Id>, err: Option<Error>)
    requires w.Valid() && (onto.Some? ==> w.s.Fetchable(onto.value) && IsRelease(w.s.log, onto.value))
    modifies w`s, w`own
    ensures Acted(old(w.own), w.own, NOTHING.(mints := {onto}))
    ensures w.Valid() && Passed(w.rely, old(w.s), w.s) && (onto.Some? ==> onto.value < |w.s.log|)
    ensures w.rely.alone ==> SameRefs(old(w.s), w.s) && w.s.legacy == old(w.s).legacy
    ensures m.None? <==> err.Some?
    ensures err.Some? ==> Unclaimed(old(w.own), w.own, o, onto.Some?, err.value)
    ensures w.rely.alone && err.Some? ==>
      || (err == Some(GitFault) && HeardIn(old(w.own), w.own, OfMint, Fault))
      || (onto.None? && err.value.LocalDiverges? && TrulyDiverges(w.s, o, err.value))
    ensures m.Some? ==>
      && |old(w.s).log| <= m.value < |w.s.log| && m.value !in w.s.landed && Acquisition(w.s, m.value, o, onto)
      && w.s.log[m.value].body.Marker? && w.s.log[m.value].body.kind.Claim?
      && HeardIn(old(w.own), w.own, OfCopy(OwnCopy(o)), Answer(seen))
    ensures m.Some? && onto.None? ==> ClaimedClean(w.own, |old(w.own)|, w.s, o, m.value)
  {
    hide Inv;
    hide Anc;
    hide Nearest;
    hide Passed;
    hide Grows;
    hide Acted;
    hide Acquisition;
    hide ClaimedClean;
    hide HeardAt;
    hide HeardIn;
    hide Unclaimed;
    hide TrulyDiverges;
    ghost var start, own := w.s, w.own;
    var base, wrong, local := ClaimBase(w, o, onto.None?);
    m, seen, err := None, None, wrong;
    ghost var checked, checking := w.s, w.own;
    ActedWider(own, checking, NOTHING, NOTHING.(mints := {onto}));
    PassedGrows(w.rely, start, checked);
    StillOnto(start, checked, onto);
    if err.Some? {
      UnclaimedMeans(own, checking, o, onto.Some?, err.value);
      return;
    }
    seen := w.LocalTip(OwnCopy(o));
    ghost var read, reading := w.s, w.own;
    ReadThen(own, checking, reading, NOTHING);
    PassedGrows(w.rely, checked, read);
    PassedTrans(w.rely, start, checked, read);
    PassedGrows(w.rely, start, read);
    StillOnto(start, read, onto);
    m := MintClaim(w, o, onto, base);
    ReadThen(own, reading, w.own, NOTHING.(mints := {onto}));
    PassedGrows(w.rely, read, w.s);
    PassedTrans(w.rely, start, read, w.s);
    StillOnto(read, w.s, onto);
    ActedLonger(own, checking, NOTHING);
    ActedLonger(checking, reading, NOTHING);
    ActedLonger(reading, w.own, NOTHING.(mints := {onto}));
    if m.None? {
      HeardStill(own, reading, w.own, w.own, OfMint, Fault);
      MintFailed(own, w.own, o, onto.Some?);
      err := Some(GitFault);
      return;
    }
    JustHeard(own, checking, reading, OfCopy(OwnCopy(o)), Answer(seen));
    HeardStill(own, own, reading, w.own, OfCopy(OwnCopy(o)), Answer(seen));
    if onto.None? {
      GrowsTrans(checked, read, w.s);
      PlaceStill(checking, w.own, |own|, OfBase, Answer(Some(base)));
      PlaceStill(checking, w.own, |own| + 1, OfCopy(OwnCopy(o)), Answer(local));
      MintedClean(w.own, |own|, checked, w.s, o, base, local, m.value);
    }
  }

  /** pushClaimMarker: a claim on a view of base when the ref is absent, else on the
    release marker it stands at. */
  method PushClaim(w: World, o: Opts, onto: Option<Id>) returns (r: Outcome, ghost minted: Option<Id>)
    requires w.Valid() && OwnCopy(o) !in w.rely.forward
    requires onto.Some? ==> w.s.Fetchable(onto.value) && IsRelease(w.s.log, onto.value)
    modifies w`s, w`own
    ensures Acted(old(w.own), w.own, Marking(o, onto, minted))
    ensures w.Valid() && Passed(Loose(w.rely, OwnCopy(o)), old(w.s), w.s)
    ensures w.rely.alone ==> w.s.legacy == old(w.s).legacy
    ensures AcquireDone(old(w.s), w.s, o, onto, r, minted) && PushToldApart(w.s, w.own, r)
    ensures minted.Some? ==> IsMarker(w.s.log, minted.value) && w.s.log[minted.value].body.kind.Claim?
    // what it was told decides; with nobody else at work only a mint that failed, or for a fresh claim a local
    // tip that base has not, stops it
    ensures ClaimTold(old(w.own), w.own, w.s, o, w.rely, onto.Some?, minted, r)
    ensures w.rely.alone && minted.None? ==>
      || (r == Failed(GitFault) && HeardIn(old(w.own), w.own, OfMint, Fault))
      || (onto.None? && r.Failed? && r.error.LocalDiverges? && TrulyDiverges(w.s, o, r.error))
    ensures minted.Some? ==> MetAsRead(old(w.own), w.own, OwnCopy(o))
    // a fresh claim is minted on a value of base, and only when that has the local tip it read first
    ensures minted.Some? && onto.None? ==> ClaimedClean(w.own, |old(w.own)|, w.s, o, minted.value)
    ensures w.rely.alone && r.Won? ==> MovedTo(old(w.s), w.s, OwnCopy(o), r.grant.tip)
    ensures r.Failed? ==> Passed(w.rely, old(w.s), w.s)
  {
    hide Inv;
    hide Anc;
    hide Nearest;
    hide Passed;
    hide Grows;
    hide Acted;
    hide Acquisition;
    hide AcquireDone;
    hide MovedTo;
    hide MovesMet;
    hide ClaimedClean;
    hide HeardIn;
    hide PushTold;
    hide Unclaimed;
    hide MetAsRead;
    hide PushToldApart;
    hide TrulyDiverges;
    ghost var start, own := w.s, w.own;
    var m, seen, err := MintOnto(w, o, onto);
    minted := m;
    ghost var mint, minting := w.s, w.own;
    MintedOnly(own, minting, o, onto, m, None);
    PassedLoose(w.rely, OwnCopy(o), start, mint);
    PassedGrows(w.rely, start, mint);
    if m.None? {
      UnclaimedMeans(own, minting, o, onto.Some?, err.value);
      NothingAcquired(start, mint, o, onto, err.value);
      NoneAcquired(mint, minting, err.value);
      return Failed(err.value), None;
    }
    r := PushAcquisition(w, o, onto, m.value, seen, start);
    ActedLonger(own, minting, NOTHING.(mints := {onto}));
    ActedLonger(minting, w.own, Marking(o, onto, m));
    ActedThen(own, minting, w.own, Marking(o, onto, m), Marking(o, onto, m), Marking(o, onto, m));
    PushEarlier(own, minting, w.own, w.s, o, w.rely, m.value, r);
    MetThen(own, minting, w.own, OwnCopy(o), seen, NOTHING.(mints := {onto}));
    PassedGrows(Loose(w.rely, OwnCopy(o)), mint, w.s);
    AfterPush(w.rely, OwnCopy(o), start, mint, w.s, r);
    assert w.s.log[m.value] == mint.log[m.value];
    if w.rely.alone && r.Won? {
      WonIsMinted(start, w.s, o, onto, r, m);
      MovedAmong(start, mint, w.s, w.s, OwnCopy(o), m.value);
    }
    if onto.None? { CleanStill(minting, w.own, |own|, mint, w.s, o, m.value); }
  }

  lemma WonIsMinted(a: State, b: State, o: Opts, over: Option<Id>, r: Outcome, minted: Option<Id>)
    requires AcquireDone(a, b, o, over, r, minted)
    ensures r.Won? ==> minted == Some(r.grant.tip)
  {
    hide Acquisition;
  }

  lemma UnclaimedMeans(a: seq<Deed>, b: seq<Deed>, o: Opts, onto: bool, e: Error)
    requires Unclaimed(a, b, o, onto, e)
    ensures e.GitFault? || (e.LocalDiverges? && !onto)
  {
  }

  lemma MintFailed(a: seq<Deed>, b: seq<Deed>, o: Opts, onto: bool)
    requires HeardIn(a, b, OfMint, Fault)
    ensures Unclaimed(a, b, o, onto, GitFault)
  {
  }

  lemma NothingAcquired(a: State, b: State, o: Opts, over: Option<Id>, e: Error)
    requires !e.HeldBy?
    ensures AcquireDone(a, b, o, over, Failed(e), None)
  {
  }

  lemma StillOnto(a: State, b: State, onto: Option<Id>)
    requires Grows(a, b) && (onto.Some? ==> a.Fetchable(onto.value) && IsRelease(a.log, onto.value))
    ensures onto.Some? ==>
      b.Fetchable(onto.value) && IsRelease(b.log, onto.value) && b.log[onto.value] == a.log[onto.value]
  {
  }

  /** From place i of its log a call fetched the tip and then read whether its commit is a release. */
  ghost predicate ReleaseRead(own: seq<Deed>, i: nat, clone: nat, tip: Id, yes: bool) {
    i < |own| && Fetches(own[i], clone) && HeardAt(own, i + 1, OfRelease(tip), Yes(yes, tip))
  }

  /** An acquire of a ref that stands does its job: the tip is fetched and its commit read; a release is claimed
    over, and anything else refused by name. */
  ghost predicate OverTold(a: seq<Deed>, b: seq<Deed>, s: State, o: Opts, rely: Rely, tip: Id, minted: Option<Id>,
                           r: Outcome)
  {
    exists yes :: ReleaseRead(b, |a|, o.clone, tip, yes) &&
      if yes then ClaimTold(a, b, s, o, rely, true, minted, r)
      else minted.None? && r.Failed? && r.error.HeldBy? && r.error.tip == tip && HeldRight(b, |a|, s, o, rely, r.error)
  }

  /** An acquire does its job: it first reads the ref, and what it reads and is told decides the rest. */
  ghost predicate AcquireTold(a: seq<Deed>, b: seq<Deed>, s: State, o: Opts, rely: Rely, read: Read, minted: Option<Id>,
                              r: Outcome)
  {
    && FirstHeard(a, b, OfWork, read)
    && if read.Answer? && read.tip.Some?
       then OverTold(b[..|a|+1], b, s, o, rely, read.tip.value, minted, r)
       else ClaimTold(b[..|a|+1], b, s, o, rely, false, minted, r)
  }

  /** Acquire: an absent ref fresh, a ref standing at a release marker one epoch on,
    and nothing else. An unreadable remote reads as absent, and the CAS decides. */
  method Acquire(w: World, o: Opts) returns (r: Outcome, ghost over: Option<Id>, ghost minted: Option<Id>,
                                          read: Read)
    requires w.Valid() && OwnCopy(o) !in w.rely.forward
    modifies w`s, w`own
    ensures Acted(old(w.own), w.own, Marking(o, over, minted))
    ensures w.Valid() && Passed(Loose(w.rely, OwnCopy(o)), old(w.s), w.s)
    ensures w.rely.alone ==> w.s.legacy == old(w.s).legacy
    ensures AcquireDone(old(w.s), w.s, o, over, r, minted) && PushToldApart(w.s, w.own, r)
    // its first act is to read the ref, what it read was there, and that and what it is told then decides
    ensures FirstHeard(old(w.own), w.own, OfWork, read)
    ensures AcquireTold(old(w.own), w.own, w.s, o, w.rely, read, minted, r)
    // with nobody else at work, only a mint that failed stops a claim over a release, and only that or a local tip
    // that base has not a claim of an absent ref
    ensures w.rely.alone && read.Answer? && read.tip.Some? && IsRelease(w.s.log, read.tip.value) && minted.None? ==>
      r == Failed(GitFault) && HeardIn(old(w.own), w.own, OfMint, Fault)
    ensures w.rely.alone && read.Answer? && read.tip.None? && minted.None? ==>
      || (r == Failed(GitFault) && HeardIn(old(w.own), w.own, OfMint, Fault))
      || (r.Failed? && r.error.LocalDiverges? && TrulyDiverges(w.s, o, r.error))
    ensures minted.Some? ==> MetAsRead(old(w.own), w.own, OwnCopy(o))
    ensures read.Answer? ==> SeenBetween(old(w.s), w.s, read.tip)
    // what it read decides: an absent or unreadable ref is claimed fresh, a release is claimed over, and any
    // other tip is refused by name
    ensures minted.Some? ==> over == (if read.Answer? then read.tip else None)
    ensures read.Answer? && read.tip.Some? && !IsRelease(w.s.log, read.tip.value) ==>
      minted.None? && r.Failed? && r.error.HeldBy? && r.error.tip == read.tip.value
    ensures over.Some? && minted.Some? ==> IsRelease(w.s.log, over.value)
    ensures minted.Some? ==> IsMarker(w.s.log, minted.value) && w.s.log[minted.value].body.kind.Claim?
    ensures minted.Some? && over.None? ==> ClaimedClean(w.own, |old(w.own)| + 1, w.s, o, minted.value)
    ensures w.rely.alone && r.Won? ==> MovedTo(old(w.s), w.s, OwnCopy(o), r.grant.tip)
    ensures r.Failed? ==> Passed(w.rely, old(w.s), w.s)
  {
    hide Inv;
    hide Anc;
    hide Nearest;
    hide Passed;
    hide Grows;
    hide Acted;
    hide Acquisition;
    hide TakenOver;
    hide MovedTo;
    hide ClaimedClean;
    hide HeardIn;
    hide OverTold;
    hide ClaimTold;
    hide MetAsRead;
    hide TrulyDiverges;
    hide PushToldApart;
    hide AcquireDone;
    ghost var start, own := w.s, w.own;
    over, minted := None, None;
    read := w.LsRemote();
    ghost var seen, seeing := w.s, w.own;
    PassedGrows(w.rely, start, seen);
    SeenNow(start, seen);
    if read == Fault || read.tip.None? {
      r, minted := PushClaim(w, o, None);
      AfterPush(w.rely, OwnCopy(o), start, seen, w.s, r);
      LaterDone(start, seen, w.s, o, over, r, minted);
    } else {
      over := read.tip;
      r, minted := AcquireOver(w, o, read.tip.value);
      WonIsMinted(seen, w.s, o, over, r, minted);
      if w.rely.alone && r.Won? { MovedAmong(start, seen, w.s, w.s, OwnCopy(o), r.grant.tip); }
      AfterPush(w.rely, OwnCopy(o), start, seen, w.s, r);
      LaterDone(start, seen, w.s, o, over, r, minted);
    }
    PassedGrows(Loose(w.rely, OwnCopy(o)), seen, w.s);
    if read.Answer? { SeenLater(start, seen, w.s, read.tip); }
    ActedLonger(seeing, w.own, Marking(o, over, minted));
    FirstStill(own, seeing, w.own, OfWork, read);
    ReadThen(own, seeing, w.own, Marking(o, over, minted));
    assert w.own[..|own| + 1] == seeing;
    if minted.Some? { MetLonger(own, seeing, w.own, OwnCopy(o), NOTHING); }
    if HeardIn(seeing, w.own, OfMint, Fault) { HeardStill(own, seeing, w.own, w.own, OfMint, Fault); }
  }

  /** The half of Acquire that found the ref standing at a tip: its objects are fetched first. */
  method AcquireOver(w: World, o: Opts, tip: Id) returns (r: Outcome, ghost minted: Option<Id>)
    requires w.Valid() && OwnCopy(o) !in w.rely.forward && w.s.Work() == Some(tip)
    modifies w`s, w`own
    ensures Acted(old(w.own), w.own, Marking(o, Some(tip), minted))
    ensures w.Valid() && Passed(Loose(w.rely, OwnCopy(o)), old(w.s), w.s)
    ensures w.rely.alone ==> w.s.legacy == old(w.s).legacy
    ensures AcquireDone(old(w.s), w.s, o, Some(tip), r, minted) && PushToldApart(w.s, w.own, r)
    ensures !IsRelease(w.s.log, tip) ==> minted.None? && r.Failed? && r.error.HeldBy? && r.error.tip == tip
    ensures OverTold(old(w.own), w.own, w.s, o, w.rely, tip, minted, r)
    ensures w.rely.alone && IsRelease(w.s.log, tip) && minted.None? ==>
      r == Failed(GitFault) && HeardIn(old(w.own), w.own, OfMint, Fault)
    ensures minted.Some? ==> MetAsRead(old(w.own), w.own, OwnCopy(o))
    ensures minted.Some? ==>
      IsRelease(w.s.log, tip) && IsMarker(w.s.log, minted.value) && w.s.log[minted.value].body.kind.Claim?
    ensures w.rely.alone && r.Won? ==> MovedTo(old(w.s), w.s, OwnCopy(o), r.grant.tip)
    ensures r.Failed? ==> Passed(w.rely, old(w.s), w.s)
  {
    hide Inv;
    hide Anc;
    hide Nearest;
    hide Passed;
    hide Grows;
    hide Acted;
    hide AcquireDone;
    hide MovedTo;
    hide HeardIn;
    hide HeldRight;
    hide ClaimTold;
    hide MetAsRead;
    hide PushToldApart;
    hide OverTold;
    hide ReleaseRead;
    hide TrulyDiverges;
    hide Fetches;
    ghost var start, own, f := w.s, w.own, NOTHING.(fetches := {o.clone});
    WorkFetchable(start);
    var ok := w.FetchWork(o.clone);
    ghost var fetched, fetching := w.s, w.own;
    PassedGrows(w.rely, start, fetched);
    var free := w.ReadsRelease(tip);
    ghost var reading := w.own;
    ReadThen(own, fetching, reading, f);
    if !free {
      minted := None;
      SeenStable(start, start, fetched) by { GrowsSelf(start); }
      var e := HeldError(w, o, tip);
      PassedGrows(w.rely, fetched, w.s);
      SeenLater(start, fetched, w.s, Some(tip));
      PassedTrans(w.rely, start, fetched, w.s);
      PassedLoose(w.rely, OwnCopy(o), start, w.s);
      ActedThen(own, reading, w.own, f, f, Marking(o, Some(tip), None));
      ActedLonger(reading, w.own, f);
      HeldEarlier(w.own, |reading|, |own|, w.s, o, w.rely, e);
      r := Failed(e);
      HeldOver(own, fetching, reading, w.own, start, w.s, o, w.rely, tip, e);
    } else {
      r, minted := PushClaim(w, o, Some(tip));
      PassedGrows(Loose(w.rely, OwnCopy(o)), fetched, w.s);
      StillOnto(fetched, w.s, Some(tip));
      ActedThen(own, reading, w.own, f, Marking(o, Some(tip), minted), Marking(o, Some(tip), minted));
      ActedLonger(reading, w.own, Marking(o, Some(tip), minted));
      WonIsMinted(fetched, w.s, o, Some(tip), r, minted);
      if w.rely.alone && r.Won? {
        FetchedRefs(start, fetched);
        MovedAmong(start, fetched, w.s, w.s, OwnCopy(o), r.grant.tip);
      }
      AfterPush(w.rely, OwnCopy(o), start, fetched, w.s, r);
      LaterDone(start, fetched, w.s, o, Some(tip), r, minted);
      ClaimedOver(own, fetching, reading, w.own, w.s, o, w.rely, tip, minted, r);
      if minted.Some? { MetLonger(own, reading, w.own, OwnCopy(o), f); }
      if HeardIn(reading, w.own, OfMint, Fault) { HeardStill(own, reading, w.own, w.own, OfMint, Fault); }
    }
  }

  lemma HeldOver(a: seq<Deed>, b: seq<Deed>, c: seq<Deed>, d: seq<Deed>, s0: State, s: State, o: Opts, rely: Rely,
                 tip: Id, e: Error)
    requires a <= b < c <= d && |b| == |a| + 1 && Fetches(b[|a|], o.clone)
    requires c[|b|].Heard? && c[|b|].of == OfRelease(tip) && c[|b|].answer == Yes(false, tip)
    requires e.HeldBy? && e.tip == tip && HeldRight(d, |a|, s, o, rely, e) && SeenBetween(s0, s, Some(tip))
    ensures OverTold(a, d, s, o, rely, tip, None, Failed(e)) && AcquireDone(s0, s, o, Some(tip), Failed(e), None)
    ensures PushToldApart(s, d, Failed(e))
  {
    hide HeldRight;
    hide SeenBetween;
    hide Fetches;
    assert ReleaseRead(d, |a|, o.clone, tip, false);
  }

  lemma ClaimedOver(a: seq<Deed>, b: seq<Deed>, c: seq<Deed>, d: seq<Deed>, s: State, o: Opts, rely: Rely, tip: Id,
                    minted: Option<Id>, r: Outcome)
    requires a <= b < c <= d && |b| == |a| + 1 && Fetches(b[|a|], o.clone)
    requires c[|b|].Heard? && c[|b|].of == OfRelease(tip) && c[|b|].answer == Yes(true, tip)
    requires ClaimTold(c, d, s, o, rely, true, minted, r)
    ensures OverTold(a, d, s, o, rely, tip, minted, r)
  {
    hide Fetches;
    assert ReleaseRead(d, |a|, o.clone, tip, true);
    if minted.Some? {
      PushEarlier(a, c, d, s, o, rely, minted.value, r);
    } else {
      UnclaimedStill(a, c, d, d, o, true, r.error);
    }
  }

  lemma LaterDone(a: State, b: State, c: State, o: Opts, over: Option<Id>, r: Outcome, minted: Option<Id>)
    requires Grows(a, b) && AcquireDone(b, c, o, over, r, minted)
    ensures AcquireDone(a, c, o, over, r, minted)
  {
    hide Acquisition;
    if r.Failed? && r.error.HeldBy? {
      var i: nat :| |b.history| <= i + 1 && i < |c.history| && c.history[i] == Some(r.error.tip);
      assert |a.history| <= i + 1;
    }
  }
}
