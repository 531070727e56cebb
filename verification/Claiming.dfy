/** Which transition a claim runs, and on which proof.

    The gather says whether the plan is held, whether its window matured and whether its bound session is
    gone; herdr says whether an agent is still there. Everything that moves a ref happens behind one of
    the transitions, so what is stated here is which of them may run and over what. */
module Claiming {
  import opened Wrappers
  import opened Commits
  import opened Machine
  import opened Invariants
  import opened History
  import opened World
  import opened Pushes
  import opened Leases
  import opened Acquiring
  import opened Tokens
  import D = Decorated
  import W = Watching
  import Windows

  /** The hold as the gather read it; no tip means no work ref. */
  datatype Hold = Hold(held: bool, stale: bool, dead: bool, tip: Option<Id>, decorated: map<string, Id>)

  /** What herdr answers: whether the session a marker names is live, and whether an agent stands on one
      of the decorated branches. */
  datatype Presence = Presence(session: Id -> bool, onBranch: bool)

  datatype Verdict =
    | Ran(outcome: Outcome)
    | RanDecorated(result: D.Result)
    | Vetoed(renewed: bool)

  /** Held, and either its window matured or its session is gone. */
  ghost predicate Takeable(h: Hold) {
    h.held && (h.stale || h.dead)
  }

  /** The identity a marker carries, for a beat on its holder's behalf. */
  function HolderOf(o: Opts, log: Log, x: Id): Opts
    requires IsMarker(log, x)
  {
    Opts(o.clone, log[x].body.holder, log[x].body.lane)
  }

  /** A beat made for a holder leaves the lease its holder's: over exactly the tip observed, under the
      holder and lane its own marker names. */
  ghost predicate BeatForItsHolder(s: State, m: Id, o: Opts, from: Id) {
    exists x: Id :: Nearest(s.log, from, x) && IsMarker(s.log, x) &&
      Renewal(s, m, Beat, Opts(o.clone, s.log[x].body.holder, s.log[x].body.lane), from)
  }

  /** The beat did its job as the holder that the marker x names: it ended as it was told, and renewed exactly
      when it won. */
  ghost predicate HolderBeat(a: seq<Deed>, b: seq<Deed>, log: Log, o: Opts, x: Id, from: Id, minted: Option<Id>,
                             renewed: bool)
  {
    IsMarker(log, x) &&
    var holder := Opts(o.clone, log[x].body.holder, log[x].body.lane);
    && Acted(a, b, Marking(holder, Some(from), minted))
    && exists r :: Told(a, b, holder, from, false, minted, r) && (renewed <==> r.Won?)
  }

  /** beatForHolder. */
  method BeatForHolder(w: World, o: Opts, x: Id, from: Id) returns (renewed: bool, ghost minted: Option<Id>)
    requires w.Valid() && w.s.Fetchable(from) && Nearest(w.s.log, from, x)
    modifies w`s, w`own
    ensures HolderBeat(old(w.own), w.own, w.s.log, o, x, from, minted, renewed)
    ensures w.Valid() && Grows(old(w.s), w.s)
    ensures minted.Some? ==> |old(w.s).log| <= minted.value && BeatForItsHolder(w.s, minted.value, o, from)
    ensures renewed ==> minted.Some? && minted.value in w.s.landed
    ensures !renewed ==> Passed(w.rely, old(w.s), w.s)
  {
    hide Inv;
    hide Anc;
    hide Renewal;
    hide Acted;
    hide Relayed;
    hide Told;
    hide TrulyRefused;
    hide MovesMet;
    hide PushToldApart;
    ghost var start := w.s;
    NearestBelow(start.log, start.log, from, x);
    var r;
    ghost var seen;
    r, minted, seen := BeatFor(w, HolderOf(o, w.s.log, x), from);
    renewed := r.Won?;
    NearestBelow(start.log, w.s.log, from, x);
    assert w.s.log[x] == start.log[x];
  }

  /** A takeover tried, or a plain acquire; over is what the marker it may leave replaces. */
  ghost predicate RanAs(a: State, b: State, o: Opts, h: Hold, r: Outcome, over: Option<Id>, minted: Option<Id>) {
    && AcquireDone(a, b, o, over, r, minted)
    && (minted.Some? && b.log[minted.value].body.kind.Takeover? ==> Takeable(h) && over == h.tip && over.Some?)
    && (minted.Some? && Takeable(h) ==> b.log[minted.value].body.kind.Takeover?)
    && (minted.Some? && b.log[minted.value].body.kind.Claim? ==> over.None? || IsRelease(b.log, over.value))
  }

  /** The tip a lost takeover read again, if it read one. */
  function Reread(v: Verdict): Option<Id> {
    match v
    case Ran(Failed(HeldBy(tip, _, _, _))) => Some(tip)
    case RanDecorated(result) =>
      (match result.why
       case Some(Lost(tip)) => Some(tip)
       case Some(Acquire(HeldBy(tip, _, _, _))) => Some(tip)
       case _ => None)
    case _ => None
  }

  /** A takeover lost, to this tip. */
  ghost predicate LostTo(v: Verdict, tip: Id) {
    match v
    case Ran(r) => r.Failed? && r.error.HeldBy? && r.error.tip == tip
    case RanDecorated(result) =>
      result.why.Some? &&
      (result.why.value == D.Lost(tip) ||
       (result.why.value.Acquire? && result.why.value.error.HeldBy? && result.why.value.error.tip == tip))
    case Vetoed(_) => false
  }

  /** Only this plan's window changes, and only when a takeover lost to a tip it read: then it starts over
      on that tip. */
  ghost predicate WindowsAfter(a: W.Stored, b: W.Stored, h: Hold, v: Verdict, key: W.Key, name: Id -> string,
                               now: int)
  {
    && (forall k | k != key :: W.Lookup(b, k) == W.Lookup(a, k))
    && (forall tip: Id | Takeable(h) && LostTo(v, tip) ::
          W.Lookup(b, key) == Some(Windows.Observe(Windows.Zero(), Some(name(tip)), now, W.DEFAULT_GAP)))
    && ((Takeable(h) ==> forall tip: Id :: !LostTo(v, tip)) ==> W.Lookup(b, key) == W.Lookup(a, key))
  }

  method Reset(store: W.Store, h: Hold, v: Verdict, key: W.Key, name: Id -> string, now: int)
    requires Takeable(h)
    modifies store`state
    ensures WindowsAfter(old(store.state), store.state, h, v, key, name, now)
  {
    var tip := Reread(v);
    assert forall t: Id :: LostTo(v, t) <==> tip == Some(t);
    if tip.Some? { store.ResetWindow(key, name(tip.value), now); }
  }

  /** Before it did anything but read and fetch, the call read the marker at the tip, fetched for if need be; and
      it vetoed exactly when the session bound there is live. */
  ghost predicate VetoReadAt(a: seq<Deed>, b: seq<Deed>, hi: nat, clone: nat, tip: Id, live: Presence, x: Option<Id>,
                             vetoed: bool)
  {
    && hi <= |b| && Acted(a, b[..hi], NOTHING.(fetches := {clone})) && MarkerTold(b, |a|, hi, clone, tip, x)
    && (vetoed <==> x.Some? && live.session(x.value))
  }

  ghost predicate VetoRead(a: seq<Deed>, b: seq<Deed>, clone: nat, tip: Id, live: Presence, vetoed: bool) {
    exists hi: nat, x: Option<Id> :: VetoReadAt(a, b, hi, clone, tip, live, x, vetoed)
  }

  /** And then it did its job: vetoed, it beat for the holder that marker names, and otherwise it took over. */
  ghost predicate VetoSettled(a: seq<Deed>, b: seq<Deed>, s: State, o: Opts, rely: Rely, tip: Id, live: Presence,
                              v: Verdict, minted: Option<Id>)
  {
    exists hi: nat, x: Option<Id> :: VetoReadAt(a, b, hi, o.clone, tip, live, x, v.Vetoed?) &&
      match v
      case Vetoed(renewed) => x.Some? && HolderBeat(b[..hi], b, s.log, o, x.value, tip, minted, renewed)
      case Ran(r) => TakeoverTold(b[..hi], b, s, o, rely, tip, minted, r)
      case RanDecorated(_) => false
  }

  lemma VetoRanOn(a: seq<Deed>, b: seq<Deed>, c: seq<Deed>, lo: nat, o: Opts, tip: Id, live: Presence, x: Option<Id>)
    requires Acted(a, b, NOTHING.(fetches := {o.clone})) && b <= c
    requires MarkerTold(b, lo, |b|, o.clone, tip, x) && |a| <= lo
    ensures VetoReadAt(a, c, |b|, o.clone, tip, live, x, x.Some? && live.session(x.value))
  {
    hide Acted;
    assert c[..|b|] == b;
    MarkerOn(b, c, lo, |a|, |b|, o.clone, tip, x);
  }

  lemma MarkerOn(b: seq<Deed>, c: seq<Deed>, lo: nat, lo': nat, hi: nat, clone: nat, tip: Id, x: Option<Id>)
    requires MarkerTold(b, lo, hi, clone, tip, x) && b <= c && lo' <= lo
    ensures MarkerTold(c, lo', hi, clone, tip, x)
  {
  }

  /** mintOrTakeOver. A takeover runs only of a held plan whose window matured or whose session is gone,
      on exactly the tip observed and with no live agent; a live one is left its lease, renewed for it. */
  method MintOrTakeOver(w: World, store: W.Store, o: Opts, h: Hold, live: Presence, key: W.Key,
                        name: Id -> string, now: int)
    returns (v: Verdict, ghost over: Option<Id>, ghost minted: Option<Id>, ghost ran: D.Progress)
    requires w.Valid() && OwnCopy(o) !in w.rely.forward
    requires h.tip.Some? ==> w.s.Fetchable(h.tip.value)
    requires forall b | b in h.decorated :: Copy(o.clone, b) !in w.rely.forward
    modifies w`s, w`own, store`state
    ensures w.Valid() && Grows(old(w.s), w.s)
    ensures v.Ran? ==> RanAs(old(w.s), w.s, o, h, v.outcome, over, minted) && PushToldApart(w.s, w.own, v.outcome)
    // a decorated hold is retired and acquired as its takeover promises
    ensures v.RanDecorated? <==> Takeable(h) && h.tip.None? && h.decorated != map[] && !live.onBranch
    ensures v.RanDecorated? ==>
      D.DecoratedDone(old(w.s), w.s, old(w.own), w.own, o, h.decorated, w.rely, v.result, ran)
    ensures v.RanDecorated? && w.rely.alone ==> D.DecoratedAlone(old(w.s), w.s, h.decorated, v.result, ran)
    // anything else mints, lands and saves one marker at most, over one value
    ensures v.Ran? ==> Acted(old(w.own), w.own, Marking(o, over, minted))
    // a plan it may not take over is acquired
    ensures !Takeable(h) ==>
      v.Ran? && exists read :: AcquireTold(old(w.own), w.own, w.s, o, w.rely, read, minted, v.outcome)
    ensures v.Vetoed? && h.tip.None? <==> Takeable(h) && h.tip.None? && h.decorated != map[] && live.onBranch
    ensures Takeable(h) && h.tip.None? && h.decorated == map[] ==> v == Ran(Failed(NoMarker)) && minted.None?
    // a work ref is taken over only when the session its marker names was read and is not live, and then it is;
    // a live one is renewed for its holder
    ensures Takeable(h) && h.tip.Some? ==>
      VetoSettled(old(w.own), w.own, w.s, o, w.rely, h.tip.value, live, v, minted)
    ensures w.rely.alone && Takeable(h) && h.tip.Some? && minted.None? && v == Ran(Failed(NoMarker)) ==>
      forall y: Id :: !Nearest(w.s.log, h.tip.value, y)
    ensures v.Vetoed? && h.tip.Some? ==> exists x: Id :: Nearest(w.s.log, h.tip.value, x) && live.session(x)
    ensures v.Vetoed? && h.tip.None? ==> w.own == old(w.own) && minted.None? && !v.renewed
    ensures v.Vetoed? && minted.Some? ==> h.tip.Some? && BeatForItsHolder(w.s, minted.value, o, h.tip.value)
    ensures v.Vetoed? ==> (v.renewed ==> minted.Some? && minted.value in w.s.landed)
    ensures WindowsAfter(old(store.state), store.state, h, v, key, name, now)
  {
    hide Inv;
    hide Anc;
    hide Nearest;
    hide Passed;
    hide Grows;
    hide Acquisition;
    hide AcquireDone;
    hide BeatForItsHolder;
    hide W.Lookup;
    hide Acted;
    hide VetoSettled;
    hide AcquireTold;
    hide TrulyDiverges;
    hide MetAsRead;
    hide HeardIn;
    hide PushToldApart;
    hide D.DecoratedDone;
    hide D.DecoratedAlone;
    hide ClaimedClean;
    hide FirstHeard;
    hide SeenBetween;
    ghost var start := w.s;
    ran := D.Progress(false, [], map[], 0, 0, None, None);
    if !h.held || (!h.stale && !h.dead) {
      var r, read;
      r, over, minted, read := Acquiring.Acquire(w, o);
      PassedGrows(Loose(w.rely, OwnCopy(o)), start, w.s);
      AcquiredAs(start, w.s, o, h, r, over, minted);
      return Ran(r), over, minted, ran;
    }
    over, minted := h.tip, None;
    if h.tip.None? && h.decorated != map[] {
      GrowsSelf(start);
      if live.onBranch {
        return Vetoed(false), over, None, ran;
      }
      var result;
      result, ran := D.TakeoverDecorated(w, o, h.decorated);
      v := RanDecorated(result);
    } else if h.tip.None? {
      FetchInVain(w, o);
      NothingRan(start, w.s, w.own, o, h);
      v := Ran(Failed(NoMarker));
    } else {
      v, minted := TakeOverOrVeto(w, o, h, live);
      over := h.tip;
    }
    Reset(store, h, v, key, name, now);
  }

  /** A held plan with neither a work ref nor decorated branches: the veto and the takeover each look for a
      marker at no tip, and fetch before they give up. */
  method FetchInVain(w: World, o: Opts)
    requires w.Valid()
    modifies w`s, w`own
    ensures Acted(old(w.own), w.own, Marking(o, None, None)) && w.Valid() && Grows(old(w.s), w.s)
  {
    hide Inv;
    hide Acted;
    ghost var start, own, f := w.s, w.own, NOTHING.(fetches := {o.clone});
    var ok := w.FetchWork(o.clone);
    ghost var fetched, fetching := w.s, w.own;
    ok := w.FetchWork(o.clone);
    PassedGrows(w.rely, start, fetched);
    PassedGrows(w.rely, fetched, w.s);
    GrowsTrans(start, fetched, w.s);
    ActedThen(own, fetching, w.own, f, f, Marking(o, None, None));
  }

  lemma NothingRan(a: State, b: State, own: seq<Deed>, o: Opts, h: Hold)
    ensures RanAs(a, b, o, h, Failed(NoMarker), h.tip, None) && PushToldApart(b, own, Failed(NoMarker))
  {
  }

  lemma AcquiredAs(a: State, b: State, o: Opts, h: Hold, r: Outcome, over: Option<Id>, minted: Option<Id>)
    requires AcquireDone(a, b, o, over, r, minted)
    requires over.Some? && minted.Some? ==> IsRelease(b.log, over.value)
    requires !Takeable(h) && (minted.Some? ==> b.log[minted.value].body.kind.Claim?)
    ensures RanAs(a, b, o, h, r, over, minted)
  {
  }

  /** The marker at the observed tip names a session: if it is live the takeover is refused and the lease
      renewed for its holder, else the takeover runs. */
  method TakeOverOrVeto(w: World, o: Opts, h: Hold, live: Presence) returns (v: Verdict, ghost minted: Option<Id>)
    requires w.Valid() && OwnCopy(o) !in w.rely.forward && Takeable(h) && h.tip.Some? && w.s.Fetchable(h.tip.value)
    modifies w`s, w`own
    ensures VetoSettled(old(w.own), w.own, w.s, o, w.rely, h.tip.value, live, v, minted)
    ensures v.Ran? ==> Acted(old(w.own), w.own, Marking(o, h.tip, minted))
    ensures w.rely.alone && minted.None? && v == Ran(Failed(NoMarker)) ==>
      forall y: Id :: !Nearest(w.s.log, h.tip.value, y)
    ensures w.Valid() && Grows(old(w.s), w.s) && !v.RanDecorated?
    ensures v.Ran? ==> RanAs(old(w.s), w.s, o, h, v.outcome, h.tip, minted) && PushToldApart(w.s, w.own, v.outcome)
    ensures v.Vetoed? && minted.Some? ==> BeatForItsHolder(w.s, minted.value, o, h.tip.value)
    ensures v.Vetoed? ==> (v.renewed ==> minted.Some? && minted.value in w.s.landed)
    ensures v.Vetoed? ==> exists x: Id :: Nearest(w.s.log, h.tip.value, x) && live.session(x)
  {
    hide Inv;
    hide Anc;
    hide Nearest;
    hide Passed;
    hide Grows;
    hide Acquisition;
    hide Acted;
    hide HolderBeat;
    hide VetoReadAt;
    hide TakeoverTold;
    hide MarkerTold;
    hide BeatForItsHolder;
    hide AcquireDone;
    hide PushToldApart;
    hide MetAsRead;
    hide VetoSettled;
    hide RanAs;
    hide Renewal;
    ghost var start, own, f := w.s, w.own, NOTHING.(fetches := {o.clone});
    var x := w.FetchedMarker(o.clone, h.tip.value);
    ghost var asked, asking := w.s, w.own;
    PassedGrows(w.rely, start, asked);
    if x.Some? && live.session(x.value) {
      var renewed;
      NearestBelow(asked.log, asked.log, h.tip.value, x.value);
      renewed, minted := BeatForHolder(w, o, x.value, h.tip.value);
      BeatOn(asking, w.own, w.s.log, o, x.value, h.tip.value, minted, renewed);
      VetoRanOn(own, asking, w.own, |own|, o, h.tip.value, live, x);
      GrowsTrans(start, asked, w.s);
      StillNearest(asked, w.s, h.tip.value, x.value);
      v := Vetoed(renewed);
      WasVetoed(own, asking, w.own, w.s, o, w.rely, h.tip.value, live, x, minted, renewed);
    } else {
      var r;
      r, minted := Acquiring.Takeover(w, o, h.tip.value);
      ActedLonger(asking, w.own, Marking(o, h.tip, minted));
      VetoRanOn(own, asking, w.own, |own|, o, h.tip.value, live, x);
      ActedThen(own, asking, w.own, f, Marking(o, h.tip, minted), Marking(o, h.tip, minted));
      PassedGrows(Loose(w.rely, OwnCopy(o)), asked, w.s);
      GrowsTrans(start, asked, w.s);
      TookOver(start, asked, w.s, o, h, r, minted);
      v := Ran(r);
      WasTaken(own, asking, w.own, w.s, o, w.rely, h.tip.value, live, x, minted, r);
    }
  }

  lemma WasVetoed(a: seq<Deed>, b: seq<Deed>, c: seq<Deed>, s: State, o: Opts, rely: Rely, tip: Id, live: Presence,
                  x: Option<Id>, minted: Option<Id>, renewed: bool)
    requires VetoReadAt(a, c, |b|, o.clone, tip, live, x, true) && b <= c && x.Some?
    requires HolderBeat(b, c, s.log, o, x.value, tip, minted, renewed)
    ensures VetoSettled(a, c, s, o, rely, tip, live, Vetoed(renewed), minted)
  {
    hide VetoReadAt;
    hide HolderBeat;
    var v := Vetoed(renewed);
    assert c[..|b|] == b && VetoReadAt(a, c, |b|, o.clone, tip, live, x, v.Vetoed?);
  }

  lemma WasTaken(a: seq<Deed>, b: seq<Deed>, c: seq<Deed>, s: State, o: Opts, rely: Rely, tip: Id, live: Presence,
                 x: Option<Id>, minted: Option<Id>, r: Outcome)
    requires VetoReadAt(a, c, |b|, o.clone, tip, live, x, false) && b <= c
    requires TakeoverTold(b, c, s, o, rely, tip, minted, r)
    ensures VetoSettled(a, c, s, o, rely, tip, live, Ran(r), minted)
  {
    hide VetoReadAt;
    hide TakeoverTold;
    var v := Ran(r);
    assert c[..|b|] == b && VetoReadAt(a, c, |b|, o.clone, tip, live, x, v.Vetoed?);
  }

  lemma BeatOn(a: seq<Deed>, b: seq<Deed>, log: Log, o: Opts, x: Id, from: Id, minted: Option<Id>, renewed: bool)
    requires HolderBeat(a, b, log, o, x, from, minted, renewed)
    ensures a <= b
  {
    hide Told;
    hide Allowed;
  }

  lemma StillNearest(a: State, b: State, tip: Id, x: Id)
    requires Nearest(a.log, tip, x) && Grows(a, b)
    ensures Nearest(b.log, tip, x)
  {
    hide Anc;
    NearestBelow(a.log, b.log, tip, x);
  }

  lemma TookOver(a: State, b: State, c: State, o: Opts, h: Hold, r: Outcome, minted: Option<Id>)
    requires Grows(a, b) && AcquireDone(b, c, o, h.tip, r, minted) && Takeable(h) && h.tip.Some?
    requires minted.Some? ==>
      minted.value < |c.log| && c.log[minted.value].body.Marker? && c.log[minted.value].body.kind.Takeover?
    ensures RanAs(a, c, o, h, r, h.tip, minted)
  {
    LaterDone(a, b, c, o, h.tip, r, minted);
    hide AcquireDone;
  }

  // ----- Resuming on the token -----

  /** From place i of its log on, OwnAdvance was answered so: no when the token was told not to be below the tip, or
      not to be a marker, or no marker was found at the tip, and otherwise by the marker found. */
  ghost predicate AdvanceRead(own: seq<Deed>, i: nat, log: Log, token: Id, tip: Id, yes: bool) {
    || (!yes && HeardAt(own, i, OfBelow(token, tip), Answer(None)))
    || (HeardAt(own, i, OfBelow(token, tip), Answer(Some(tip))) && Anc(log, token, tip) &&
        (|| (!yes && HeardAt(own, i + 1, OfMarked(token), Answer(None)))
         || (HeardAt(own, i + 1, OfMarked(token), Answer(Some(token))) &&
             exists x: Option<Id> ::
               HeardAt(own, i + 2, OfMarker(tip), Answer(x)) && (x.Some? ==> Nearest(log, tip, x.value)) &&
               (yes <==> x.Some? && Answers(log, token, tip, x.value)))))
  }

  /** OwnAdvance, as git answers it: no on any fault. */
  method ReadsOwnAdvance(w: World, token: Id, tip: Id) returns (yes: bool)
    modifies w`own
    ensures Acted(old(w.own), w.own, NOTHING)
    ensures AdvanceRead(w.own, |old(w.own)|, w.s.log, token, tip, yes)
    ensures yes ==> OwnAdvance(w.s.log, token, tip)
    // with nobody else at work, and every marker git may list first answering alike, it is the answer
    ensures w.rely.alone && OneAnswer(w.s.log, token, tip) ==> (yes <==> OwnAdvance(w.s.log, token, tip))
  {
    hide Anc;
    hide Acted;
    hide Nearest;
    yes := false;
    ghost var own := w.own;
    var below := w.IsAncestor(token, tip);
    ghost var asking := w.own;
    if !below { return; }
    var marked := w.ReadsMarker(token);
    ghost var marking := w.own;
    ReadThen(own, asking, marking, NOTHING);
    if !marked { return; }
    var x := w.LatestMarker(tip);
    ReadThen(own, marking, w.own, NOTHING);
    if x.Some? {
      NearestBelow(w.s.log, w.s.log, tip, x.value);
      var governing, owned := w.s.log[x.value].body, w.s.log[token].body;
      yes := !governing.kind.Release? && governing.epoch == owned.epoch && governing.holder == owned.holder;
      assert yes <==> Answers(w.s.log, token, tip, x.value);
    }
    assert HeardAt(w.own, |own|, OfBelow(token, tip), Answer(Some(tip)));
    assert HeardAt(w.own, |own| + 1, OfMarked(token), Answer(Some(token)));
    assert HeardAt(w.own, |own| + 2, OfMarker(tip), Answer(x));
  }

  lemma ProofStable(log: Log, more: Log, token: Id, tip: Id)
    requires TokenProves(log, token, tip) && log <= more
    ensures TokenProves(more, token, tip)
  {
    if token != tip {
      var x: Id :| Nearest(log, tip, x) && Answers(log, token, tip, x);
      AncStable(log, more, token, tip);
      hide Anc;
      NearestBelow(log, more, tip, x);
      assert more[x] == log[x] && more[token] == log[token];
      assert Answers(more, token, tip, x);
    }
  }

  lemma Proved(log: Log, token: Id, tip: Id)
    requires token == tip || OwnAdvance(log, token, tip)
    ensures TokenProves(log, token, tip)
  {
  }

  lemma AdvanceStill(own: seq<Deed>, own': seq<Deed>, i: nat, log: Log, more: Log, token: Id, tip: Id, yes: bool)
    requires AdvanceRead(own, i, log, token, tip, yes) && own <= own' && log <= more
    ensures AdvanceRead(own', i, more, token, tip, yes)
  {
    if HeardAt(own, i, OfBelow(token, tip), Answer(Some(tip))) {
      AncBelow(log, token, tip);
      AncStable(log, more, token, tip);
      if HeardAt(own, i + 1, OfMarked(token), Answer(Some(token))) {
        var x: Option<Id> :|
          HeardAt(own, i + 2, OfMarker(tip), Answer(x)) && (x.Some? ==> Nearest(log, tip, x.value)) &&
          (yes <==> x.Some? && Answers(log, token, tip, x.value));
        if x.Some? {
          NearestBelow(log, more, tip, x.value);
          assert more[x.value] == log[x.value] && more[token] == log[token];
        }
        assert HeardAt(own', i + 2, OfMarker(tip), Answer(x));
        hide Nearest;
        hide Anc;
      }
    }
  }

  /** From place i of its log on, the proof was weighed so: no when the token is not the tip and OwnAdvance is
      answered no, and otherwise by whether the session that the marker read at the tip names is live. */
  ghost predicate ProofTold(own: seq<Deed>, i: nat, log: Log, clone: nat, token: Id, tip: Id, live: Presence, ok: bool)
  {
    || (!ok && token != tip && AdvanceRead(own, i, log, token, tip, false))
    || ((token == tip || AdvanceRead(own, i, log, token, tip, true)) &&
        exists x: Option<Id> ::
          MarkerTold(own, i, |own|, clone, tip, x) && (ok <==> !(x.Some? && live.session(x.value))))
  }

  /** A resume's proof does its job: without a token it does nothing; else it first reads the ref, and an absent or
      unreadable one proves nothing. */
  ghost predicate ResumeTold(a: seq<Deed>, b: seq<Deed>, log: Log, clone: nat, token: Option<Id>, live: Presence,
                             ok: bool, tip: Id)
  {
    if token.None? then !ok && b == a
    else
      exists read :: FirstHeard(a, b, OfWork, read) &&
        if read == Fault || read.tip.None? then !ok
        else tip == read.tip.value && ProofTold(b, |a| + 1, log, clone, token.value, tip, live, ok)
  }

  lemma ResumeStill(a: seq<Deed>, b: seq<Deed>, log: Log, more: Log, clone: nat, token: Option<Id>, live: Presence,
                    ok: bool, tip: Id)
    requires ResumeTold(a, b, log, clone, token, live, ok, tip) && log <= more
    ensures ResumeTold(a, b, more, clone, token, live, ok, tip)
  {
    hide AdvanceRead;
    hide MarkerTold;
    if token.Some? {
      if AdvanceRead(b, |a| + 1, log, token.value, tip, true) {
        AdvanceStill(b, b, |a| + 1, log, more, token.value, tip, true);
      }
      if AdvanceRead(b, |a| + 1, log, token.value, tip, false) {
        AdvanceStill(b, b, |a| + 1, log, more, token.value, tip, false);
      }
    }
  }

  /** No marker git may list first at the tip names a live session. */
  ghost predicate NoneLive(log: Log, tip: Id, live: Presence) {
    forall x: Id | Nearest(log, tip, x) :: !live.session(x)
  }

  /** What the first read called for with nobody else at work: at a tip where every marker git may list first answers
      alike and names no live session, the token proves exactly when it should. */
  ghost predicate RightlyProved(a: seq<Deed>, b: seq<Deed>, log: Log, token: Id, live: Presence, ok: bool, tip: Id) {
    forall t: Id | FirstHeard(a, b, OfWork, Answer(Some(t))) && OneAnswer(log, token, t) && NoneLive(log, t, live) ::
      tip == t && (ok <==> TokenProves(log, token, t))
  }

  /** resumeToken: origin's tip, when the saved token proves it and no live session is bound there. */
  method ResumeToken(w: World, o: Opts, token: Option<Id>, live: Presence) returns (ok: bool, tip: Id)
    requires w.Valid()
    modifies w`s, w`own
    ensures Acted(old(w.own), w.own, NOTHING.(fetches := {o.clone}))
    ensures w.Valid() && Passed(w.rely, old(w.s), w.s) && (w.rely.alone ==> OnlyFetched(old(w.s), w.s))
    // what it was told decides
    ensures ResumeTold(old(w.own), w.own, w.s.log, o.clone, token, live, ok, tip)
    ensures token.Some? ==> |old(w.own)| < |w.own|
    ensures w.rely.alone && token.Some? ==> RightlyProved(old(w.own), w.own, w.s.log, token.value, live, ok, tip)
    ensures ok ==>
      && token.Some? && TokenProves(w.s.log, token.value, tip)
      && SeenBetween(old(w.s), w.s, Some(tip)) && w.s.Fetchable(tip)
    // its first act is to read the ref, and its last to find no live session at the tip
    ensures ok ==> FirstHeard(old(w.own), w.own, OfWork, Answer(Some(tip)))
    ensures ok ==>
      exists x: Option<Id> ::
        MarkerTold(w.own, |old(w.own)| + 1, |w.own|, o.clone, tip, x) && !(x.Some? && live.session(x.value))
  {
    hide Inv;
    hide Anc;
    hide Nearest;
    hide Passed;
    hide Grows;
    hide TokenProves;
    hide OwnAdvance;
    hide OneAnswer;
    hide AdvanceRead;
    hide MarkerTold;
    hide Acted;
    hide SeenBetween;
    hide ResumeTold;
    hide RightlyProved;
    hide NoneLive;
    hide FirstHeard;
    ghost var start, own, f := w.s, w.own, NOTHING.(fetches := {o.clone});
    ok, tip := false, 0;
    ActedNone(own, f);
    PassedSelf(w.rely, start);
    if token.None? {
      NoToken(own, start.log, o.clone, live, tip);
      return;
    }
    var read := w.LsRemote();
    ghost var at, reading := w.s, w.own;
    ActedWider(own, reading, NOTHING, f);
    PassedGrows(w.rely, start, at);
    FirstRead(own, reading, OfWork, read);
    if read == Fault || read.tip.None? {
      NoneRead(own, reading, at.log, o.clone, token.value, live, read, tip);
      return;
    }
    tip := read.tip.value;
    var proved := token == Some(tip);
    if !proved {
      proved := ReadsOwnAdvance(w, token.value, tip);
      ReadThen(own, reading, w.own, f);
      ActedLonger(reading, w.own, NOTHING);
    }
    ghost var proving := w.own;
    FirstStill(own, reading, proving, OfWork, read);
    if !proved {
      NotProved(own, proving, at.log, o.clone, token.value, live, tip, w.rely.alone);
      return;
    }
    Proved(at.log, token.value, tip);
    var x := w.FetchedMarker(o.clone, tip);
    ActedThen(own, proving, w.own, f, f, f);
    ActedLonger(proving, w.own, f);
    PassedGrows(w.rely, at, w.s);
    PassedTrans(w.rely, start, at, w.s);
    ProofStable(at.log, w.s.log, token.value, tip);
    SeenStable(start, at, w.s);
    WorkFetchable(at);
    StillFetchable(at, w.s, tip);
    ok := !(x.Some? && live.session(x.value));
    FirstStill(own, proving, w.own, OfWork, read);
    if token.value != tip { AdvanceStill(proving, w.own, |own| + 1, at.log, w.s.log, token.value, tip, true); }
    MarkerSooner(w.own, |proving|, |own| + 1, |w.own|, o.clone, tip, x);
    IsProved(own, w.own, w.s.log, o.clone, token.value, live, tip, x, ok);
  }

  lemma FirstRead(a: seq<Deed>, b: seq<Deed>, of: Subject, answer: Read)
    requires |b| == |a| + 1 && LastHeard(b, of, answer)
    ensures FirstHeard(a, b, of, answer)
  {
  }

  lemma NoToken(own: seq<Deed>, log: Log, clone: nat, live: Presence, tip: Id)
    ensures ResumeTold(own, own, log, clone, None, live, false, tip)
  {
  }

  lemma NoneRead(a: seq<Deed>, b: seq<Deed>, log: Log, clone: nat, token: Id, live: Presence, read: Read, tip: Id)
    requires FirstHeard(a, b, OfWork, read) && (read == Fault || read.tip.None?)
    ensures ResumeTold(a, b, log, clone, Some(token), live, false, tip)
    ensures RightlyProved(a, b, log, token, live, false, tip)
  {
  }

  lemma NotProved(a: seq<Deed>, b: seq<Deed>, log: Log, clone: nat, token: Id, live: Presence, tip: Id, alone: bool)
    requires FirstHeard(a, b, OfWork, Answer(Some(tip))) && token != tip
    requires AdvanceRead(b, |a| + 1, log, token, tip, false)
    requires alone && OneAnswer(log, token, tip) ==> !OwnAdvance(log, token, tip)
    ensures ResumeTold(a, b, log, clone, Some(token), live, false, tip)
    ensures alone ==> RightlyProved(a, b, log, token, live, false, tip)
  {
    hide OneAnswer;
    hide OwnAdvance;
    hide AdvanceRead;
  }

  lemma IsProved(a: seq<Deed>, b: seq<Deed>, log: Log, clone: nat, token: Id, live: Presence, tip: Id, x: Option<Id>,
                 ok: bool)
    requires FirstHeard(a, b, OfWork, Answer(Some(tip))) && TokenProves(log, token, tip)
    requires token == tip || AdvanceRead(b, |a| + 1, log, token, tip, true)
    requires MarkerTold(b, |a| + 1, |b|, clone, tip, x) && (x.Some? ==> Nearest(log, tip, x.value))
    requires ok <==> !(x.Some? && live.session(x.value))
    ensures ResumeTold(a, b, log, clone, Some(token), live, ok, tip)
    ensures RightlyProved(a, b, log, token, live, ok, tip)
  {
    hide OneAnswer;
    hide TokenProves;
    hide AdvanceRead;
    hide MarkerTold;
    hide Nearest;
  }

  /** A resume does its job: it proves the token, and then, and only then, renews from the tip proved, and ends as
      it was told. */
  ghost predicate ResumeDone(a: seq<Deed>, b: seq<Deed>, s: State, o: Opts, token: Option<Id>, live: Presence, tip: Id,
                             minted: Option<Id>, ran: Option<Outcome>)
  {
    exists mid: seq<Deed> :: a <= mid <= b && ResumeTold(a, mid, s.log, o.clone, token, live, ran.Some?, tip) &&
      if ran.Some? then Told(mid, b, o, tip, true, minted, ran.value) else minted.None? && mid == b
  }

  /** resumeOwnLease: the lane renews from where origin's ref stands, when its saved token proves that tip
      and no live session is bound there. A divergence is reported, anything else falls through. */
  method ResumeOwnLease(w: World, o: Opts, token: Option<Id>, live: Presence)
    returns (answered: bool, resumed: bool, ghost minted: Option<Id>, tip: Id, ghost ran: Option<Outcome>)
    requires w.Valid()
    modifies w`s, w`own
    ensures Acted(old(w.own), w.own, Marking(o, Some(tip), minted))
    ensures w.Valid() && Grows(old(w.s), w.s)
    // it is answered exactly when the renewal of a proved lease won or was refused as diverged
    ensures ResumeDone(old(w.own), w.own, w.s, o, token, live, tip, minted, ran)
    ensures answered <==> ran.Some? && (ran.value.Won? || ran.value.error.LeaseDiverges?)
    ensures resumed <==> ran.Some? && ran.value.Won?
    ensures w.rely.alone && token.Some? ==>
      RightlyProved(old(w.own), w.own, old(w.s).log, token.value, live, ran.Some?, tip)
    ensures w.rely.alone && ran.Some? && minted.None? ==> TrulyRefused(w.s, o, tip, ran.value.error)
    ensures minted.Some? ==>
      && token.Some? && TokenProves(w.s.log, token.value, tip) && SeenBetween(old(w.s), w.s, Some(tip))
      && Renewal(w.s, minted.value, Beat, o, tip)
    // it mints nothing before it read the ref there and found no live session bound
    ensures minted.Some? ==>
      FirstHeard(old(w.own), w.own, OfWork, Answer(Some(tip))) && VetoRead(old(w.own), w.own, o.clone, tip, live, false)
    ensures resumed ==>
      && minted.Some? && minted.value in w.s.landed && SaveTried(old(w.own), w.own, Lane(o.clone, o.lane), minted.value)
    ensures !resumed ==> Passed(w.rely, old(w.s), w.s)
  {
    hide Inv;
    hide Anc;
    hide Nearest;
    hide Renewal;
    hide Passed;
    hide TokenProves;
    hide OneAnswer;
    hide NoneLive;
    hide Grows;
    hide Acted;
    hide Relayed;
    hide SeenBetween;
    hide VetoReadAt;
    hide MarkerTold;
    hide ResumeTold;
    hide Told;
    hide SaveTried;
    hide TrulyRefused;
    hide MovesMet;
    hide PushToldApart;
    hide VetoRead;
    hide FirstHeard;
    hide RightlyProved;
    hide ResumeDone;
    hide HeardIn;
    ghost var start, own, f := w.s, w.own, NOTHING.(fetches := {o.clone});
    answered, resumed, minted, ran := false, false, None, None;
    var ok;
    ok, tip := ResumeToken(w, o, token, live);
    ghost var before, proving := w.s, w.own;
    PassedGrows(w.rely, start, before);
    ActedWider(own, proving, f, Marking(o, Some(tip), None));
    ActedLonger(own, proving, f);
    if !ok {
      NotResumed(own, proving, before, o, token, live, tip);
      return;
    }
    ghost var x: Option<Id> :|
      MarkerTold(proving, |own| + 1, |proving|, o.clone, tip, x) && !(x.Some? && live.session(x.value));
    var r;
    ghost var seen;
    r, minted, seen := Renew(w, o, tip);
    ran := Some(r);
    PassedGrows(Loose(w.rely, OwnCopy(o)), before, w.s);
    ProofStable(before.log, w.s.log, token.value, tip);
    SeenLater(start, before, w.s, Some(tip));
    GrowsTrans(start, before, w.s);
    ActedThen(own, proving, w.own, f, Marking(o, Some(tip), minted), Marking(o, Some(tip), minted));
    ActedLonger(proving, w.own, Marking(o, Some(tip), minted));
    FirstStill(own, proving, w.own, OfWork, Answer(Some(tip)));
    NotVetoed(own, proving, w.own, o, tip, live, x);
    ResumeStill(own, proving, before.log, w.s.log, o.clone, token, live, true, tip);
    if w.rely.alone {
      assert before.log == start.log;
      StillRight(own, proving, w.own, start.log, token.value, live, true, tip);
    }
    HasResumed(own, proving, w.own, w.s, o, token, live, tip, minted, r);
    resumed := r.Won?;
    answered := resumed || r.error.LeaseDiverges?;
    if r.Failed? {
      PassedTrans(w.rely, start, before, w.s);
    } else {
      SaveStill(own, proving, w.own, Lane(o.clone, o.lane), r.grant.tip);
    }
  }
  lemma NotVetoed(a: seq<Deed>, b: seq<Deed>, c: seq<Deed>, o: Opts, tip: Id, live: Presence, x: Option<Id>)
    requires Acted(a, b, NOTHING.(fetches := {o.clone})) && b <= c
    requires MarkerTold(b, |a| + 1, |b|, o.clone, tip, x) && !(x.Some? && live.session(x.value))
    ensures VetoRead(a, c, o.clone, tip, live, false)
  {
    hide Acted;
    VetoRanOn(a, b, c, |a| + 1, o, tip, live, x);
  }

  lemma NotResumed(a: seq<Deed>, b: seq<Deed>, s: State, o: Opts, token: Option<Id>, live: Presence, tip: Id)
    requires a <= b && ResumeTold(a, b, s.log, o.clone, token, live, false, tip)
    ensures ResumeDone(a, b, s, o, token, live, tip, None, None)
  {
    hide ResumeTold;
    var ran: Option<Outcome> := None;
    assert a <= b <= b && ResumeTold(a, b, s.log, o.clone, token, live, ran.Some?, tip);
  }

  lemma HasResumed(a: seq<Deed>, b: seq<Deed>, c: seq<Deed>, s: State, o: Opts, token: Option<Id>, live: Presence,
                   tip: Id, minted: Option<Id>, r: Outcome)
    requires a <= b <= c && ResumeTold(a, b, s.log, o.clone, token, live, true, tip)
    requires Told(b, c, o, tip, true, minted, r)
    ensures ResumeDone(a, c, s, o, token, live, tip, minted, Some(r))
  {
    hide ResumeTold;
    hide Told;
    var ran := Some(r);
    assert a <= b <= c && ResumeTold(a, b, s.log, o.clone, token, live, ran.Some?, tip);
  }

  lemma StillRight(a: seq<Deed>, b: seq<Deed>, c: seq<Deed>, log: Log, token: Id, live: Presence, ok: bool, tip: Id)
    requires RightlyProved(a, b, log, token, live, ok, tip) && |a| < |b| && b <= c
    ensures RightlyProved(a, c, log, token, live, ok, tip)
  {
    hide OneAnswer;
    hide TokenProves;
    hide NoneLive;
    assert c[|a|] == b[|a|];
  }
}
