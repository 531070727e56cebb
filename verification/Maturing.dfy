/** From an observer's passes to a takeover's wait: a plan marked stale is a matured window, and takeovers of
    plans marked stale damp. */
module Maturing {
  import opened Wrappers
  import opened Commits
  import opened Machine
  import opened Invariants
  import opened History
  import opened Windows
  import opened Watching
  import opened Damping
  import opened Pushes
  import opened Leases
  import opened Acquiring
  import opened Claiming

  /** One observer's record: what it did with its store, and the pass in which it marked plan n. */
  datatype Record = Record(events: seq<Event>, plans: seq<PlanView>, n: nat, r: Reads, fetched: nat, now: int)

  /** Whatever the observer put down as the commit x, at this key, it read after x was on the ref. */
  ghost predicate TruePass(s: State, times: seq<int>, plans: seq<PlanView>, now: int, key: Key, x: Id,
                           name: Id -> string)
    requires |times| == |s.history|
  {
    forall p | p in plans && KeyOf(p) == key && WatchOf(p.holdTip, p.decorated) == name(x) :: SeenBy(s, times, x, now)
  }

  ghost predicate TrueEvent(s: State, times: seq<int>, e: Event, key: Key, x: Id, name: Id -> string)
    requires |times| == |s.history|
  {
    match e
    case Pass(plans, _, _, now) => TruePass(s, times, plans, now, key, x, name)
    case Reset(reset, tip, at) => reset == key && tip == name(x) ==> SeenBy(s, times, x, at)
  }

  lemma {:induction false} PassLooksTrue(s: State, times: seq<int>, looks: seq<Look<string>>, plans: seq<PlanView>,
                                         r: Reads, fetched: nat, now: int, key: Key, x: Id, name: Id -> string)
    requires |times| == |s.history| && TrueLooks(s, times, looks, x, name)
    requires TruePass(s, times, plans, now, key, x, name)
    ensures TrueLooks(s, times, LooksOver(looks, plans, r, fetched, now, key), x, name)
    decreases |plans|
  {
    hide KeyOf;
    hide SeenBy;
    if plans != [] {
      var n := |plans| - 1;
      assert plans[n] in plans;
      PassLooksTrue(s, times, looks, plans[..n], r, fetched, now, key, x, name);
    }
  }

  lemma {:induction false} LooksTrue(s: State, times: seq<int>, events: seq<Event>, key: Key, x: Id, name: Id -> string)
    requires |times| == |s.history| && forall e | e in events :: TrueEvent(s, times, e, key, x, name)
    ensures TrueLooks(s, times, LooksAfter(events, key), x, name)
    decreases |events|
  {
    hide KeyOf;
    hide SeenBy;
    if events != [] {
      var n := |events| - 1;
      assert TrueEvent(s, times, events[n], key, x, name);
      LooksTrue(s, times, events[..n], key, x, name);
      match events[n] {
        case Pass(plans, r, fetched, now) =>
          PassLooksTrue(s, times, LooksAfter(events[..n], key), plans, r, fetched, now, key, x, name);
        case Reset(_, _, _) =>
      }
    }
  }

  /** The record is of a pass that saw its plan at the commit x by the time given: its reads were true, the
    takeovers were counted against a view of base, and its repository's window is no shorter than t. */
  ghost predicate Tracks(rec: Record, s: State, times: seq<int>, x: Id, until: int, t: int, name: Id -> string)
    requires |times| == |s.history|
  {
    rec.n < |rec.plans| &&
    var p := rec.plans[rec.n];
    && p.holdTip == name(x) && p.holdTip != "" && p.repo in rec.r.coords
    && StaleClock(rec.r, p.repo).window >= t
    && (exists view :: view in s.bases && rec.r.takeovers(KeyOf(p), p.holdTip) == |TakeoverMarkers(s.log, view, x)|)
    && (forall e | e in rec.events :: TrueEvent(s, times, e, KeyOf(p), x, name))
    && TruePass(s, times, rec.plans[..rec.n+1], rec.now, KeyOf(p), x, name)
    && rec.now <= until
  }

  /** The plan as that pass marked it. */
  ghost function Marked(rec: Record): PlanView
    requires rec.n < |rec.plans|
  {
    MarkedIn(rec.events, rec.plans, rec.n, rec.r, rec.fetched, rec.now)
  }

  /** And the pass marked it stale, at exactly the commit the value at place i replaced, before that value
    landed. */
  ghost predicate Marks(rec: Record, s: State, times: seq<int>, i: nat, t: int, name: Id -> string)
    requires |times| == |s.history| && 1 <= i < |s.history|
  {
    s.history[i-1].Some? && Tracks(rec, s, times, s.history[i-1].value, times[i], t, name) && Marked(rec).stale
  }

  /** A plan marked stale is a matured window on exactly its tip. */
  lemma MarkedIsMatured(rec: Record, s: State, times: seq<int>, i: nat, t: int, name: Id -> string)
    requires |times| == |s.history| && 1 <= i < |s.history| && t > 0 && Marks(rec, s, times, i, t, name)
    ensures OnMaturedWindow(s, times, i, t, name)
  {
    hide KeyOf;
    hide SeenBy;
    hide TrueEvent;
    hide TruePass;
    hide TrueLooks;
    hide TakeoverMarkers;
    hide MarkedIn;
    hide LooksAt;
    hide ObserveAll;
    var p, x := rec.plans[rec.n], s.history[i-1].value;
    var view :| view in s.bases && rec.r.takeovers(KeyOf(p), p.holdTip) == |TakeoverMarkers(s.log, view, x)|;
    LookedNow(rec.events, rec.plans, rec.n, rec.r, rec.fetched, rec.now);
    MarkedStaleIff(rec.events, rec.plans, rec.n, rec.r, rec.fetched, rec.now);
    LooksAtTrue(rec, s, times, x, name);
    var looks := LooksAt(rec.events, rec.plans, rec.n, rec.r, rec.fetched, rec.now);
    var clock := StaleClock(rec.r, p.repo);
    Larger(rec.r.takeovers(KeyOf(p), p.holdTip) + 1, t, clock.window);
    assert StaleHold(ObserveAll(looks), rec.now, (|TakeoverMarkers(s.log, view, x)| + 1) * t, clock.gap);
    assert Matured(s, times, i, t, name, looks, rec.now, view, clock.gap);
  }

  lemma LooksAtTrue(rec: Record, s: State, times: seq<int>, x: Id, name: Id -> string)
    requires |times| == |s.history| && rec.n < |rec.plans|
    requires forall e | e in rec.events :: TrueEvent(s, times, e, KeyOf(rec.plans[rec.n]), x, name)
    requires TruePass(s, times, rec.plans[..rec.n+1], rec.now, KeyOf(rec.plans[rec.n]), x, name)
    ensures TrueLooks(s, times, LooksAt(rec.events, rec.plans, rec.n, rec.r, rec.fetched, rec.now), x, name)
  {
    hide KeyOf;
    hide SeenBy;
    hide TrueLooks;
    var key := KeyOf(rec.plans[rec.n]);
    LooksTrue(s, times, rec.events, key, x, name);
    PassLooksTrue(s, times, LooksAfter(rec.events, key), rec.plans[..rec.n+1], rec.r, rec.fetched, rec.now, key, x,
                  name);
  }

  lemma Larger(k: nat, a: int, b: int)
    requires a <= b
    ensures k * a <= k * b
  {
  }

  /** Quadratic damping, from the observers' own records: if some observer's pass had marked the plan stale at
    exactly the tip each takeover of this life replaced, before it landed, the n-th lands more than
    t*n*(n+1)/2 after the claim the life began with. */
  lemma ObservedTakeoversDamp(s: State, times: seq<int>, c: nat, i: nat, t: int, name: Id -> string)
    requires Inv(s) && Timed(s, times) && c <= i && OneLife(s, c, i) && t > 0 && BaseHasNoTakeovers(s, i)
    requires 1 <= c && s.history[c-1] == None
    requires forall j: nat | c < j <= i && IsTakeover(s.log, s.history[j].value) ::
      exists rec :: Marks(rec, s, times, j, t, name)
    ensures Takeovers(s, i) > 0 ==> 2 * (times[i] - times[c]) > t * Takeovers(s, i) * (Takeovers(s, i) + 1)
  {
    forall j: nat | c < j <= i && IsTakeover(s.log, s.history[j].value) ensures OnMaturedWindow(s, times, j, t, name) {
      var rec :| Marks(rec, s, times, j, t, name);
      hide Marks;
      MarkedIsMatured(rec, s, times, j, t, name);
    }
    hide OnMaturedWindow;
    hide Marks;
    hide Inv;
    TakeoversDampQuadratically(s, times, c, i, t, name);
  }

  /** The hold a claim works from is the plan as some pass marked it. */
  predicate Reflects(h: Hold, p: PlanView, name: Id -> string) {
    && h.held == p.held && h.stale == p.stale && h.dead == p.dead
    && h.tip.Some? && name(h.tip.value) == p.holdTip
  }

  /** A takeover that mintOrTakeOver ran from a plan an observer marked, its session not gone, landed on that
    observer's matured window: the marker it minted replaced exactly the tip the window matured on. */
  lemma TakeoverWasMatured(a: State, b: State, s: State, o: Opts, h: Hold, outcome: Outcome, over: Option<Id>, m: Id,
                           times: seq<int>, rec: Record, t: int, name: Id -> string)
    requires Inv(s) && Grows(b, s) && |times| == |s.history| && t > 0
    requires m < |b.log| && IsTakeover(b.log, m) && RanAs(a, b, o, h, outcome, over, Some(m)) && !h.dead
    requires m in s.landed && 1 <= s.landed[m] < |s.history|
    requires h.tip.Some? && Tracks(rec, s, times, h.tip.value, times[s.landed[m]], t, name)
    requires Reflects(h, Marked(rec), name)
    ensures s.history[s.landed[m] - 1] == h.tip
    ensures Marks(rec, s, times, s.landed[m], t, name) && OnMaturedWindow(s, times, s.landed[m], t, name)
  {
    hide Inv;
    hide RanAs;
    hide Tracks;
    hide Marked;
    hide Grows;
    hide IsTakeover;
    hide OnMaturedWindow;
    LandedOverTip(a, b, s, o, h, outcome, over, m);
    MarkedIsMatured(rec, s, times, s.landed[m], t, name);
  }

  /** What it minted replaced the hold's tip, and only a stale plan's, when the session was not gone. */
  lemma LandedOverTip(a: State, b: State, s: State, o: Opts, h: Hold, outcome: Outcome, over: Option<Id>, m: Id)
    requires Inv(s) && Grows(b, s) && RanAs(a, b, o, h, outcome, over, Some(m)) && m < |b.log| && IsTakeover(b.log, m)
    requires !h.dead && m in s.landed && 1 <= s.landed[m] < |s.history|
    ensures h.stale && h.tip.Some? && s.history[s.landed[m] - 1] == h.tip
  {
    hide Anc;
    hide Nearest;
    hide Grounded;
    hide RefsOk;
    hide Minting;
    assert Acquisition(b, m, o, over);
    assert m in s.expects && s.expects[m] == h.tip;
    assert Moved(s, s.landed[m]);
  }
}
