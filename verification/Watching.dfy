/** What the staleness observer watches, and the pass that folds a fleet in. */
module Watching {
  import opened Wrappers
  import opened Strings
  import opened Windows
  import Numbers

  // ---- WatchTip ----

  /** A commit name as git prints one: it has no space and no '='. */
  predicate Hex(s: string) {
    forall c | c in s :: '0' <= c <= '9' || 'a' <= c <= 'f'
  }

  /** git refuses a space in a branch name. */
  predicate BranchName(s: string) {
    ' ' !in s
  }

  function Part(branch: string, tip: string): string {
    branch + "=" + tip
  }

  /** strings.Join(parts, " ") over the branches in order. */
  function Joined(branches: seq<string>, tips: map<string, string>): string
    requires forall b | b in branches :: b in tips
  {
    if branches == [] then ""
    else if |branches| == 1 then Part(branches[0], tips[branches[0]])
    else Part(branches[0], tips[branches[0]]) + " " + Joined(branches[1..], tips)
  }

  /** What the observer watches: the work ref's tip when there is one, else every
    decorated branch's, in branch order. */
  ghost function WatchOf(holdTip: string, decorated: map<string, string>): string {
    if holdTip != "" || decorated == map[] then holdTip else Joined(InOrder(decorated.Keys), decorated)
  }

  /** WatchTip. */
  method WatchTip(holdTip: string, decorated: map<string, string>) returns (watch: string)
    ensures watch == WatchOf(holdTip, decorated)
  {
    if holdTip != "" || |decorated| == 0 { return holdTip; }
    var branches := SortKeys(decorated.Keys);
    watch := "";
    var i := |branches|;
    while i > 0
      invariant 0 <= i <= |branches|
      invariant watch == Joined(branches[i..], decorated)
    {
      i := i - 1;
      var part := Part(branches[i], decorated[branches[i]]);
      assert branches[i..][1..] == branches[i+1..];
      watch := if i + 1 == |branches| then part else part + " " + watch;
    }
    assert branches[0..] == branches;
    SortedUnique(branches, InOrder(decorated.Keys));
  }

  /** The position of the first space, or the length. */
  function FirstSpace(s: string): (n: nat)
    ensures n <= |s| && ' ' !in s[..n] && (n < |s| ==> s[n] == ' ')
  {
    if s == [] || s[0] == ' ' then 0 else 1 + FirstSpace(s[1..])
  }

  lemma {:induction false} FirstSpaceIs(a: string, rest: string)
    requires ' ' !in a && (rest == "" || rest[0] == ' ')
    ensures FirstSpace(a + rest) == |a|
  {
    if a == [] {
      assert a + rest == rest;
    } else {
      assert (a + rest)[1..] == a[1..] + rest && (a + rest)[0] == a[0];
      FirstSpaceIs(a[1..], rest);
    }
  }

  lemma PartHasNoSpace(branch: string, tip: string)
    requires BranchName(branch) && Hex(tip)
    ensures ' ' !in Part(branch, tip)
  {
    forall i | 0 <= i < |Part(branch, tip)| ensures Part(branch, tip)[i] != ' ' {
      if i < |branch| { assert branch[i] in branch; }
      else if i > |branch| { assert tip[i - |branch| - 1] in tip; }
    }
  }

  /** A shorter branch with a hex tip cannot spell a longer one's part. */
  lemma PartsDiffer(b1: string, t1: string, b2: string, t2: string)
    requires |b1| < |b2| && Hex(t1)
    ensures Part(b1, t1) != Part(b2, t2)
  {
    var n := |b2|;
    assert Part(b2, t2)[n] == '=';
    if n < |Part(b1, t1)| {
      assert Part(b1, t1)[n] == t1[n - |b1| - 1];
      assert t1[n - |b1| - 1] in t1;
    }
  }

  /** A part splits at its last '=': the tip has none. */
  lemma PartInjective(b1: string, t1: string, b2: string, t2: string)
    requires Part(b1, t1) == Part(b2, t2) && Hex(t1) && Hex(t2)
    ensures b1 == b2 && t1 == t2
  {
    var p := Part(b1, t1);
    if |b1| < |b2| { PartsDiffer(b1, t1, b2, t2); }
    if |b2| < |b1| { PartsDiffer(b2, t2, b1, t1); }
    assert b1 == p[..|b1|] && t1 == p[|b1|+1..];
    assert b2 == p[..|b2|] && t2 == p[|b2|+1..];
  }

  predicate GoodMap(m: map<string, string>) {
    forall b | b in m :: BranchName(b) && Hex(m[b])
  }

  /** A joined list starts with its first part, up to the first space. */
  lemma JoinedHead(bs: seq<string>, m: map<string, string>)
    requires bs != [] && GoodMap(m) && forall b | b in bs :: b in m
    ensures var p := Part(bs[0], m[bs[0]]);
      var j := Joined(bs, m);
      && FirstSpace(j) == |p| <= |j| && j[..|p|] == p
      && (|bs| == 1 <==> |j| == |p|)
      && (|bs| > 1 ==> j[|p|+1..] == Joined(bs[1..], m))
  {
    hide FirstSpace;
    hide Part;
    var p := Part(bs[0], m[bs[0]]);
    PartHasNoSpace(bs[0], m[bs[0]]);
    if |bs| == 1 {
      FirstSpaceIs(p, "");
      assert p + "" == p;
    } else {
      SplitAtSpace(p, Joined(bs[1..], m));
    }
  }

  lemma SplitAtSpace(p: string, tail: string)
    requires ' ' !in p
    ensures var j := p + " " + tail;
      FirstSpace(j) == |p| < |j| && j[..|p|] == p && j[|p|+1..] == tail
  {
    FirstSpaceIs(p, " " + tail);
    assert p + " " + tail == p + (" " + tail);
  }

  /** Equal joined lists come from equal branches with equal tips. */
  lemma {:induction false} JoinedInjective(b1: seq<string>, m1: map<string, string>, b2: seq<string>,
                                           m2: map<string, string>)
    requires GoodMap(m1) && GoodMap(m2) && b1 != [] && b2 != []
    requires (forall b | b in b1 :: b in m1) && (forall b | b in b2 :: b in m2)
    requires Joined(b1, m1) == Joined(b2, m2)
    ensures b1 == b2 && forall b | b in b1 :: m1[b] == m2[b]
    decreases |b1|
  {
    JoinedHead(b1, m1);
    JoinedHead(b2, m2);
    PartInjective(b1[0], m1[b1[0]], b2[0], m2[b2[0]]);
    if |b1| > 1 { JoinedInjective(b1[1..], m1, b2[1..], m2); }
    assert b1 == [b1[0]] + b1[1..] && b2 == [b2[0]] + b2[1..];
  }

  lemma OrderNotEmpty(m: map<string, string>)
    requires m != map[]
    ensures InOrder(m.Keys) != []
  {
    var b :| b in m;
    assert b in InOrder(m.Keys);
  }

  /** Any move, addition or removal of a decorated branch changes what is watched. */
  lemma WatchIsInjective(m1: map<string, string>, m2: map<string, string>)
    requires GoodMap(m1) && GoodMap(m2) && m1 != map[] && m2 != map[]
    requires WatchOf("", m1) == WatchOf("", m2)
    ensures m1 == m2
  {
    OrderNotEmpty(m1);
    OrderNotEmpty(m2);
    JoinedInjective(InOrder(m1.Keys), m1, InOrder(m2.Keys), m2);
    assert m1.Keys == m2.Keys;
  }

  /** And decorated branches are never watched under a work ref's bare tip. */
  lemma WatchIsNoTip(m: map<string, string>)
    requires GoodMap(m) && m != map[]
    ensures !Hex(WatchOf("", m))
  {
    OrderNotEmpty(m);
    var order, w := InOrder(m.Keys), WatchOf("", m);
    JoinedHead(order, m);
    var p := Part(order[0], m[order[0]]);
    assert p[|order[0]|] == '=' && w[|order[0]|] == p[|order[0]|];
    assert w[|order[0]|] in w;
  }

  // ---- observeHolds ----

  /** A plan as the gather left it, with what the pass marks on it. */
  datatype PlanView = PlanView(repo: string, id: int, holdTip: string, decorated: map<string, string>, held: bool,
    stale: bool, staleFor: int, voided: Option<int>, dead: bool)

  /** A repository's coordinate: its clock, as staleClock reads it. */
  datatype Clock = Clock(window: int, gap: int)

  /** What names a plan's window in the store. */
  type Key = string

  /** One of herdr's panes: the session it runs, and whether an agent is on it. */
  datatype Pane = Pane(session: string, agent: bool)

  /** What the pass reads besides the plans: the coordinates, the takeover markers in the chain below a plan's tip,
    the session that the marker read there names, and herdr's panes, when it answered. */
  datatype Reads = Reads(coords: map<string, Clock>, takeovers: (Key, string) -> nat,
                         sessions: (Key, string) -> Option<string>, panes: Option<seq<Pane>>)

  /** herdr positively shows the session gone: there is one, and no agent is on it. */
  ghost predicate Gone(panes: seq<Pane>, session: string) {
    session != "" && session != "-" && forall p | p in panes :: !(p.session == session && p.agent)
  }

  /** SessionDeadIn. */
  method SessionDeadIn(panes: seq<Pane>, session: string) returns (dead: bool)
    ensures dead <==> Gone(panes, session)
  {
    if session == "" || session == "-" { return false; }
    for i := 0 to |panes|
      invariant forall j | 0 <= j < i :: !(panes[j].session == session && panes[j].agent)
    {
      if panes[i].session == session && panes[i].agent { return false; }
    }
    dead := true;
  }

  const DEFAULT_WINDOW: int := 7200
  const DEFAULT_GAP: int := 1800

  /** observe.Key: "repo:id". */
  function KeyOf(p: PlanView): Key {
    p.repo + ":" + Numbers.Render(p.id)
  }

  /** Two plans share a window only when they are one: a key splits at its last ':', as an id has none. */
  lemma KeyIsThePlan(p: PlanView, q: PlanView)
    ensures KeyOf(p) == KeyOf(q) <==> p.repo == q.repo && p.id == q.id
  {
    if KeyOf(p) == KeyOf(q) {
      if |p.repo| < |q.repo| { ShorterRepo(p, q); }
      if |q.repo| < |p.repo| { ShorterRepo(q, p); }
      var k := KeyOf(p);
      assert p.repo == k[..|p.repo|] && q.repo == k[..|q.repo|];
      assert Numbers.Render(p.id) == k[|p.repo|+1..] && Numbers.Render(q.id) == k[|q.repo|+1..];
      Numbers.RenderInjective(p.id, q.id);
    }
  }

  lemma ShorterRepo(p: PlanView, q: PlanView)
    requires |p.repo| < |q.repo|
    ensures KeyOf(p) != KeyOf(q)
  {
    var n := |q.repo|;
    assert KeyOf(q)[n] == ':';
    if n < |KeyOf(p)| {
      assert KeyOf(p)[n] == Numbers.Render(p.id)[n - |p.repo| - 1];
      assert Numbers.Render(p.id)[n - |p.repo| - 1] in Numbers.Render(p.id);
    }
  }

  /** Nothing of the plan is watched: no work ref, no decorated branch. */
  predicate Unwatched(p: PlanView) {
    p.holdTip == "" && p.decorated == map[]
  }

  /** A hold with a work ref in a repository the gather could place. */
  ghost predicate Counted(r: Reads, p: PlanView) {
    p.repo in r.coords && p.holdTip != ""
  }

  /** staleClock. */
  function StaleClock(r: Reads, repo: string): Clock {
    if repo in r.coords && r.coords[repo].window != 0 then r.coords[repo] else Clock(DEFAULT_WINDOW, DEFAULT_GAP)
  }

  /** The threshold: (k+1) windows for a work ref whose chain can be counted, one
    window for a hold of decorated branches alone. */
  ghost function Threshold(r: Reads, p: PlanView): int {
    var window := StaleClock(r, p.repo).window;
    if Counted(r, p) then (r.takeovers(KeyOf(p), p.holdTip) + 1) * window else window
  }

  /** The plan's window after this pass: nothing watched keeps it unless the pass
    fetched, anything else takes one look on the repository's own clock. */
  ghost function WindowAfter(r: Reads, fetched: nat, now: int, p: PlanView, w: Option<Window<string>>)
    : Option<Window<string>>
  {
    if Unwatched(p) then (if fetched > 0 then None else w)
    else
      Some(Observe(if w.Some? then w.value else Zero(), Some(WatchOf(p.holdTip, p.decorated)), now,
                   StaleClock(r, p.repo).gap))
  }

  /** Whether the session bound at the plan's tip is gone, when that is asked and answered. */
  ghost predicate Dead(r: Reads, p: PlanView) {
    if Counted(r, p) && p.held && r.panes.Some?
    then
      var session := r.sessions(KeyOf(p), p.holdTip);
      session.Some? && Gone(r.panes.value, session.value)
    else p.dead
  }

  /** The plan as this pass marks it. */
  ghost function PlanAfter(r: Reads, now: int, p: PlanView, w: Option<Window<string>>): PlanView {
    if Unwatched(p) || w.None? then p
    else
      p.(stale := StaleHold(w.value, now, Threshold(r, p), StaleClock(r, p.repo).gap),
         staleFor := Span(w.value), voided := w.value.voided,
         dead := Dead(r, p))
  }

  lemma UnwatchedIsLeft(r: Reads, fetched: nat, now: int, p: PlanView, w: Option<Window<string>>)
    requires Unwatched(p)
    ensures WindowAfter(r, fetched, now, p, w) == if fetched > 0 then None else w
    ensures forall later :: PlanAfter(r, now, p, later) == p
  {
  }

  lemma WatchedIsObserved(r: Reads, fetched: nat, now: int, p: PlanView, w: Option<Window<string>>)
    requires !Unwatched(p)
    ensures WindowAfter(r, fetched, now, p, w) ==
            Some(Observe(if w.Some? then w.value else Zero(), Some(WatchOf(p.holdTip, p.decorated)), now,
                         StaleClock(r, p.repo).gap))
  {
  }

  type Stored = map<Key, Window<string>>

  function Lookup(s: Stored, k: Key): Option<Window<string>> {
    if k in s then Some(s[k]) else None
  }

  /** One plan's look, its window put away under its key. */
  ghost function After(s: Stored, p: PlanView, r: Reads, fetched: nat, now: int): Stored {
    var w := WindowAfter(r, fetched, now, p, Lookup(s, KeyOf(p)));
    if w.Some? then s[KeyOf(p) := w.value] else map k | k in s && k != KeyOf(p) :: s[k]
  }

  /** A whole pass: the plans one after another. Two plans of one key take a look each. */
  ghost function PassOver(s: Stored, plans: seq<PlanView>, r: Reads, fetched: nat, now: int): Stored {
    if plans == [] then s
    else
      var n := |plans| - 1;
      After(PassOver(s, plans[..n], r, fetched, now), plans[n], r, fetched, now)
  }

  lemma AfterLooksUp(s: Stored, p: PlanView, r: Reads, fetched: nat, now: int)
    ensures Lookup(After(s, p, r, fetched, now), KeyOf(p)) == WindowAfter(r, fetched, now, p, Lookup(s, KeyOf(p)))
    ensures forall k | k != KeyOf(p) :: Lookup(After(s, p, r, fetched, now), k) == Lookup(s, k)
  {
    hide WindowAfter;
  }

  lemma SameState(s: Stored, p: PlanView, r: Reads, fetched: nat, now: int, s': Stored)
    requires forall k | k != KeyOf(p) :: Lookup(s', k) == Lookup(s, k)
    requires Lookup(s', KeyOf(p)) == WindowAfter(r, fetched, now, p, Lookup(s, KeyOf(p)))
    ensures s' == After(s, p, r, fetched, now)
  {
    AfterLooksUp(s, p, r, fetched, now);
    var t := After(s, p, r, fetched, now);
    hide After;
    hide WindowAfter;
    forall k ensures k in s' <==> k in t {
      assert Lookup(s', k) == Lookup(t, k);
    }
    forall k | k in s' ensures s'[k] == t[k] {
      assert Lookup(s', k) == Lookup(t, k);
    }
  }

  /** Observations, one window a key. */
  class Store {
    var state: Stored

    constructor ()
      ensures state == map[]
    {
      state := map[];
    }

    /** observeHolds: every plan's window takes its look, in order, and the plan is marked by what its window
      then says. */
    method ObserveHolds(plans: array<PlanView>, r: Reads, fetched: nat, now: int)
      modifies this`state, plans
      ensures state == PassOver(old(state), old(plans[..]), r, fetched, now)
      ensures forall i | 0 <= i < plans.Length ::
        plans[i] == PlanAfter(r, now, old(plans[i]),
                              Lookup(PassOver(old(state), old(plans[..])[..i+1], r, fetched, now),
                                     KeyOf(old(plans[i]))))
    {
      hide WindowAfter;
      hide PlanAfter;
      hide After;
      ghost var before, s0 := plans[..], state;
      for n := 0 to plans.Length
        invariant state == PassOver(s0, before[..n], r, fetched, now)
        invariant forall i | n <= i < plans.Length :: plans[i] == before[i]
        invariant forall i | 0 <= i < n ::
          plans[i] == PlanAfter(r, now, before[i],
                                Lookup(PassOver(s0, before[..i+1], r, fetched, now), KeyOf(before[i])))
      {
        ghost var mid := plans[..];
        Look(plans, n, r, fetched, now);
        assert before[..n+1][..n] == before[..n] && before[..n+1][n] == mid[n];
        forall i | 0 <= i < plans.Length && i != n ensures plans[i] == mid[i] {
          assert plans[..][i] == mid[i];
        }
        assert plans[n] == plans[..][n];
      }
      assert before[..plans.Length] == before;
    }

    /** One plan's look. */
    method Look(plans: array<PlanView>, n: nat, r: Reads, fetched: nat, now: int)
      requires n < plans.Length
      modifies this`state, plans
      ensures state == After(old(state), old(plans[n]), r, fetched, now)
      ensures plans[..] ==
        old(plans[..])[n := PlanAfter(r, now, old(plans[n]), Lookup(state, KeyOf(old(plans[n]))))]
    {
      hide WindowAfter;
      hide PlanAfter;
      hide After;
      ghost var s := state;
      var p := plans[n];
      var key := KeyOf(p);
      var watch := WatchTip(p.holdTip, p.decorated);
      if watch == "" {
        NothingWatched(p);
        UnwatchedIsLeft(r, fetched, now, p, Lookup(state, key));
        if fetched > 0 { state := map k | k in state && k != key :: state[k]; }
      } else {
        NothingWatched(p);
        var w := Observe(if key in state then state[key] else Zero(), Some(watch), now, StaleClock(r, p.repo).gap);
        WatchedIsObserved(r, fetched, now, p, Lookup(state, key));
        state := state[key := w];
        Mark(plans, n, r, now, w);
      }
      SameState(s, p, r, fetched, now, state);
    }

    /** The plan marked by what its window says, and by whether its session is gone. */
    method Mark(plans: array<PlanView>, n: nat, r: Reads, now: int, w: Window<string>)
      requires n < plans.Length && !Unwatched(plans[n])
      modifies plans
      ensures plans[..] == old(plans[..])[n := PlanAfter(r, now, old(plans[n]), Some(w))]
    {
      hide StaleHold;
      hide Gone;
      var p := plans[n];
      var clock := StaleClock(r, p.repo);
      var threshold, dead := clock.window, p.dead;
      if p.repo in r.coords && p.holdTip != "" {
        threshold := (r.takeovers(KeyOf(p), p.holdTip) + 1) * clock.window;
        if p.held && r.panes.Some? {
          var session := r.sessions(KeyOf(p), p.holdTip);
          dead := false;
          if session.Some? { dead := SessionDeadIn(r.panes.value, session.value); }
        }
      }
      plans[n] := p.(stale := StaleHold(w, now, threshold, clock.gap), staleFor := Span(w), voided := w.voided,
                     dead := dead);
    }

    /** resetWindow: a lost takeover's plan is watched afresh on the tip read then. */
    method ResetWindow(key: Key, tip: string, now: int)
      modifies this`state
      ensures Lookup(state, key) == Some(Observe(Zero(), Some(tip), now, DEFAULT_GAP))
      ensures forall k | k != key :: Lookup(state, k) == Lookup(old(state), k)
    {
      state := state[key := Observe(Zero(), Some(tip), now, DEFAULT_GAP)];
    }
  }

  /** Only a plan with nothing to watch has an empty watch string. */
  lemma NothingWatched(p: PlanView)
    ensures WatchOf(p.holdTip, p.decorated) == "" <==> Unwatched(p)
  {
    if p.holdTip == "" && p.decorated != map[] {
      OrderNotEmpty(p.decorated);
    }
  }

  /** The look a reset took at a bare tip is thrown away by the next look at a decorated hold. */
  lemma DecoratedResetStartsOver(tip: string, decorated: map<string, string>, at: int, now: int, sMax: int)
    requires Hex(tip) && GoodMap(decorated) && decorated != map[]
    ensures var watch := Some(WatchOf("", decorated));
            Observe(Observe(Zero(), Some(tip), at, DEFAULT_GAP), watch, now, sMax) == Window(watch, now, now, 1, None)
  {
    WatchIsNoTip(decorated);
  }

  // ---- what the store remembers ----

  /** What an observer does with its store over time: passes, and resets after a lost takeover. */
  datatype Event = Pass(plans: seq<PlanView>, r: Reads, fetched: nat, now: int) | Reset(key: Key, tip: string, at: int)

  /** The store after some events, from an empty one. */
  ghost function StoreAfter(events: seq<Event>): Stored {
    if events == [] then map[]
    else
      var n := |events| - 1;
      var before := StoreAfter(events[..n]);
      match events[n]
      case Pass(plans, r, fetched, now) => PassOver(before, plans, r, fetched, now)
      case Reset(key, tip, at) => before[key := Observe(Zero(), Some(tip), at, DEFAULT_GAP)]
  }

  /** The looks a pass adds at one key: none at a plan with nothing to watch, which forgets them all when the
    pass fetched. */
  ghost function LooksOver(looks: seq<Look<string>>, plans: seq<PlanView>, r: Reads, fetched: nat, now: int, key: Key)
    : seq<Look<string>>
  {
    if plans == [] then looks
    else
      var n := |plans| - 1;
      var before, p := LooksOver(looks, plans[..n], r, fetched, now, key), plans[n];
      if KeyOf(p) != key then before
      else if Unwatched(p) then (if fetched > 0 then [] else before)
      else before + [Look(Some(WatchOf(p.holdTip, p.decorated)), now, StaleClock(r, p.repo).gap)]
  }

  /** Every look at a key since it was last dropped or reset. */
  ghost function LooksAfter(events: seq<Event>, key: Key): seq<Look<string>> {
    if events == [] then []
    else
      var n := |events| - 1;
      var before := LooksAfter(events[..n], key);
      match events[n]
      case Pass(plans, r, fetched, now) => LooksOver(before, plans, r, fetched, now, key)
      case Reset(reset, tip, at) => if reset == key then [Look(Some(tip), at, DEFAULT_GAP)] else before
  }

  /** A stored window is its looks, folded. */
  ghost predicate Holds(w: Option<Window<string>>, looks: seq<Look<string>>) {
    w == if looks == [] then None else Some(ObserveAll(looks))
  }

  lemma {:induction false} PassHoldsLooks(s: Stored, looks: seq<Look<string>>, plans: seq<PlanView>, r: Reads,
                                          fetched: nat, now: int, key: Key)
    requires Holds(Lookup(s, key), looks)
    ensures Holds(Lookup(PassOver(s, plans, r, fetched, now), key), LooksOver(looks, plans, r, fetched, now, key))
    decreases |plans|
  {
    hide KeyOf;
    if plans != [] {
      var n := |plans| - 1;
      var p := plans[n];
      var before, seen := PassOver(s, plans[..n], r, fetched, now), LooksOver(looks, plans[..n], r, fetched, now, key);
      PassHoldsLooks(s, looks, plans[..n], r, fetched, now, key);
      AfterLooksUp(before, p, r, fetched, now);
      hide After;
      if KeyOf(p) == key && !Unwatched(p) {
        LookFolds(seen, Look(Some(WatchOf(p.holdTip, p.decorated)), now, StaleClock(r, p.repo).gap));
      }
    }
  }

  lemma LookFolds(looks: seq<Look<string>>, look: Look<string>)
    ensures ObserveAll(looks + [look]) == Observe(ObserveAll(looks), look.tip, look.at, look.gap)
    ensures looks == [] ==> ObserveAll(looks) == Zero()
  {
    assert (looks + [look])[..|looks|] == looks;
  }

  /** Whatever an observer did, each window in its store is the fold of its looks at that key since it was
    last dropped or reset, and is there exactly when there are any. */
  lemma {:induction false} StoreHoldsLooks(events: seq<Event>, key: Key)
    ensures Holds(Lookup(StoreAfter(events), key), LooksAfter(events, key))
    decreases |events|
  {
    hide KeyOf;
    if events != [] {
      var n := |events| - 1;
      StoreHoldsLooks(events[..n], key);
      match events[n] {
        case Pass(plans, r, fetched, now) =>
          PassHoldsLooks(StoreAfter(events[..n]), LooksAfter(events[..n], key), plans, r, fetched, now, key);
        case Reset(reset, tip, at) =>
          if reset == key {
            var look := Look(Some(tip), at, DEFAULT_GAP);
            LookFolds([], look);
            assert [] + [look] == [look];
          }
      }
    }
  }

  /** The looks behind plan i's window as a pass reaches it. */
  ghost function LooksAt(events: seq<Event>, plans: seq<PlanView>, i: nat, r: Reads, fetched: nat, now: int)
    : seq<Look<string>>
    requires i < |plans|
  {
    LooksOver(LooksAfter(events, KeyOf(plans[i])), plans[..i+1], r, fetched, now, KeyOf(plans[i]))
  }

  /** The plan as ObserveHolds leaves it, in a pass over the store those events left. */
  ghost function MarkedIn(events: seq<Event>, plans: seq<PlanView>, i: nat, r: Reads, fetched: nat, now: int): PlanView
    requires i < |plans|
  {
    PlanAfter(r, now, plans[i], Lookup(PassOver(StoreAfter(events), plans[..i+1], r, fetched, now), KeyOf(plans[i])))
  }

  /** The repository declares a clock of its own. */
  ghost predicate OwnClock(r: Reads, repo: string) {
    repo in r.coords && r.coords[repo].window != 0
  }

  /** The looks behind a watched plan's window end with this pass's, on what the plan is watched on, and on its
    repository's own clock if it declares one, else within half an hour. */
  lemma LookedNow(events: seq<Event>, plans: seq<PlanView>, i: nat, r: Reads, fetched: nat, now: int)
    requires i < |plans| && !Unwatched(plans[i])
    ensures var p := plans[i];
            var looks := LooksAt(events, plans, i, r, fetched, now);
            var watch := Some(WatchOf(p.holdTip, p.decorated));
      && looks != [] && ObserveAll(looks).tip == watch
      && looks[|looks|-1] == Look(watch, now, if OwnClock(r, p.repo) then r.coords[p.repo].gap else 1800)
      && Lookup(PassOver(StoreAfter(events), plans[..i+1], r, fetched, now), KeyOf(p)) == Some(ObserveAll(looks))
  {
    hide KeyOf;
    var p := plans[i];
    StoreHoldsLooks(events, KeyOf(p));
    PassHoldsLooks(StoreAfter(events), LooksAfter(events, KeyOf(p)), plans[..i+1], r, fetched, now, KeyOf(p));
    var looks := LooksAt(events, plans, i, r, fetched, now);
    assert plans[..i+1][..i] == plans[..i] && plans[..i+1][i] == p;
    hide PassOver;
    WindowIsTheLatestRun(looks);
    hide ObserveAll;
  }

  /** A watched plan is marked stale exactly when the observer's latest looks, since the key was last dropped or
    reset, matured on what it is watched on: past (k+1) windows for a work ref in a placed repository, past one
    for any other hold, a window being the repository's own if it declares one, else two hours. On a clock that
    does not step back that is exactly when they saw it unmoved for so long. */
  lemma MarkedStaleIff(events: seq<Event>, plans: seq<PlanView>, i: nat, r: Reads, fetched: nat, now: int)
    requires i < |plans| && !Unwatched(plans[i])
    ensures var p := plans[i];
            var looks := LooksAt(events, plans, i, r, fetched, now);
            var window := if OwnClock(r, p.repo) then r.coords[p.repo].window else 7200;
            var gap := if OwnClock(r, p.repo) then r.coords[p.repo].gap else 1800;
            var k := if p.holdTip != "" && p.repo in r.coords then r.takeovers(KeyOf(p), p.holdTip) else 0;
            var stale := MarkedIn(events, plans, i, r, fetched, now).stale;
      && (stale <==> StaleHold(ObserveAll(looks), now, (k + 1) * window, gap))
      && ((k + 1) * window >= 0 && SteadyClock(looks) ==> (stale <==> SeenUnmoved(looks, now, (k + 1) * window, gap)))
  {
    hide KeyOf;
    hide ObserveAll;
    hide PassOver;
    hide LooksAt;
    hide StaleHold;
    hide SeenUnmoved;
    hide SteadyClock;
    LookedNow(events, plans, i, r, fetched, now);
    var p, looks := plans[i], LooksAt(events, plans, i, r, fetched, now);
    var k := if p.holdTip != "" && p.repo in r.coords then r.takeovers(KeyOf(p), p.holdTip) else 0;
    var clock := StaleClock(r, p.repo);
    assert Threshold(r, p) == (k + 1) * clock.window;
    var t := Threshold(r, p);
    hide Threshold;
    if t >= 0 && SteadyClock(looks) { StaleExactlyWhenSeenUnmoved(looks, now, t, clock.gap); }
  }

  /** It is marked with how long it was seen so: from the first look of the latest unbroken run to this pass's; and
    with the gap that cut that run off from a look before it that saw the same. */
  lemma MarkedForTheRun(events: seq<Event>, plans: seq<PlanView>, i: nat, r: Reads, fetched: nat, now: int)
    requires i < |plans| && !Unwatched(plans[i])
    ensures var looks, q := LooksAt(events, plans, i, r, fetched, now), MarkedIn(events, plans, i, r, fetched, now);
      exists j: nat :: RunFrom(looks, j) && (j > 0 ==> !Joins(looks, j))
        && q.staleFor == (if looks[j].at == ZERO_TIME then 0 else now - looks[j].at)
        && q.voided == (if j > 0 then VoidedAt(looks, j) else None)
  {
    hide KeyOf;
    hide PassOver;
    hide LooksAt;
    LookedNow(events, plans, i, r, fetched, now);
    var looks := LooksAt(events, plans, i, r, fetched, now);
    WindowIsTheLatestRun(looks);
    hide ObserveAll;
    assert RunFrom(looks, |looks| - ObserveAll(looks).samples);
  }

  /** A plan is marked dead afresh exactly when it is held, has a work ref in a placed repository, and herdr
    answered; and then it is marked so exactly when the marker read at that tip names a session that no agent is
    on. Any other plan, a decorated hold among them, is left as it was; and no mark touches anything else. */
  lemma MarkedDeadIff(events: seq<Event>, plans: seq<PlanView>, i: nat, r: Reads, fetched: nat, now: int)
    requires i < |plans|
    ensures var p, q := plans[i], MarkedIn(events, plans, i, r, fetched, now);
      && (p.held && p.holdTip != "" && p.repo in r.coords && r.panes.Some? ==>
            (q.dead <==>
               exists session :: r.sessions(KeyOf(p), p.holdTip) == Some(session) && session != "" && session != "-"
                 && forall pane | pane in r.panes.value :: pane.session != session || !pane.agent))
      && (!p.held || p.holdTip == "" || p.repo !in r.coords || r.panes.None? ==> q.dead == p.dead)
      && q == p.(stale := q.stale, staleFor := q.staleFor, voided := q.voided, dead := q.dead)
      && (p.holdTip == "" && p.decorated == map[] ==> q == p)
  {
    hide KeyOf;
    hide PassOver;
    hide LooksAt;
    hide StaleHold;
    if !Unwatched(plans[i]) { LookedNow(events, plans, i, r, fetched, now); }
    hide ObserveAll;
  }

  /** So a plan marked stale was seen unmoved at its own tip: the latest looks all saw it, each within the
    bound in force of the one before, over more than (k+1) windows. */
  lemma MarkedStaleWasUnmoved(events: seq<Event>, plans: seq<PlanView>, i: nat, r: Reads, fetched: nat, now: int)
    requires i < |plans| && plans[i].holdTip != "" && plans[i].repo in r.coords
    requires MarkedIn(events, plans, i, r, fetched, now).stale && StaleClock(r, plans[i].repo).window >= 0
    ensures var looks := LooksAt(events, plans, i, r, fetched, now);
            var n, w := |looks|, ObserveAll(looks);
      && 1 <= w.samples <= n && RunFrom(looks, n - w.samples)
      && (forall k | n - w.samples <= k < n :: looks[k].tip == Some(plans[i].holdTip))
      && looks[n-1].at - looks[n - w.samples].at >
           (r.takeovers(KeyOf(plans[i]), plans[i].holdTip) + 1) * StaleClock(r, plans[i].repo).window
  {
    hide KeyOf;
    hide PassOver;
    hide LooksAt;
    hide MarkedIn;
    hide LooksOver;
    LookedNow(events, plans, i, r, fetched, now);
    MarkedStaleIff(events, plans, i, r, fetched, now);
    var looks := LooksAt(events, plans, i, r, fetched, now);
    var t := (r.takeovers(KeyOf(plans[i]), plans[i].holdTip) + 1) * StaleClock(r, plans[i].repo).window;
    NotNegative(r.takeovers(KeyOf(plans[i]), plans[i].holdTip) + 1, StaleClock(r, plans[i].repo).window);
    hide ObserveAll;
    MaturedWindowIsHonest(looks, now, t, StaleClock(r, plans[i].repo).gap);
  }

  lemma NotNegative(a: nat, b: int)
    requires b >= 0
    ensures a * b >= 0
  {
  }
}
