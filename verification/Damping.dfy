/** Takeovers back off: the observer's windows and the lease protocol together. */
module Damping {
  import opened Wrappers
  import opened Commits
  import opened Machine
  import opened Invariants
  import opened History
  import opened Lock
  import opened Windows

  predicate IsTakeover(log: Log, x: Id) {
    IsMarker(log, x) && log[x].body.kind.Takeover?
  }

  /** The commits `git log tip ^view` lists as takeover markers. */
  function TakeoverMarkers(log: Log, view: Id, tip: Id): set<Id> {
    set x: Id | 0 <= x < |log| && IsTakeover(log, x) && Anc(log, x, tip) && !Anc(log, x, view)
  }

  /** TakeoverCount: one count per line that is a takeover marker's subject. */
  method TakeoverCount(log: Log, view: Id, tip: Id) returns (n: nat)
    ensures n == |TakeoverMarkers(log, view, tip)|
  {
    n := 0;
    ghost var counted: set<Id> := {};
    for x := 0 to |log|
      invariant counted == set y: Id | 0 <= y < x && IsTakeover(log, y) && Anc(log, y, tip) && !Anc(log, y, view)
      invariant n == |counted|
    {
      if IsTakeover(log, x) && Anc(log, x, tip) && !Anc(log, x, view) {
        n := n + 1;
        counted := counted + {x};
      }
    }
    assert counted == TakeoverMarkers(log, view, tip);
  }

  // ---- takeovers in one life of the ref ----

  /** The takeover markers that landed in this life of the ref, up to place j. */
  ghost function LandedTakeovers(s: State, j: nat): set<Id>
    requires j < |s.history|
  {
    if s.history[j].None? then {}
    else
      (if j == 0 then {} else LandedTakeovers(s, j - 1))
      + (if IsTakeover(s.log, s.history[j].value) then {s.history[j].value} else {})
  }

  /** They landed at distinct places of this life, below the value at j. */
  lemma {:induction false} TakeoversBelow(s: State, j: nat, x: Id)
    requires Inv(s) && j < |s.history| && x in LandedTakeovers(s, j)
    ensures s.history[j].Some? && x in s.landed && s.landed[x] <= j && IsTakeover(s.log, x)
    ensures OneLife(s, s.landed[x], j) && Anc(s.log, x, s.history[j].value)
    decreases j
  {
    hide Anc;
    hide Inv;
    ValueFacts(s, j);
    if IsTakeover(s.log, s.history[j].value) && x == s.history[j].value {
      MarkerPlace(s, j);
    } else {
      TakeoversBelow(s, j - 1, x);
    }
    PlaceOf(s, x);
    AppendOnly(s, s.landed[x], j);
  }

  lemma MarkerPlace(s: State, j: nat)
    requires Inv(s) && j < |s.history| && s.history[j].Some? && IsMarker(s.log, s.history[j].value)
    ensures s.history[j].value in s.landed && s.landed[s.history[j].value] == j
  {
    hide Anc;
    hide Grounded;
    hide RefsOk;
    hide Minting;
    assert s.history[0] == None;
    assert Moved(s, j);
  }

  lemma PlaceOf(s: State, x: Id)
    requires Inv(s) && x in s.landed
    ensures 1 <= s.landed[x] < |s.history| && s.history[s.landed[x]] == Some(x)
  {
    hide Anc;
    hide Grounded;
    hide RefsOk;
    hide Minting;
  }

  /** How many takeovers landed in this life of the ref, up to place j. */
  ghost function Takeovers(s: State, j: nat): nat
    requires j < |s.history|
  {
    if s.history[j].None? then 0
    else (if j == 0 then 0 else Takeovers(s, j - 1)) + (if IsTakeover(s.log, s.history[j].value) then 1 else 0)
  }

  lemma {:induction false} TakeoversCounted(s: State, j: nat)
    requires Inv(s) && j < |s.history|
    ensures |LandedTakeovers(s, j)| == Takeovers(s, j)
    decreases j
  {
    hide Inv;
    hide Anc;
    if s.history[j].Some? && j > 0 {
      TakeoversCounted(s, j - 1);
      if IsTakeover(s.log, s.history[j].value) { LandsOnce(s, j); }
      hide IsTakeover;
    }
  }

  lemma LandsOnce(s: State, j: nat)
    requires Inv(s) && 1 <= j < |s.history| && s.history[j].Some? && IsTakeover(s.log, s.history[j].value)
    ensures s.history[j].value !in LandedTakeovers(s, j - 1)
  {
    hide Inv;
    hide Anc;
    hide LandedTakeovers;
    var v := s.history[j].value;
    if v in LandedTakeovers(s, j - 1) {
      TakeoversBelow(s, j - 1, v);
      MarkerPlace(s, j);
    }
  }

  /** Base carries none of the takeover markers landed in this life up to place j, in any view of it. */
  ghost predicate BaseHasNoTakeovers(s: State, j: nat)
    requires j < |s.history|
  {
    forall b, x | b in s.bases && x in LandedTakeovers(s, j) :: !Anc(s.log, x, b)
  }

  /** Every observer counts at least the takeovers of this life. */
  lemma CountIsAtLeast(s: State, j: nat, view: Id)
    requires j < |s.history| && s.history[j].Some? && BaseHasNoTakeovers(s, j) && view in s.bases && Inv(s)
    ensures |TakeoverMarkers(s.log, view, s.history[j].value)| >= Takeovers(s, j)
  {
    TakeoversCounted(s, j);
    forall x | x in LandedTakeovers(s, j) ensures x in TakeoverMarkers(s.log, view, s.history[j].value) {
      TakeoversBelow(s, j, x);
    }
    SubsetCount(LandedTakeovers(s, j), TakeoverMarkers(s.log, view, s.history[j].value));
  }

  lemma {:induction false} SubsetCount(a: set<Id>, b: set<Id>)
    requires a <= b
    ensures |a| <= |b|
    decreases a
  {
    if a != {} {
      var x :| x in a;
      SubsetCount(a - {x}, b - {x});
    }
  }

  // ---- time ----

  /** When each value of the work ref landed, on a clock that does not step back. */
  ghost predicate Timed(s: State, times: seq<int>) {
    |times| == |s.history| && forall i, j | 0 <= i <= j < |times| :: times[i] <= times[j]
  }

  /** An observer's looks at one commit are true: it was on the ref by then. */
  ghost predicate TrueLooks(s: State, times: seq<int>, looks: seq<Look<string>>, x: Id, name: Id -> string)
    requires |times| == |s.history|
  {
    forall k | 0 <= k < |looks| && looks[k].tip == Some(name(x)) :: SeenBy(s, times, x, looks[k].at)
  }

  ghost predicate SeenBy(s: State, times: seq<int>, x: Id, at: int)
    requires |times| == |s.history|
  {
    exists j :: 0 <= j < |s.history| && s.history[j] == Some(x) && times[j] <= at
  }

  /** An observer's true looks at exactly the tip the takeover at place i replaced, the
    window stale past (k+1) windows, k the observer's count of the chain, before the
    takeover landed. */
  ghost predicate Matured(s: State, times: seq<int>, i: nat, t: int, name: Id -> string, looks: seq<Look<string>>,
                          now: int, view: Id, sMax: int)
    requires |times| == |s.history| && 1 <= i < |s.history|
  {
    && s.history[i-1].Some? && |looks| > 0 && looks[|looks|-1].at <= now <= times[i]
    && TrueLooks(s, times, looks, s.history[i-1].value, name)
    && view in s.bases && ObserveAll(looks).tip == Some(name(s.history[i-1].value))
    && StaleHold(ObserveAll(looks), now, (|TakeoverMarkers(s.log, view, s.history[i-1].value)| + 1) * t, sMax)
  }

  /** The takeover at place i was tried on some observer's matured window. */
  ghost predicate OnMaturedWindow(s: State, times: seq<int>, i: nat, t: int, name: Id -> string)
    requires |times| == |s.history| && 1 <= i < |s.history|
  {
    exists looks, now, view, sMax :: Matured(s, times, i, t, name, looks, now, view, sMax)
  }

  /** What a matured window saw first, it saw after the tip landed. */
  lemma FirstLookIsLater(s: State, times: seq<int>, i: nat, t: int, name: Id -> string, looks: seq<Look<string>>,
                         now: int, view: Id, sMax: int)
    requires Inv(s) && Timed(s, times) && 1 <= i < |s.history| && t > 0
    requires Matured(s, times, i, t, name, looks, now, view, sMax)
    ensures var k := |TakeoverMarkers(s.log, view, s.history[i-1].value)|;
      times[i] - times[i-1] > (k + 1) * t
  {
    hide Inv;
    hide TakeoverMarkers;
    var k := |TakeoverMarkers(s.log, view, s.history[i-1].value)|;
    var x := s.history[i-1].value;
    Product(0, k + 1, t);
    MaturedWindowIsHonest(looks, now, (k + 1) * t, sMax);
    hide ObserveAll;
    var w := ObserveAll(looks);
    var first := |looks| - w.samples;
    assert looks[first].tip == Some(name(x));
    assert SeenBy(s, times, x, looks[first].at);
    var j: nat :| j < |s.history| && s.history[j] == Some(x) && times[j] <= looks[first].at;
    if j < i - 1 { NoValueReturns(s, j, i - 1); }
    assert times[i-1] <= times[j];
  }

  /** One backed-off takeover lands more than (k+1) windows after the value it
    replaced, k the takeovers before it. */
  lemma TakeoverWaits(s: State, times: seq<int>, i: nat, t: int, name: Id -> string)
    requires Inv(s) && Timed(s, times) && 1 <= i < |s.history| && t > 0
    requires BaseHasNoTakeovers(s, i - 1) && OnMaturedWindow(s, times, i, t, name)
    ensures times[i] - times[i-1] > (Takeovers(s, i - 1) + 1) * t
  {
    hide Inv;
    hide BaseHasNoTakeovers;
    hide Takeovers;
    hide TakeoverMarkers;
    var looks, now, view, sMax :| Matured(s, times, i, t, name, looks, now, view, sMax);
    FirstLookIsLater(s, times, i, t, name, looks, now, view, sMax);
    CountIsAtLeast(s, i - 1, view);
    Product(Takeovers(s, i - 1) + 1, |TakeoverMarkers(s.log, view, s.history[i-1].value)| + 1, t);
  }

  lemma Product(a: nat, b: nat, t: int)
    requires a <= b && t > 0
    ensures 0 <= a * t <= b * t
  {
  }

  lemma FewerTakeovers(s: State, i: nat)
    requires 1 <= i < |s.history| && s.history[i].Some? && BaseHasNoTakeovers(s, i)
    ensures BaseHasNoTakeovers(s, i - 1)
  {
    hide Anc;
  }

  /** Quadratic damping: if every takeover of this life was tried on a matured window,
    never on a dead session, then the n-th lands more than t*n*(n+1)/2 after the
    claim the life began with. */
  lemma {:induction false} TakeoversDampQuadratically(s: State, times: seq<int>, c: nat, i: nat, t: int,
                                                      name: Id -> string)
    requires Inv(s) && Timed(s, times) && c <= i && OneLife(s, c, i) && t > 0 && BaseHasNoTakeovers(s, i)
    requires 1 <= c && s.history[c-1] == None
    requires forall j: nat | c < j <= i && IsTakeover(s.log, s.history[j].value) ::
      OnMaturedWindow(s, times, j, t, name)
    ensures 2 * (times[i] - times[c]) >= t * Takeovers(s, i) * (Takeovers(s, i) + 1)
    ensures Takeovers(s, i) > 0 ==> 2 * (times[i] - times[c]) > t * Takeovers(s, i) * (Takeovers(s, i) + 1)
    decreases i
  {
    hide OnMaturedWindow;
    hide Inv;
    hide BaseHasNoTakeovers;
    if i == c {
      LifeStartsClaimed(s, c - 1);
      assert Takeovers(s, c - 1) == 0;
    } else {
      FewerTakeovers(s, i);
      TakeoversDampQuadratically(s, times, c, i - 1, t, name);
      var n := Takeovers(s, i - 1);
      if IsTakeover(s.log, s.history[i].value) {
        TakeoverWaits(s, times, i, t, name);
        Quadratic(n, t);
      } else {
        assert times[i-1] <= times[i];
      }
    }
  }

  lemma Quadratic(n: nat, t: int)
    ensures t * (n + 1) * (n + 2) == t * n * (n + 1) + 2 * ((n + 1) * t)
  {
  }
}
