/** The work ref as an abstract lock: what its history means, and that frit's
  reads of the commit graph agree with it. */
module Lock {
  import opened Wrappers
  import opened Commits
  import opened Machine
  import opened Invariants
  import opened History

  /** The lock a plan's lease implements. */
  datatype Lease = Absent | Free(epoch: nat) | Held(epoch: nat, holder: string, lane: string)

  function MarkerLease(body: Body, before: Lease): Lease
    requires body.Marker?
  {
    match body.kind
    case Claim => Held(body.epoch, body.holder, body.lane)
    case Takeover => Held(body.epoch, body.holder, body.lane)
    case Release => Free(body.epoch)
    case Beat => before
  }

  /** Folding the history up to place j: acquisitions hold, releases free, beats
    and work change nothing, a deletion forgets. */
  function Fold(log: Log, h: seq<Option<Id>>, j: nat): Lease
    requires j < |h|
  {
    if h[j].None? then Absent
    else
      var before := if j == 0 then Absent else Fold(log, h, j - 1);
      if IsMarker(log, h[j].value) then MarkerLease(log[h[j].value].body, before) else before
  }

  /** The latest marker at or before place j in this life of the ref. */
  function GovAt(log: Log, h: seq<Option<Id>>, j: nat): Option<Id>
    requires j < |h|
  {
    if h[j].None? then None
    else if IsMarker(log, h[j].value) then h[j]
    else if j == 0 then None else GovAt(log, h, j - 1)
  }

  /** The latest terminal marker at or before place j in this life of the ref. */
  function TermAt(log: Log, h: seq<Option<Id>>, j: nat): Option<Id>
    requires j < |h|
  {
    if h[j].None? then None
    else if IsTerminal(log, h[j].value) then h[j]
    else if j == 0 then None else TermAt(log, h, j - 1)
  }

  /** How many claims and takeovers landed in this life of the ref, up to place j. */
  function Acquisitions(log: Log, h: seq<Option<Id>>, j: nat): nat
    requires j < |h|
  {
    if h[j].None? then 0
    else
      (if j == 0 then 0 else Acquisitions(log, h, j - 1)) + (if IsAcquisition(log, h[j].value) then 1 else 0)
  }

  // ---- what reading the governing marker may answer ----

  /** Whichever marker git lists first at place j, it is the governing one. */
  ghost predicate Determined(s: State, j: nat)
    requires j < |s.history|
  {
    s.history[j].Some? ==> forall x: Id | Nearest(s.log, s.history[j].value, x) :: Some(x) == GovAt(s.log, s.history, j)
  }

  /** Whichever marker git lists first at place j, it carries the governing epoch. */
  ghost predicate EpochRead(s: State, j: nat)
    requires j < |s.history|
  {
    s.history[j].Some? ==>
      var g := GovAt(s.log, s.history, j);
      && g.Some? && IsMarker(s.log, g.value)
      && forall x: Id | Nearest(s.log, s.history[j].value, x) :: s.log[x].body.epoch == s.log[g.value].body.epoch
  }

  /** In the life place j belongs to, every earlier tip was one the epoch is read right at. */
  ghost predicate EpochsRead(s: State, j: nat)
    requires j < |s.history| && s.history[0] == None
  {
    forall i: nat | LifeStart(s.history, j) < i < j :: EpochRead(s, i)
  }

  /** Whichever terminal marker git lists first at place j, it is the latest one landed. */
  ghost predicate TermDetermined(s: State, j: nat)
    requires j < |s.history|
  {
    s.history[j].Some? ==>
      forall x: Id | NearestTerminal(s.log, s.history[j].value, x) :: Some(x) == TermAt(s.log, s.history, j)
  }

  /** The value at place j reaches no marker of another life of the ref, but those
    the claim that began this life was already built on: no lane merged one in. */
  ghost predicate NoStray(s: State, j: nat)
    requires j < |s.history| && s.history[0] == None
  {
    s.history[j].Some? ==>
      var c := LifeStart(s.history, j) + 1;
      c <= j && s.history[c].Some? &&
      forall y: Id | IsMarker(s.log, y) && Anc(s.log, y, s.history[j].value) ::
        (y in s.landed && c <= s.landed[y]) || Anc(s.log, y, s.history[c].value)
  }

  // ---- where the governing and terminal markers stand ----

  lemma {:induction false} GovPlace(s: State, j: nat)
    requires Inv(s) && j < |s.history| && s.history[j].Some?
    ensures var g := GovAt(s.log, s.history, j);
      && g.Some? && g.value in s.landed && IsMarker(s.log, g.value) && s.landed[g.value] <= j
      && OneLife(s, s.landed[g.value], j)
      && forall i | s.landed[g.value] < i <= j :: !IsMarker(s.log, s.history[i].value)
    decreases j
  {
    hide Grounded;
    hide RefsOk;
    hide Minting;
    assert Moved(s, j);
    hide Anc;
    if !IsMarker(s.log, s.history[j].value) {
      GovPlace(s, j - 1);
    }
  }

  lemma {:induction false} TermPlace(s: State, j: nat)
    requires Inv(s) && j < |s.history| && s.history[j].Some?
    ensures var g := TermAt(s.log, s.history, j);
      && g.Some? && g.value in s.landed && IsTerminal(s.log, g.value) && s.landed[g.value] <= j
      && OneLife(s, s.landed[g.value], j)
      && forall i | s.landed[g.value] < i <= j :: !IsTerminal(s.log, s.history[i].value)
    decreases j
  {
    hide Grounded;
    hide RefsOk;
    hide Minting;
    assert Moved(s, j);
    hide Anc;
    if !IsTerminal(s.log, s.history[j].value) {
      if s.history[j-1].None? { LifeStartsClaimed(s, j - 1); }
      TermPlace(s, j - 1);
    }
  }

  /** Markers landed in the order they descend. */
  lemma LandedInOrder(s: State, g: Id, y: Id, j: nat)
    requires Inv(s) && j < |s.history| && s.history[j].Some?
    requires IsMarker(s.log, g) && IsMarker(s.log, y) && Anc(s.log, g, y) && Anc(s.log, y, s.history[j].value)
    ensures g in s.landed && y in s.landed && s.landed[g] <= s.landed[y] <= j
    ensures s.landed[y] < |s.history| && s.history[s.landed[y]] == Some(y)
    ensures g != y ==> s.landed[g] < s.landed[y]
  {
    hide Grounded;
    hide RefsOk;
    hide Minting;
    hide Anc;
    assert Moved(s, j);
    assert Moved(s, s.landed[y]);
    assert s.history[s.landed[g]] == Some(g);
  }

  /** The governing marker is one git may list first at the value it governs. */
  lemma GovIsNearest(s: State, j: nat)
    requires Inv(s) && j < |s.history| && s.history[j].Some?
    ensures var g := GovAt(s.log, s.history, j); g.Some? && Nearest(s.log, s.history[j].value, g.value)
  {
    hide Anc;
    GovPlace(s, j);
    var g := GovAt(s.log, s.history, j).value;
    AppendOnly(s, s.landed[g], j);
    forall y: Id | IsMarker(s.log, y) && Anc(s.log, y, s.history[j].value) && Anc(s.log, g, y) ensures y == g {
      LandedInOrder(s, g, y, j);
      hide Inv;
    }
    hide Inv;
    hide GovAt;
  }

  lemma TermIsNearest(s: State, j: nat)
    requires Inv(s) && j < |s.history| && s.history[j].Some?
    ensures var g := TermAt(s.log, s.history, j); g.Some? && NearestTerminal(s.log, s.history[j].value, g.value)
  {
    hide Anc;
    TermPlace(s, j);
    var g := TermAt(s.log, s.history, j).value;
    AppendOnly(s, s.landed[g], j);
    forall y: Id | IsTerminal(s.log, y) && Anc(s.log, y, s.history[j].value) && Anc(s.log, g, y) ensures y == g {
      LandedInOrder(s, g, y, j);
      hide Inv;
    }
    hide Inv;
    hide TermAt;
  }

  // ---- reads agree, when nothing stray was merged ----

  /** Under NoStray, a marker below a value of this life is comparable with every
    marker landed in this life up to it. */
  lemma Comparable(s: State, j: nat, g: Id, y: Id)
    requires Inv(s) && j < |s.history| && s.history[j].Some? && NoStray(s, j)
    requires IsMarker(s.log, y) && Anc(s.log, y, s.history[j].value)
    requires IsMarker(s.log, g) && g in s.landed && s.landed[g] <= j && OneLife(s, s.landed[g], j)
    ensures Anc(s.log, g, y) || Anc(s.log, y, g)
  {
    hide Anc;
    hide Grounded;
    hide RefsOk;
    hide Minting;
    var c := LifeStart(s.history, j) + 1;
    var ig := s.landed[g];
    assert s.history[ig] == Some(g) && c <= ig;
    if y in s.landed && c <= s.landed[y] {
      LandedBy(s, j, y);
      var iy := s.landed[y];
      if ig <= iy { AppendOnly(s, ig, iy); } else { AppendOnly(s, iy, ig); }
    } else {
      AppendOnly(s, c, ig);
      AncTrans(s.log, y, s.history[c].value, g);
    }
  }

  lemma LandedBy(s: State, j: nat, y: Id)
    requires Inv(s) && j < |s.history| && s.history[j].Some?
    requires IsMarker(s.log, y) && Anc(s.log, y, s.history[j].value)
    ensures y in s.landed && s.landed[y] <= j && s.history[s.landed[y]] == Some(y)
  {
    assert Anc(s.log, y, y);
    LandedInOrder(s, y, y, j);
  }

  /** latestMarker has one answer: the governing marker. */
  lemma LatestMarkerIsGoverning(s: State, j: nat, x: Id)
    requires Inv(s) && j < |s.history| && s.history[j].Some? && NoStray(s, j)
    requires Nearest(s.log, s.history[j].value, x)
    ensures GovAt(s.log, s.history, j) == Some(x)
  {
    GovPlace(s, j);
    GovIsNearest(s, j);
    var g := GovAt(s.log, s.history, j).value;
    hide GovAt;
    Comparable(s, j, g, x);
    hide Inv;
    hide NoStray;
  }

  lemma NearestTerminalIsLatest(s: State, j: nat, x: Id)
    requires Inv(s) && j < |s.history| && s.history[j].Some? && NoStray(s, j)
    requires NearestTerminal(s.log, s.history[j].value, x)
    ensures TermAt(s.log, s.history, j) == Some(x)
  {
    TermPlace(s, j);
    TermIsNearest(s, j);
    var g := TermAt(s.log, s.history, j).value;
    hide TermAt;
    Comparable(s, j, g, x);
    hide Inv;
    hide NoStray;
  }

  /** So a tip no lane merged another life's markers into is read right. */
  lemma NoStrayIsDetermined(s: State, j: nat)
    requires Inv(s) && j < |s.history| && NoStray(s, j)
    ensures Determined(s, j) && TermDetermined(s, j)
  {
    hide Inv;
    hide NoStray;
    hide Nearest;
    hide NearestTerminal;
    if s.history[j].Some? {
      forall x: Id | Nearest(s.log, s.history[j].value, x) ensures Some(x) == GovAt(s.log, s.history, j) {
        LatestMarkerIsGoverning(s, j, x);
      }
      forall x: Id | NearestTerminal(s.log, s.history[j].value, x) ensures Some(x) == TermAt(s.log, s.history, j) {
        NearestTerminalIsLatest(s, j, x);
      }
    }
  }

  /** A read that can only answer the governing marker answers its epoch. */
  lemma DeterminedReadsEpoch(s: State, j: nat)
    requires Inv(s) && j < |s.history| && Determined(s, j)
    ensures EpochRead(s, j)
  {
    hide Nearest;
    if s.history[j].Some? { GovPlace(s, j); }
    hide Inv;
  }

  /** So in a life no lane merged another life's markers into, the epoch was read right at every tip. */
  lemma NoStrayReadsEpochs(s: State, j: nat)
    requires Inv(s) && j < |s.history| && s.history[0] == None
    requires forall i: nat | LifeStart(s.history, j) < i < j :: NoStray(s, i)
    ensures EpochsRead(s, j)
  {
    hide NoStray;
    hide EpochRead;
    hide Determined;
    hide TermDetermined;
    forall i: nat | LifeStart(s.history, j) < i < j ensures EpochRead(s, i) {
      NoStrayIsDetermined(s, i);
      DeterminedReadsEpoch(s, i);
    }
    hide Inv;
  }

  // ---- when the reads are determined, exactly ----

  /** Above any marker below a tip stands one git may list first. */
  lemma NearestAbove(log: Log, tip: Id, y: Id) returns (x: Id)
    requires IsMarker(log, y) && Anc(log, y, tip)
    ensures Nearest(log, tip, x) && Anc(log, y, x)
    decreases |log| - y
  {
    if Nearest(log, tip, y) {
      x := y;
    } else {
      var z: Id :| z < |log| && IsMarker(log, z) && Anc(log, z, tip) && Anc(log, y, z) && z != y;
      x := NearestAbove(log, tip, z);
      AncTrans(log, y, z, x);
    }
  }

  lemma TerminalAbove(log: Log, tip: Id, y: Id) returns (x: Id)
    requires IsTerminal(log, y) && Anc(log, y, tip)
    ensures NearestTerminal(log, tip, x) && Anc(log, y, x)
    decreases |log| - y
  {
    if NearestTerminal(log, tip, y) {
      x := y;
    } else {
      var z: Id :| z < |log| && IsTerminal(log, z) && Anc(log, z, tip) && Anc(log, y, z) && z != y;
      x := TerminalAbove(log, tip, z);
      AncTrans(log, y, z, x);
    }
  }

  /** latestMarker answers the governing marker, whatever order git lists commits in, exactly when every
    marker the tip reaches is an ancestor of it: a caller can ask `git merge-base --is-ancestor`. */
  lemma DeterminedIff(s: State, j: nat)
    requires Inv(s) && j < |s.history| && s.history[j].Some?
    ensures GovAt(s.log, s.history, j).Some?
    ensures var t, g := s.history[j].value, GovAt(s.log, s.history, j).value;
      Determined(s, j) <==> forall y: Id | IsMarker(s.log, y) && Anc(s.log, y, t) :: Anc(s.log, y, g)
    // or, asking git alone: when it can list one marker first only
    ensures Determined(s, j) <==>
      forall x: Id, y: Id | Nearest(s.log, s.history[j].value, x) && Nearest(s.log, s.history[j].value, y) :: x == y
  {
    GovIsNearest(s, j);
    hide Inv;
    hide GovAt;
    hide Anc;
    var t, g := s.history[j].value, GovAt(s.log, s.history, j).value;
    if Determined(s, j) {
      forall y: Id | IsMarker(s.log, y) && Anc(s.log, y, t) ensures Anc(s.log, y, g) {
        var x := NearestAbove(s.log, t, y);
      }
    }
  }

  /** The same for the nearest claim, takeover or release. */
  lemma TermDeterminedIff(s: State, j: nat)
    requires Inv(s) && j < |s.history| && s.history[j].Some?
    ensures TermAt(s.log, s.history, j).Some?
    ensures var t, g := s.history[j].value, TermAt(s.log, s.history, j).value;
      TermDetermined(s, j) <==> forall y: Id | IsTerminal(s.log, y) && Anc(s.log, y, t) :: Anc(s.log, y, g)
    ensures TermDetermined(s, j) <==>
      var t := s.history[j].value;
      forall x: Id, y: Id | NearestTerminal(s.log, t, x) && NearestTerminal(s.log, t, y) :: x == y
  {
    TermIsNearest(s, j);
    hide Inv;
    hide TermAt;
    hide Anc;
    var t, g := s.history[j].value, TermAt(s.log, s.history, j).value;
    if TermDetermined(s, j) {
      forall y: Id | IsTerminal(s.log, y) && Anc(s.log, y, t) ensures Anc(s.log, y, g) {
        var x := TerminalAbove(s.log, t, y);
      }
    }
  }

  /** The epoch read at a tip is the governing one, whatever order git lists commits in, exactly when all the
    markers it may list first carry one epoch. */
  lemma EpochReadIff(s: State, j: nat)
    requires Inv(s) && j < |s.history| && s.history[j].Some?
    ensures EpochRead(s, j) <==>
      forall x: Id, y: Id | Nearest(s.log, s.history[j].value, x) && Nearest(s.log, s.history[j].value, y) ::
        s.log[x].body.epoch == s.log[y].body.epoch
  {
    GovIsNearest(s, j);
    hide Inv;
    hide GovAt;
    hide Anc;
  }
}
