/** Git as frit drives it: origin and the clones, with everybody else at work.

  `World` holds the shared state. Each method below is one git command a
  transition runs; before it takes effect any other clone, person or server may
  do anything the machine allows, and it may fail with or without effect. */
module World {
  import opened Wrappers
  import opened Commits
  import opened Machine
  import opened Invariants
  import opened History
  import opened Preservation

  /** What is taken for granted of everybody else while a call runs: they move
    the `forward` copies only to descendants, the `still` copies not at all, they
    fetch in none of the `quiet` clones, and when the caller is `alone` they do
    nothing, and its own git reads and fetches its objects. */
  datatype Rely = Rely(forward: set<Copy>, still: set<Copy>, quiet: set<nat>, alone: bool)

  /** `ls-remote`: a fault, or what the ref holds. */
  datatype Read = Fault | Answer(tip: Option<Id>)

  /** The value was on origin's work ref at some moment between the two states. */
  ghost predicate SeenBetween(a: State, b: State, v: Option<Id>) {
    exists i: nat :: |a.history| <= i + 1 && i < |b.history| && b.history[i] == v
  }

  lemma SeenNow(a: State, b: State)
    requires Inv(b) && Grows(a, b)
    ensures SeenBetween(a, b, b.Work())
  {
    hide Grounded;
    hide RefsOk;
    hide Minting;
    assert b.history[|b.history| - 1] == b.Work();
  }

  lemma SeenStable(a: State, b: State, c: State)
    requires Grows(a, b) && Grows(b, c) && b.Work().Some?
    ensures SeenBetween(a, c, b.Work())
  {
    assert c.history[|b.history| - 1] == b.Work();
  }

  lemma SeenLater(a: State, b: State, c: State, v: Option<Id>)
    requires SeenBetween(a, b, v) && Grows(b, c)
    ensures SeenBetween(a, c, v)
  {
    var i: nat :| |a.history| <= i + 1 && i < |b.history| && b.history[i] == v;
    assert c.history[i] == v;
  }

  lemma SeenEarlier(a: State, b: State, c: State, v: Option<Id>)
    requires Grows(a, b) && SeenBetween(b, c, v)
    ensures SeenBetween(a, c, v)
  {
  }

  /** The copy held x at some moment between the two states. */
  ghost predicate CopySeen(a: State, b: State, k: Copy, x: Id) {
    exists mid: State :: Grows(a, mid) && Grows(mid, b) && mid.Local(k) == Some(x)
  }

  lemma CopySeenNow(a: State, mid: State, b: State, k: Copy, x: Id)
    requires Grows(a, mid) && Grows(mid, b) && mid.Local(k) == Some(x)
    ensures CopySeen(a, b, k, x)
  {
  }

  lemma CopySeenLater(a: State, b: State, c: State, k: Copy, x: Id)
    requires CopySeen(a, b, k, x) && Grows(b, c)
    ensures CopySeen(a, c, k, x)
  {
    var mid: State :| Grows(a, mid) && Grows(mid, b) && mid.Local(k) == Some(x);
    GrowsTrans(mid, b, c);
  }

  /** Time passed: nothing recorded was undone, and the still copies stood. */
  ghost predicate Passed(rely: Rely, a: State, b: State) {
    Grows(a, b) && forall k | k in rely.still :: b.Local(k) == a.Local(k)
  }

  lemma PassedSelf(rely: Rely, a: State)
    ensures Passed(rely, a, a)
  {
  }

  lemma PassedTrans(rely: Rely, a: State, b: State, c: State)
    requires Passed(rely, a, b) && Passed(rely, b, c)
    ensures Passed(rely, a, c)
  {
  }

  /** What a branch may stand at, it may always stand at. */
  lemma StillFetchable(a: State, b: State, x: Id)
    requires Grows(a, b) && a.Fetchable(x)
    ensures b.Fetchable(x)
  {
  }

  /** Nor does its being judged on base. */
  lemma StillOnBase(a: State, b: State, why: Evidence)
    requires Grows(a, b) && OnBaseView(a, why)
    ensures OnBaseView(b, why)
  {
  }

  /** A landed claim, beat or takeover marker stays one. */
  lemma StillProof(a: State, b: State, tip: Id)
    requires Grows(a, b) && tip in a.landed && IsMarker(a.log, tip) && !IsRelease(a.log, tip)
    ensures tip in b.landed && IsMarker(b.log, tip) && !IsRelease(b.log, tip)
  {
  }

  /** A name nobody used yet has not landed. */
  lemma FreshIsUnlanded(s: State)
    requires Inv(s)
    ensures |s.log| !in s.landed
  {
  }

  lemma PassedGrows(rely: Rely, a: State, b: State)
    requires Passed(rely, a, b)
    ensures Grows(a, b) && a.log <= b.log && a.history <= b.history
    ensures forall x: Id :: a.Fetchable(x) ==> b.Fetchable(x)
    ensures forall x: Id :: x in a.bases ==> x in b.bases
  {
    hide Anc;
  }

  /** Nothing on origin, and no commit, changed. */
  ghost predicate SameRemote(a: State, b: State) {
    && b.log == a.log && b.bases == a.bases && b.history == a.history && b.expects == a.expects
    && b.landed == a.landed && b.rescue == a.rescue && b.legacy == a.legacy && b.deleted == a.deleted
    && b.merge == a.merge
  }

  /** Nothing but some FETCH_HEAD changed. */
  ghost predicate OnlyFetched(a: State, b: State) {
    b == a.(heads := b.heads)
  }

  /** Exactly one thing happened to refs: the work ref moved to m, and the copy may have followed. */
  ghost predicate MovedTo(a: State, b: State, k: Copy, m: Id) {
    && b.history == a.history + [Some(m)]
    && b.bases == a.bases && b.rescue == a.rescue && b.legacy == a.legacy
    && (b.Local(k) == a.Local(k) || b.Local(k) == Some(m))
    && forall other | other != k :: b.Local(other) == a.Local(other)
  }

  lemma MovedAmong(a: State, b: State, c: State, d: State, k: Copy, m: Id)
    requires SameRefs(a, b) && MovedTo(b, c, k, m) && SameRefs(c, d)
    ensures MovedTo(a, d, k, m)
  {
    assert b.Local(k) == a.Local(k) && d.Local(k) == c.Local(k);
    forall other | other != k ensures d.Local(other) == a.Local(other) {
      assert d.Local(other) == c.Local(other) == b.Local(other) == a.Local(other);
    }
  }

  /** No ref changed, on origin or in any clone. */
  ghost predicate SameRefs(a: State, b: State) {
    b.history == a.history && b.bases == a.bases && b.rescue == a.rescue && b.legacy == a.legacy && b.local == a.local
  }

  // ---- what a call does itself ----

  /** What a command is about. It reads the work ref, a rescue ref or a decorated branch on origin, a local copy,
    the marker git lists first at a tip, whether a tip is itself a marker, or a release, whether one commit is
    below another, base, whether base has a tip, whether a tip has work above base, whether merging it into base
    changes nothing, or whether a worktree stands on a copy, which faults when one does. Or it is one that may fail
    at what it is to do: fetch, mint a marker, push one, park, delete the work ref or a decorated branch, move a
    copy, save a token. Or the process dies. */
  datatype Subject =
    | OfWork
    | OfRescue(rescue: Rescue)
    | OfLegacy(branch: string)
    | OfCopy(copy: Copy)
    | OfMarker(tip: Id)
    | OfMarked(tip: Id)
    | OfRelease(tip: Id)
    | OfBelow(low: Id, high: Id)
    | OfBase
    | OfBaseHas(tip: Id)
    | OfChain(tip: Id)
    | OfMerge(tip: Id)
    | OfWorktree(copy: Copy)
    | OfFetch(clone: nat)
    | OfMint
    | OfPush(marker: Id)
    | OfPark(rescue: Rescue)
    | OfDelete(tip: Id)
    | OfDeleteLegacy(branch: string)
    | OfMove(copy: Copy, to: Option<Id>)
    | OfSave(lane: Lane, tip: Id)
    | OfCrash

  /** One thing a call did: a change it made to the state it met, or a command and what it answered. */
  datatype Deed = Deed(at: State, what: Label) | Heard(at: State, of: Subject, answer: Read)

  /** How a question is answered: yes by naming a commit, no by naming none, as it is too when it failed. */
  function Yes(yes: bool, x: Id): Read {
    Answer(if yes then Some(x) else None)
  }

  /** An answer says what was there. A local copy or a marker that could not be read is told as none and a
    question git could not answer as no; a push that succeeded did what it was to do; and a fetch, a mint, a move,
    a save or a crash is told only as the fault it is. */
  ghost predicate Truthful(at: State, of: Subject, answer: Read) {
    answer.Answer? ==>
      match of
      case OfWork => answer.tip == at.Work()
      case OfRescue(r) => answer.tip == if r in at.rescue then Some(at.rescue[r]) else None
      case OfLegacy(b) => answer.tip == if b in at.legacy then Some(at.legacy[b]) else None
      case OfCopy(k) => answer.tip.Some? ==> at.Local(k) == answer.tip
      case OfMarker(x) => answer.tip.Some? ==> Nearest(at.log, x, answer.tip.value)
      case OfMarked(x) => answer.tip.Some? ==> IsMarker(at.log, x)
      case OfRelease(x) => answer.tip.Some? ==> IsRelease(at.log, x)
      case OfBelow(a, b) => answer.tip.Some? ==> Anc(at.log, a, b)
      case OfBase => answer.tip.Some? ==> answer.tip.value in at.bases
      case OfBaseHas(x) => answer.tip.Some? ==> at.Viewed(answer.tip.value) && Anc(at.log, x, answer.tip.value)
      case OfChain(x) =>
        if answer.tip.Some? then at.Viewed(answer.tip.value) && at.HasWork(answer.tip.value, x)
        else exists v :: at.Viewed(v) && !at.HasWork(v, x)
      case OfMerge(x) =>
        answer.tip.Some? ==> exists same :: MergedSame(at, answer.tip.value, x, same)
      case OfWorktree(_) => answer.tip.None?
      case OfPush(m) => answer.tip == Some(m) && m in at.landed
      case OfPark(r) => answer.tip == Some(r.tip) && r in at.rescue && at.rescue[r] == r.tip
      case OfDelete(_) => answer.tip.None? && at.Work().None?
      case OfDeleteLegacy(b) => answer.tip.None? && b !in at.legacy
      case _ => false
  }

  /** Merging tip into a view of base gave the tree of one. */
  ghost predicate MergedSame(s: State, into: Id, tip: Id, same: Id) {
    s.Viewed(into) && s.Viewed(same) && s.merge(into, tip, same)
  }

  /** What a call may do itself: mint markers over these values, land these, park these, delete the work ref
    at these tips and decorated branches at just these, move copies so, save these tokens, fetch in these
    clones; and, if it is so `judged`, delete on views that were values of base only. */
  datatype Footprint = Footprint(mints: set<Option<Id>>, lands: set<Id>, parks: set<Rescue>, deletes: set<Id>,
                                 legacy: map<string, Id>, moves: set<(Copy, Option<Id>)>, saves: set<(Lane, Id)>,
                                 fetches: set<nat>, judged: bool)

  const NOTHING := Footprint({}, {}, {}, {}, map[], {}, {}, {}, true)

  predicate May(f: Footprint, l: Label) {
    match l
    case Mint(_, _, expected, _) => expected in f.mints
    case Land(m) => m in f.lands
    case Park(r) => r in f.parks
    case Delete(tip, _) => tip in f.deletes
    case DeleteLegacy(b, tip, _) => b in f.legacy && f.legacy[b] == tip
    case MoveLocal(k, to) => (k, to) in f.moves
    case SaveToken(lane, m) => (lane, m) in f.saves
    case Fetch(k, _) => k in f.fetches
    case _ => false
  }

  /** What a call may try: what it may do, and any read. */
  predicate MayTry(f: Footprint, of: Subject) {
    match of
    case OfFetch(k) => k in f.fetches
    case OfMint => f.mints != {}
    case OfPush(m) => m in f.lands
    case OfPark(r) => r in f.parks
    case OfDelete(tip) => tip in f.deletes
    case OfDeleteLegacy(b) => b in f.legacy
    case OfMove(k, to) => (k, to) in f.moves
    case OfSave(lane, m) => (lane, m) in f.saves
    case _ => true
  }

  predicate Judged(s: State, l: Label) {
    match l
    case Delete(_, why) => OnBaseView(s, why)
    case DeleteLegacy(_, _, why) => OnBaseView(s, why)
    case _ => true
  }

  predicate Within(f: Footprint, g: Footprint) {
    && f.mints <= g.mints && f.lands <= g.lands && f.parks <= g.parks && f.deletes <= g.deletes
    && (forall b | b in f.legacy :: b in g.legacy && g.legacy[b] == f.legacy[b])
    && f.moves <= g.moves && f.saves <= g.saves && f.fetches <= g.fetches && (g.judged ==> f.judged)
  }

  /** An answer is told truly, and of something the footprint allows to try; a change is one it allows, made when
    the machine allowed it: a delete met the ref at its tip with its evidence in place, a park a free name. */
  ghost predicate Allowed(f: Footprint, d: Deed) {
    match d
    case Deed(at, what) => Inv(at) && May(f, what) && Enabled(at, what) && (f.judged ==> Judged(at, what))
    case Heard(at, of, answer) => MayTry(f, of) && Truthful(at, of, answer)
  }

  /** From a to b the call did only what the footprint allows. */
  ghost predicate Acted(a: seq<Deed>, b: seq<Deed>, f: Footprint) {
    a <= b && forall i | |a| <= i < |b| :: Allowed(f, b[i])
  }

  /** Whenever the call moved a copy, it met the copy as it had read it. */
  ghost predicate MovesMet(a: seq<Deed>, b: seq<Deed>, k: Copy, seen: Option<Id>) {
    a <= b && forall i | |a| <= i < |b| && b[i].Deed? && b[i].what.MoveLocal? :: b[i].at.Local(k) == seen
  }

  /** It dropped no local copy without having just read that no worktree stands on it. */
  ghost predicate DropsVacant(a: seq<Deed>, b: seq<Deed>) {
    a <= b && forall i | |a| <= i < |b| && b[i].Deed? && b[i].what.MoveLocal? && b[i].what.to.None? ::
      |a| < i && b[i-1].Heard? && b[i-1].of == OfWorktree(b[i].what.copy) && b[i-1].answer == Answer(None)
  }

  lemma VacantThen(a: seq<Deed>, b: seq<Deed>, c: seq<Deed>)
    requires DropsVacant(a, b) && DropsVacant(b, c)
    ensures DropsVacant(a, c)
  {
    forall i | |a| <= i < |c| && c[i].Deed? && c[i].what.MoveLocal? && c[i].what.to.None?
      ensures |a| < i && c[i-1].Heard? && c[i-1].of == OfWorktree(c[i].what.copy) && c[i-1].answer == Answer(None)
    {
      if i < |b| { assert c[i] == b[i] && (i > 0 ==> c[i-1] == b[i-1]); }
    }
  }

  lemma NoDrop(a: seq<Deed>, b: seq<Deed>, f: Footprint)
    requires Acted(a, b, f) && forall m | m in f.moves :: m.1.Some?
    ensures DropsVacant(a, b)
  {
    hide Inv;
    hide Enabled;
    hide Truthful;
    hide Judged;
    forall i | |a| <= i < |b| && b[i].Deed? && b[i].what.MoveLocal? ensures b[i].what.to.Some? {
      assert Allowed(f, b[i]);
    }
  }

  /** The log holds this answer at that place. */
  ghost predicate HeardAt(own: seq<Deed>, i: int, of: Subject, answer: Read) {
    0 <= i < |own| && own[i].Heard? && own[i].of == of && own[i].answer == answer
  }

  /** The last thing it did was to hear this. */
  ghost predicate LastHeard(own: seq<Deed>, of: Subject, answer: Read) {
    HeardAt(own, |own| - 1, of, answer)
  }

  lemma MovesMetTrans(a: seq<Deed>, b: seq<Deed>, c: seq<Deed>, k: Copy, seen: Option<Id>)
    requires MovesMet(a, b, k, seen) && MovesMet(b, c, k, seen)
    ensures MovesMet(a, c, k, seen)
  {
  }

  lemma NoMoves(a: seq<Deed>, b: seq<Deed>, f: Footprint, k: Copy, seen: Option<Id>)
    requires Acted(a, b, f) && f.moves == {}
    ensures MovesMet(a, b, k, seen)
  {
    hide Inv;
    hide Enabled;
    hide Truthful;
    hide Judged;
    forall i | |a| <= i < |b| && b[i].Deed? ensures !b[i].what.MoveLocal? {
      assert Allowed(f, b[i]);
    }
  }

  lemma ActedNone(a: seq<Deed>, f: Footprint)
    ensures Acted(a, a, f)
  {
  }

  lemma ActedOne(a: seq<Deed>, d: Deed, f: Footprint)
    requires Allowed(f, d)
    ensures Acted(a, a + [d], f)
  {
    hide Allowed;
  }

  /** Among what it did between a and b it heard this. */
  ghost predicate HeardIn(a: seq<Deed>, b: seq<Deed>, of: Subject, answer: Read) {
    exists i :: |a| <= i && HeardAt(b, i, of, answer)
  }

  /** The first thing it did after a was to hear this. */
  ghost predicate FirstHeard(a: seq<Deed>, b: seq<Deed>, of: Subject, answer: Read) {
    HeardAt(b, |a|, of, answer)
  }

  lemma FirstStill(a: seq<Deed>, b: seq<Deed>, c: seq<Deed>, of: Subject, answer: Read)
    requires FirstHeard(a, b, of, answer) && b <= c
    ensures FirstHeard(a, c, of, answer) && HeardIn(a, c, of, answer)
  {
    assert HeardAt(c, |a|, of, answer);
  }

  lemma HeardLast(a: seq<Deed>, b: seq<Deed>, of: Subject, answer: Read)
    requires |a| < |b| && LastHeard(b, of, answer)
    ensures HeardIn(a, b, of, answer)
  {
  }

  lemma HeardStill(a: seq<Deed>, b: seq<Deed>, c: seq<Deed>, d: seq<Deed>, of: Subject, answer: Read)
    requires |a| <= |b| && HeardIn(b, c, of, answer) && c <= d
    ensures HeardIn(a, d, of, answer)
  {
    var i :| |b| <= i && HeardAt(c, i, of, answer);
    assert HeardAt(d, i, of, answer);
  }

  /** It made this change, or tried to and was told that it failed. */
  ghost predicate Tried(a: seq<Deed>, b: seq<Deed>, l: Label, of: Subject) {
    exists i :: |a| <= i < |b| && Attempt(b[i], l, of)
  }

  ghost predicate Attempt(d: Deed, l: Label, of: Subject) {
    match d
    case Deed(_, what) => what == l
    case Heard(_, about, answer) => about == of && answer == Fault
  }

  /** A fetch in this clone, or one that failed. */
  ghost predicate Fetches(d: Deed, clone: nat) {
    match d
    case Deed(_, what) => what.Fetch? && what.clone == clone
    case Heard(_, of, answer) => of == OfFetch(clone) && answer == Fault
  }

  /** Just before hi, and not before lo, it read the marker at the tip so; and it told none only when it found
    none, and the fetch after that failed or it then found none again. */
  ghost predicate MarkerTold(own: seq<Deed>, lo: nat, hi: nat, clone: nat, tip: Id, x: Option<Id>) {
    hi <= |own| &&
    if x.Some? then lo < hi && HeardAt(own, hi - 1, OfMarker(tip), Answer(x))
    else
      || (lo <= hi - 2 && HeardAt(own, hi - 2, OfMarker(tip), Answer(None))
          && HeardAt(own, hi - 1, OfFetch(clone), Fault))
      || (lo <= hi - 3 && HeardAt(own, hi - 3, OfMarker(tip), Answer(None)) && Fetches(own[hi-2], clone)
          && HeardAt(own, hi - 1, OfMarker(tip), Answer(None)))
  }

  /** A bound lane's token was to follow its lease. */
  ghost predicate SaveTried(a: seq<Deed>, b: seq<Deed>, lane: Lane, tip: Id) {
    lane.path == "" || lane.path == "-" || Tried(a, b, SaveToken(lane, tip), OfSave(lane, tip))
  }

  lemma TriedNow(a: seq<Deed>, d: Deed, l: Label, of: Subject)
    requires Attempt(d, l, of)
    ensures Tried(a, a + [d], l, of)
  {
    assert (a + [d])[|a|] == d;
  }

  lemma TriedStill(a: seq<Deed>, b: seq<Deed>, c: seq<Deed>, d: seq<Deed>, l: Label, of: Subject)
    requires |a| <= |b| && Tried(b, c, l, of) && c <= d
    ensures Tried(a, d, l, of)
  {
    hide Attempt;
    var i :| |b| <= i < |c| && Attempt(c[i], l, of);
    assert d[i] == c[i];
  }

  lemma ActedLonger(a: seq<Deed>, b: seq<Deed>, f: Footprint)
    requires Acted(a, b, f)
    ensures a <= b && |a| <= |b|
  {
  }

  lemma MayMore(f: Footprint, all: Footprint, d: Deed)
    requires Allowed(f, d) && Within(f, all)
    ensures Allowed(all, d)
  {
    hide Inv;
    hide Enabled;
    hide Truthful;
    hide Judged;
  }

  lemma ActedWider(a: seq<Deed>, b: seq<Deed>, f: Footprint, all: Footprint)
    requires Acted(a, b, f) && Within(f, all)
    ensures Acted(a, b, all)
  {
    hide Allowed;
    hide Within;
    forall i | |a| <= i < |b| ensures Allowed(all, b[i]) { MayMore(f, all, b[i]); }
  }

  lemma ActedThen(a: seq<Deed>, b: seq<Deed>, c: seq<Deed>, f: Footprint, g: Footprint, all: Footprint)
    requires Acted(a, b, f) && Acted(b, c, g) && Within(f, all) && Within(g, all)
    ensures Acted(a, c, all)
  {
    hide Allowed;
    hide Within;
    ActedWider(a, b, f, all);
    ActedWider(b, c, g, all);
    forall i | |a| <= i < |c| ensures Allowed(all, c[i]) {
      if i < |b| { assert c[i] == b[i]; }
    }
  }

  /** Reads before or after add nothing to what a call does. */
  lemma ReadThen(a: seq<Deed>, b: seq<Deed>, c: seq<Deed>, f: Footprint)
    requires (Acted(a, b, NOTHING) && Acted(b, c, f)) || (Acted(a, b, f) && Acted(b, c, NOTHING))
    ensures Acted(a, c, f)
  {
    hide Acted;
    if Acted(a, b, NOTHING) && Acted(b, c, f) {
      ActedThen(a, b, c, NOTHING, f, f);
    } else {
      ActedThen(a, b, c, f, NOTHING, f);
    }
  }

  /** The names of base: FETCH_HEAD, after a fetch of it, or this clone's remote-tracking copy. */
  datatype BaseName = Fetched | Tracking

  class World {
    var s: State
    const rely: Rely
    ghost var since: State      // where the run under observation started
    ghost var own: seq<Deed>    // what the commands run here did and were told, others' changes left out

    /** The state is one some run from `since` reaches, moving the forward copies
      forward only. */
    ghost predicate Valid() reads this {
      Inv(s) && Inv(since) && Reach(rely.forward, since, s)
    }

    constructor (rely: Rely, s: State)
      requires Inv(s)
      ensures Valid() && this.rely == rely && this.s == s && since == s && own == []
    {
      this.rely := rely;
      this.s := s;
      this.since := s;
      this.own := [];
      ReachSelf(rely.forward, s);
    }

    /** One change of the shared state. */
    method Do(l: Label)
      requires Valid() && Enabled(s, l) && Forward(rely.forward, s, l)
      modifies this`s
      ensures Valid() && s == Next(old(s), l) && Grows(old(s), s)
    {
      StepInv(s, l);
      StepGrows(s, l);
      ReachStep(rely.forward, s, l);
      ReachTrans(rely.forward, since, s, Next(s, l));
      s := Next(s, l);
    }

    /** One change a command makes. */
    method Perform(l: Label)
      requires Valid() && Enabled(s, l) && Forward(rely.forward, s, l)
      modifies this`s, this`own
      ensures Valid() && s == Next(old(s), l) && Grows(old(s), s)
      ensures own == old(own) + [Deed(old(s), l)]
    {
      own := own + [Deed(s, l)];
      Do(l);
    }

    /** What a command answers. */
    ghost method Hear(of: Subject, answer: Read, f: Footprint := NOTHING)
      requires MayTry(f, of) && Truthful(s, of, answer)
      modifies this`own
      ensures own == old(own) + [Heard(s, of, answer)] && Acted(old(own), own, f)
    {
      ActedOne(own, Heard(s, of, answer), f);
      own := own + [Heard(s, of, answer)];
    }

    /** The same of a command that may have changed something first. */
    ghost method Answers(before: seq<Deed>, of: Subject, answer: Read, f: Footprint)
      requires Acted(before, own, f) && MayTry(f, of) && Truthful(s, of, answer)
      modifies this`own
      ensures own == old(own) + [Heard(s, of, answer)] && Acted(before, own, f)
      ensures |before| < |own| && LastHeard(own, of, answer)
    {
      ghost var doing := own;
      Hear(of, answer, f);
      ActedThen(before, doing, own, f, f, f);
    }

    /** The process may die between any two commands. */
    method Crashes() returns (yes: bool)
      modifies this`own
      ensures own == if yes then old(own) + [Heard(s, OfCrash, Fault)] else old(own)
      ensures Acted(old(own), own, NOTHING)
    {
      yes := *;
      ActedNone(own, NOTHING);
      if yes { Hear(OfCrash, Fault); }
    }

    predicate Leaves(l: Label) reads this {
      !(l.MoveLocal? && l.copy in rely.still) && !(l.Fetch? && l.clone in rely.quiet)
    }

    /** Everybody else: any number of enabled changes within the rely. */
    method Interfere()
      requires Valid()
      modifies this`s
      ensures Valid() && Passed(rely, old(s), s)
      ensures rely.alone ==> s == old(s)
      ensures forall k | k in rely.quiet :: s.Head(k) == old(s).Head(k)
    {
      if rely.alone { return; }
      var labels: seq<Label> := *;
      for i := 0 to |labels|
        invariant Valid() && Passed(rely, old(s), s)
        invariant forall k | k in rely.quiet :: s.Head(k) == old(s).Head(k)
      {
        var l := labels[i];
        if Enabled(s, l) && Forward(rely.forward, s, l) && Leaves(l) {
          ghost var before := s;
          Do(l);
          LeavesStill(rely, before, l);
          LeavesHeads(rely, before, l);
          PassedTrans(rely, old(s), before, s);
        }
      }
    }

    // ---- reads ----

    /** ls-remote on the work ref. */
    method LsRemote() returns (r: Read)
      requires Valid()
      modifies this`s, this`own
      ensures Valid() && Passed(rely, old(s), s) && (rely.alone ==> s == old(s))
      ensures own == old(own) + [Heard(s, OfWork, r)] && Acted(old(own), own, NOTHING)
      ensures r.Answer? ==> r.tip == s.Work()
    {
      hide Inv;
      hide Anc;
      hide Passed;
      Interfere();
      var fails: bool := *;
      r := if fails then Fault else Answer(s.Work());
      Hear(OfWork, r);
    }

    /** ls-remote on a rescue ref. */
    method LsRescue(ref: Rescue) returns (r: Read)
      requires Valid()
      modifies this`s, this`own
      ensures Valid() && Passed(rely, old(s), s) && (rely.alone ==> s == old(s))
      ensures own == old(own) + [Heard(s, OfRescue(ref), r)] && Acted(old(own), own, NOTHING)
      ensures r.Answer? ==> r.tip == if ref in s.rescue then Some(s.rescue[ref]) else None
    {
      hide Inv;
      hide Anc;
      hide Passed;
      Interfere();
      var fails: bool := *;
      r := if fails then Fault else Answer(if ref in s.rescue then Some(s.rescue[ref]) else None);
      Hear(OfRescue(ref), r);
    }

    /** ls-remote on a decorated branch. */
    method LsLegacy(branch: string) returns (r: Read)
      requires Valid()
      modifies this`s, this`own
      ensures Valid() && Passed(rely, old(s), s) && (rely.alone ==> s == old(s))
      ensures own == old(own) + [Heard(s, OfLegacy(branch), r)] && Acted(old(own), own, NOTHING)
      ensures r.Answer? ==> r.tip == if branch in s.legacy then Some(s.legacy[branch]) else None
    {
      hide Inv;
      hide Anc;
      hide Passed;
      Interfere();
      var fails: bool := *;
      r := if fails then Fault else Answer(if branch in s.legacy then Some(s.legacy[branch]) else None);
      Hear(OfLegacy(branch), r);
    }

    /** rev-parse of a local copy: None when it is absent or cannot be read. */
    method LocalTip(k: Copy) returns (tip: Option<Id>)
      requires Valid()
      modifies this`s, this`own
      ensures Valid() && Passed(rely, old(s), s) && (rely.alone ==> s == old(s))
      ensures own == old(own) + [Heard(s, OfCopy(k), Answer(tip))] && Acted(old(own), own, NOTHING)
      ensures tip.Some? ==> s.Local(k) == tip && s.Fetchable(tip.value)
      ensures rely.alone ==> tip == s.Local(k)
    {
      Interfere();
      var fails: bool := *;
      tip := if fails && !rely.alone then None else s.Local(k);
      Hear(OfCopy(k), Answer(tip));
    }

    /** A fetch of a branch that stands at tip. */
    method Bring(clone: nat, tip: Id)
      requires Valid() && s.Fetchable(tip)
      modifies this`s, this`own
      ensures Acted(old(own), own, NOTHING.(fetches := {clone}))
      ensures own == old(own) + [Deed(old(s), Fetch(clone, tip))]
      ensures Valid() && Passed(rely, old(s), s) && OnlyFetched(old(s), s) && s.Head(clone) == Some(tip)
    {
      hide Inv;
      hide Anc;
      HeadMoves(rely, s, clone, tip);
      FetchAllowed(own, s, clone, tip);
      hide MintFits;
      hide Next;
      hide Passed;
      hide Acted;
      Perform(Fetch(clone, tip));
    }

    /** freshBase: base brought into FETCH_HEAD, which is then its name; or, when the fetch fails, the name of
      this clone's remote-tracking copy. */
    method FreshBase(clone: nat) returns (name: BaseName)
      requires Valid()
      modifies this`s, this`own
      ensures Acted(old(own), own, NOTHING.(fetches := {clone}))
      // it settles for the copy only when the fetch failed
      ensures |own| == |old(own)| + 1 && (name.Tracking? ==> LastHeard(own, OfFetch(clone), Fault))
      ensures Valid() && Passed(rely, old(s), s) && NamesBase(clone, name)
      ensures rely.alone ==> OnlyFetched(old(s), s) && name.Fetched? && s.Head(clone) == Some(s.Base())
    {
      hide Inv;
      hide Anc;
      hide Passed;
      hide Grows;
      hide Acted;
      ghost var start := s;
      Interfere();
      BasesFetchable(s);
      ghost var before := s;
      var fails: bool := *;
      name := Tracking;
      if !fails || rely.alone {
        Bring(clone, s.Base());
        name := Fetched;
        PassedTrans(rely, start, before, s);
      } else {
        Hear(OfFetch(clone), Fault, NOTHING.(fetches := {clone}));
      }
    }

    /** The name stands for a value of base now. */
    ghost predicate NamesBase(clone: nat, name: BaseName) reads this {
      name.Tracking? || (s.Head(clone).Some? && s.Head(clone).value in s.bases)
    }

    /** rev-parse of a name for base, as each command that is given it does anew: FETCH_HEAD is whatever the
      clone's last fetch left there. */
    method Resolve(clone: nat, name: BaseName) returns (view: Option<Id>)
      requires Valid()
      modifies this`s
      ensures Valid() && Passed(rely, old(s), s) && (rely.alone ==> s == old(s))
      ensures view.Some? ==> s.Viewed(view.value)
      ensures old(NamesBase(clone, name)) && clone in rely.quiet ==>
        NamesBase(clone, name) && (view.Some? ==> view.value in s.bases)
      ensures rely.alone && name.Fetched? ==> view == s.Head(clone)
    {
      hide Inv;
      hide Anc;
      ghost var before := s;
      Interfere();
      BasesFetchable(s);
      assert Grows(before, s);
      var fails: bool := *;
      if name.Fetched? {
        view := if fails && !rely.alone then None else s.Head(clone);
        if view.Some? { assert view.value in s.heads[clone]; }
      } else {
        var i: nat := *;
        view := if 0 <= i < |s.bases| && !fails then Some(s.bases[i]) else None;
      }
    }

    /** rev-parse of the base given, a remote-tracking copy: some value base had, None on a fault. */
    method TrackingBase() returns (base: Option<Id>)
      requires Valid()
      modifies this`s, this`own
      ensures Valid() && Passed(rely, old(s), s) && (rely.alone ==> s == old(s))
      ensures own == old(own) + [Heard(s, OfBase, Answer(base))] && Acted(old(own), own, NOTHING)
      ensures base.Some? ==> base.value in s.bases && s.Fetchable(base.value)
      ensures rely.alone ==> base.Some?
    {
      Interfere();
      BasesFetchable(s);
      var fails: bool, i: nat := *, *;
      base := if i < |s.bases| && !fails then Some(s.bases[i]) else if rely.alone then Some(s.bases[0]) else None;
      Hear(OfBase, Answer(base));
    }

    /** merge-base --is-ancestor, false on any fault. */
    method IsAncestor(a: Id, b: Id) returns (yes: bool)
      modifies this`own
      ensures own == old(own) + [Heard(s, OfBelow(a, b), Yes(yes, b))] && Acted(old(own), own, NOTHING)
      ensures yes ==> Anc(s.log, a, b)
      ensures rely.alone ==> yes == Anc(s.log, a, b)
    {
      var fails: bool := *;
      yes := (!fails || rely.alone) && Anc(s.log, a, b);
      Hear(OfBelow(a, b), Yes(yes, b));
    }

    /** The same against a name for base. */
    method BaseHas(clone: nat, name: BaseName, tip: Id) returns (yes: bool, ghost view: Id)
      requires Valid()
      modifies this`s, this`own
      ensures Valid() && Passed(rely, old(s), s) && (rely.alone ==> s == old(s))
      ensures own == old(own) + [Heard(s, OfBaseHas(tip), Yes(yes, view))] && Acted(old(own), own, NOTHING)
      ensures yes ==> s.Viewed(view) && Anc(s.log, tip, view)
      ensures old(NamesBase(clone, name)) && clone in rely.quiet ==>
        NamesBase(clone, name) && (yes ==> view in s.bases)
      ensures rely.alone && name.Fetched? && s.Head(clone).Some? ==>
        view == s.Head(clone).value && yes == Anc(s.log, tip, view)
    {
      var b := Resolve(clone, name);
      yes, view := false, 0;
      if b.Some? {
        var fails: bool := *;
        view := b.value;
        yes := (!fails || rely.alone) && Anc(s.log, tip, b.value);
      }
      Hear(OfBaseHas(tip), Yes(yes, view));
    }

    /** latestMarker: the first marker some order of `git log tip` lists, None on
      any fault or when there is none. */
    method LatestMarker(tip: Id) returns (x: Option<Id>)
      modifies this`own
      ensures own == old(own) + [Heard(s, OfMarker(tip), Answer(x))] && Acted(old(own), own, NOTHING)
      ensures x.Some? ==> Nearest(s.log, tip, x.value)
      ensures rely.alone && x.None? ==> forall y: Id :: !Nearest(s.log, tip, y)
    {
      var pick: Id := *;
      x := if Nearest(s.log, tip, pick) then Some(pick) else None;
      if rely.alone && x.None? {
        if y: Id :| 0 <= y < |s.log| && Nearest(s.log, tip, y) { x := Some(y); }
      }
      Hear(OfMarker(tip), Answer(x));
    }

    /** fetch of the work ref, by a call that wants its objects: it too leaves its mark in FETCH_HEAD. */
    method FetchWork(clone: nat) returns (ok: bool)
      requires Valid()
      modifies this`s, this`own
      ensures Acted(old(own), own, NOTHING.(fetches := {clone}))
      ensures |own| == |old(own)| + 1 && old(own) <= own && Fetches(own[|own|-1], clone)
      ensures !ok ==> LastHeard(own, OfFetch(clone), Fault)
      ensures Valid() && Passed(rely, old(s), s) && (rely.alone ==> OnlyFetched(old(s), s))
    {
      hide Inv;
      hide Anc;
      hide Acted;
      hide Passed;
      hide Grows;
      ghost var start := s;
      Interfere();
      var fails: bool := *;
      ghost var before := s;
      ok := !fails && s.Work().Some?;
      if ok {
        WorkFetchable(s);
        Bring(clone, s.Work().value);
        PassedTrans(rely, start, before, s);
      } else {
        Hear(OfFetch(clone), Fault, NOTHING.(fetches := {clone}));
      }
    }

    /** fetchedMarker: the marker at a tip, read again after a fetch when the first read found none. */
    method FetchedMarker(clone: nat, tip: Id) returns (x: Option<Id>)
      requires Valid()
      modifies this`s, this`own
      ensures Acted(old(own), own, NOTHING.(fetches := {clone}))
      ensures |old(own)| < |own| && MarkerTold(own, |old(own)|, |own|, clone, tip, x)
      ensures Valid() && Passed(rely, old(s), s) && (rely.alone ==> OnlyFetched(old(s), s))
      ensures x.Some? ==> Nearest(s.log, tip, x.value)
      ensures rely.alone && x.None? ==> forall y: Id :: !Nearest(s.log, tip, y)
    {
      hide Inv;
      hide Nearest;
      hide Acted;
      hide Passed;
      hide Grows;
      hide Fetches;
      ghost var f := NOTHING.(fetches := {clone});
      x := LatestMarker(tip);
      ghost var read := own;
      ActedWider(old(own), read, NOTHING, f);
      PassedSelf(rely, s);
      if x.None? {
        var ok := FetchWork(clone);
        ghost var fetched := own;
        ActedThen(old(own), read, fetched, f, f, f);
        assert HeardAt(fetched, |read| - 1, OfMarker(tip), Answer(None));
        if ok {
          x := LatestMarker(tip);
          ReadThen(old(own), fetched, own, f);
          assert own[|own|-2] == fetched[|fetched|-1] && own[|own|-3] == read[|read|-1];
        }
      }
    }

    /** commitMarker: whether a commit's own message is a marker. */
    method ReadsMarker(tip: Id) returns (yes: bool)
      modifies this`own
      ensures own == old(own) + [Heard(s, OfMarked(tip), Yes(yes, tip))] && Acted(old(own), own, NOTHING)
      ensures yes ==> IsMarker(s.log, tip)
      ensures rely.alone ==> yes == IsMarker(s.log, tip)
    {
      var fails: bool := *;
      yes := (!fails || rely.alone) && IsMarker(s.log, tip);
      Hear(OfMarked(tip), Yes(yes, tip));
    }

    /** The same, and whether it is a release. */
    method ReadsRelease(tip: Id) returns (yes: bool)
      modifies this`own
      ensures own == old(own) + [Heard(s, OfRelease(tip), Yes(yes, tip))] && Acted(old(own), own, NOTHING)
      ensures yes ==> IsRelease(s.log, tip)
      ensures rely.alone ==> yes == IsRelease(s.log, tip)
    {
      var fails: bool := *;
      yes := (!fails || rely.alone) && IsRelease(s.log, tip);
      Hear(OfRelease(tip), Yes(yes, tip));
    }

    /** hasWork, against a name for base: None on a fault. */
    method ReadsWork(clone: nat, name: BaseName, tip: Id) returns (r: Option<bool>, view: Id)
      requires Valid()
      modifies this`s, this`own
      ensures Valid() && Passed(rely, old(s), s) && (rely.alone ==> s == old(s))
      ensures own == old(own) + [Heard(s, OfChain(tip), if r.None? then Fault else Yes(r.value, view))]
      ensures Acted(old(own), own, NOTHING)
      ensures r.Some? ==> s.Viewed(view) && r.value == s.HasWork(view, tip)
      ensures old(NamesBase(clone, name)) && clone in rely.quiet ==>
        NamesBase(clone, name) && (r.Some? ==> view in s.bases)
      ensures rely.alone && name.Fetched? && s.Head(clone).Some? ==> r.Some? && view == s.Head(clone).value
    {
      var b := Resolve(clone, name);
      r, view := None, 0;
      if b.Some? {
        view := b.value;
        var fails: bool := *;
        r := if fails && !rely.alone then None else Some(s.HasWork(b.value, tip));
      }
      Hear(OfChain(tip), if r.None? then Fault else Yes(r.value, view));
    }

    /** landedByContent: whether merging tip into the view gives the tree of the view, no on any fault. The
      name is resolved for the merge and again for the tree. */
    method MergesToNothing(clone: nat, name: BaseName, tip: Id) returns (yes: bool, into: Id, same: Id)
      requires Valid()
      modifies this`s, this`own
      ensures Valid() && Passed(rely, old(s), s) && (rely.alone ==> s == old(s))
      ensures |own| == |old(own)| + 1 && LastHeard(own, OfMerge(tip), Yes(yes, into))
      ensures Acted(old(own), own, NOTHING)
      ensures yes ==> s.Viewed(into) && s.Viewed(same) && s.merge(into, tip, same)
      ensures old(NamesBase(clone, name)) && clone in rely.quiet ==>
        NamesBase(clone, name) && (yes ==> into in s.bases && same in s.bases)
      ensures rely.alone && name.Fetched? && s.Head(clone).Some? ==>
        into == same == s.Head(clone).value && yes == s.merge(into, tip, same)
    {
      hide Inv;
      yes, into, same := false, 0, 0;
      ghost var start := s;
      var i := Resolve(clone, name);
      if i.Some? {
        ghost var merged := s;
        var m := Resolve(clone, name);
        PassedTrans(rely, start, merged, s);
        if m.Some? {
          into, same := i.value, m.value;
          StillViewed(merged, s, into);
          var fails: bool := *;
          yes := s.merge(i.value, tip, m.value) && (rely.alone || !fails);
        }
      }
      assert yes ==> MergedSame(s, into, tip, same);
      Hear(OfMerge(tip), Yes(yes, into));
    }

    // ---- writes ----

    /** commit-tree: a marker commit, None on a git fault. */
    method MintMarker(parent: Id, body: Body, expected: Option<Id>, read: Id) returns (m: Option<Id>)
      requires Valid() && body.Marker? && s.Fetchable(parent) && MintFits(s.log, s.bases, parent, body, expected, read)
      modifies this`s, this`own
      ensures Acted(old(own), own, NOTHING.(mints := {expected}))
      ensures Valid() && Passed(rely, old(s), s)
      ensures rely.alone ==> s.legacy == old(s).legacy
      ensures m.None? ==> s == old(s) && own == old(own) + [Heard(s, OfMint, Fault)]
      ensures m.Some? ==> own == old(own) + [Deed(old(s), Mint(parent, body, expected, read))]
      ensures m.Some? ==>
        && m.value == |old(s).log| && s.log == old(s).log + [Commit({parent}, body)]
        && m.value in s.expects && s.expects[m.value] == expected && m.value !in s.landed
        && SameRefs(old(s), s) && s.reflog == old(s).reflog && s.landed == old(s).landed
    {
      hide Inv;
      hide Anc;
      hide Nearest;
      hide Next;
      hide MintFits;
      hide Acted;
      hide Passed;
      var fails: bool := *;
      PassedSelf(rely, s);
      if fails || |s.log| in s.expects {
        assert expected in NOTHING.(mints := {expected}).mints;
        Hear(OfMint, Fault, NOTHING.(mints := {expected}));
        return None;
      }
      m := Some(|s.log|);
      FreshIsUnlanded(s);
      MintEffect(rely, s, parent, body, expected, read);
      ActedOne(own, Deed(s, Mint(parent, body, expected, read)), NOTHING.(mints := {expected}));
      Perform(Mint(parent, body, expected, read));
    }

    /** One push: it takes effect when the remote still allows it, or never does. */
    method Push(l: Label, ghost f: Footprint) returns (did: bool)
      requires Valid() && !l.MoveLocal? && !l.Fetch? && May(f, l) && (f.judged ==> Judged(s, l))
      modifies this`s, this`own
      ensures Acted(old(own), own, f)
      ensures Valid() && Passed(rely, old(s), s)
      ensures rely.alone ==> s == old(s) || Did(old(s), l, s)
      ensures did ==> Pushed(s, l)
    {
      hide Inv;
      hide Anc;
      hide Acted;
      hide Judged;
      hide May;
      hide Enabled;
      hide Next;
      hide Pushed;
      ghost var start := s;
      Interfere();
      if f.judged { StillJudged(start, s, l); }
      ghost var before := s;
      ActedNone(own, f);
      did := *;
      did := did && Enabled(s, l);
      if did {
        LeavesStill(rely, s, l);
        PushEffect(s, l);
        ActedOne(own, Deed(s, l), f);
        Perform(l);
      }
      PassedTrans(rely, start, before, s);
    }

    /** push --force-with-lease of a marker. A success means it landed; after a
      failure it may have landed all the same, or may land later. */
    method PushMarker(m: Id) returns (ok: bool)
      requires Valid() && m in s.expects
      modifies this`s, this`own
      ensures Acted(old(own), own, NOTHING.(lands := {m}))
      ensures Valid() && Passed(rely, old(s), s)
      ensures rely.alone ==> s == old(s) || Did(old(s), Land(m), s)
      ensures |old(own)| < |own| && LastHeard(own, OfPush(m), if ok then Answer(Some(m)) else Fault)
      ensures ok ==> m in s.landed
    {
      hide Inv;
      hide Anc;
      hide Passed;
      hide Did;
      hide Acted;
      ghost var f := NOTHING.(lands := {m});
      var did := Push(Land(m), f);
      var dropped: bool := *;
      ok := m in s.landed && !dropped;
      Answers(old(own), OfPush(m), if ok then Answer(Some(m)) else Fault, f);
    }

    /** push of a rescue ref, create-only. */
    method PushRescue(ref: Rescue) returns (ok: bool)
      requires Valid() && s.Fetchable(ref.tip)
      modifies this`s, this`own
      ensures Acted(old(own), own, NOTHING.(parks := {ref}))
      ensures Valid() && Passed(rely, old(s), s)
      ensures |old(own)| < |own| && LastHeard(own, OfPark(ref), if ok then Answer(Some(ref.tip)) else Fault)
      ensures ok ==> ref in s.rescue && s.rescue[ref] == ref.tip
      ensures rely.alone ==>
        s == old(s) || (ref !in old(s).rescue && s == old(s).(rescue := old(s).rescue[ref := ref.tip]))
    {
      hide Inv;
      hide Anc;
      hide Passed;
      hide Acted;
      hide MintFits;
      ghost var f := NOTHING.(parks := {ref});
      var did := Push(Park(ref), f);
      var dropped: bool := *;
      ok := did && !dropped;
      Answers(old(own), OfPark(ref), if ok then Answer(Some(ref.tip)) else Fault, f);
    }

    /** push of a delete of the work ref, CASed on tip, on evidence that makes it
      lossless. */
    method PushDelete(tip: Id, why: Evidence) returns (ok: bool)
      requires Valid() && s.Justified(tip, why)
      modifies this`s, this`own
      ensures Acted(old(own), own, NOTHING.(deletes := {tip}, judged := OnBaseView(old(s), why)))
      ensures Valid() && Passed(rely, old(s), s)
      ensures rely.alone ==> s == old(s) || Did(old(s), Delete(tip, why), s)
      ensures |old(own)| < |own| && LastHeard(own, OfDelete(tip), if ok then Answer(None) else Fault)
      ensures ok ==> s.Work().None?
    {
      hide Inv;
      hide Anc;
      hide Passed;
      hide Did;
      hide Acted;
      hide OnBaseView;
      ghost var f := NOTHING.(deletes := {tip}, judged := OnBaseView(s, why));
      var did := Push(Delete(tip, why), f);
      var dropped: bool := *;
      ok := did && !dropped;
      Answers(old(own), OfDelete(tip), if ok then Answer(None) else Fault, f);
    }

    /** The same for a decorated branch. */
    method PushDeleteLegacy(branch: string, tip: Id, why: Evidence) returns (ok: bool)
      requires Valid() && s.Justified(tip, why)
      modifies this`s, this`own
      ensures Acted(old(own), own, NOTHING.(legacy := map[branch := tip], judged := OnBaseView(old(s), why)))
      ensures Valid() && Passed(rely, old(s), s)
      ensures rely.alone ==> s == old(s) || Did(old(s), DeleteLegacy(branch, tip, why), s)
      ensures |old(own)| < |own| && LastHeard(own, OfDeleteLegacy(branch), if ok then Answer(None) else Fault)
      ensures ok ==> branch !in s.legacy
    {
      hide Inv;
      hide Anc;
      hide Passed;
      hide Did;
      hide Acted;
      hide OnBaseView;
      ghost var f := NOTHING.(legacy := map[branch := tip], judged := OnBaseView(s, why));
      var did := Push(DeleteLegacy(branch, tip, why), f);
      var dropped: bool := *;
      ok := did && !dropped;
      Answers(old(own), OfDeleteLegacy(branch), if ok then Answer(None) else Fault, f);
    }

    /** update-ref with an expected old value: moves the copy to `to` only from
      `seen`, and may do nothing at all. */
    method UpdateRef(k: Copy, to: Id, seen: Option<Id>)
      requires Valid() && s.Fetchable(to)
      requires k in rely.forward ==> seen.Some? ==> Anc(s.log, seen.value, to)
      modifies this`s, this`own
      ensures Acted(old(own), own, NOTHING.(moves := {(k, Some(to))}))
      ensures MovesMet(old(own), own, k, seen)
      ensures Tried(old(own), own, MoveLocal(k, Some(to)), OfMove(k, Some(to)))
      ensures Valid() && Passed(rely.(still := rely.still - {k}), old(s), s)
      ensures rely.alone ==> SameRemote(old(s), s)
      ensures rely.alone ==>
        s == old(s) || (old(s).Local(k) == seen && Did(old(s), MoveLocal(k, Some(to)), s))
    {
      Move(k, Some(to), seen, false);
    }

    /** update-ref -d, from exactly `seen` when one is given. */
    method DeleteRef(k: Copy, seen: Option<Id>)
      requires Valid() && k !in rely.forward
      modifies this`s, this`own
      ensures Acted(old(own), own, NOTHING.(moves := {(k, None)}))
      ensures |own| == |old(own)| + 1 && Tried(old(own), own, MoveLocal(k, None), OfMove(k, None))
      ensures seen.Some? ==> MovesMet(old(own), own, k, seen)
      ensures Valid() && Passed(rely.(still := rely.still - {k}), old(s), s)
      ensures rely.alone ==> SameRemote(old(s), s)
      ensures rely.alone ==>
        s == old(s) || ((seen.None? || old(s).Local(k) == seen) && Did(old(s), MoveLocal(k, None), s))
    {
      Move(k, None, seen, seen.None?);
    }

    method Move(k: Copy, to: Option<Id>, seen: Option<Id>, wherever: bool)
      requires Valid() && (to.Some? ==> s.Fetchable(to.value))
      requires k in rely.forward ==> to.Some? && !wherever && (seen.Some? ==> Anc(s.log, seen.value, to.value))
      modifies this`s, this`own
      ensures Acted(old(own), own, NOTHING.(moves := {(k, to)}))
      ensures |own| == |old(own)| + 1 && Tried(old(own), own, MoveLocal(k, to), OfMove(k, to))
      ensures !wherever ==> MovesMet(old(own), own, k, seen)
      ensures Valid() && Passed(rely.(still := rely.still - {k}), old(s), s)
      ensures rely.alone ==> SameRemote(old(s), s)
      ensures rely.alone ==>
        s == old(s) || ((wherever || old(s).Local(k) == seen) && Did(old(s), MoveLocal(k, to), s))
    {
      hide Inv;
      hide MintFits;
      hide Acted;
      hide Passed;
      hide Truthful;
      hide MovesMet;
      hide Tried;
      hide SameRemote;
      ghost var start, f := s, NOTHING.(moves := {(k, to)});
      Interfere();
      PassedGrows(rely, start, s);
      if to.Some? && seen.Some? && !wherever { MoveForward(rely.forward, start, s, k, to.value, seen.value); }
      hide Anc;
      ghost var before := s;
      PassedLess(rely, start, before, k);
      if s.Local(k) == seen { assert to.Some? && seen.None? ==> Forward(rely.forward, s, MoveLocal(k, to)); }
      hide Forward;
      var fails: bool := *;
      if !fails && (wherever || s.Local(k) == seen) {
        MoveEffect(rely, s, k, to);
        hide Next;
        Perform(MoveLocal(k, to));
        MoveTold(old(own), Deed(before, MoveLocal(k, to)), k, to, seen);
      } else {
        SameSelf(s);
        FailTold(s, k, to);
        Hear(OfMove(k, to), Fault, f);
        MoveTold(old(own), Heard(s, OfMove(k, to), Fault), k, to, seen);
      }
      PassedTrans(rely.(still := rely.still - {k}), start, before, s);
    }

    /** Whether a worktree stands on a branch of this clone; yes when unreadable. */
    method CheckedOut(k: Copy) returns (yes: bool)
      modifies this`own
      ensures own == old(own) + [Heard(s, OfWorktree(k), if yes then Fault else Answer(None))]
      ensures Acted(old(own), own, NOTHING)
    {
      yes := *;
      Hear(OfWorktree(k), if yes then Fault else Answer(None));
    }

    /** Writing a lane's token file, silent when it fails. */
    method SaveFile(lane: Lane, tip: Id) returns (ok: bool)
      requires Valid() && tip in s.landed && IsMarker(s.log, tip) && !IsRelease(s.log, tip)
      modifies this`s, this`own
      ensures Acted(old(own), own, NOTHING.(saves := {(lane, tip)}))
      ensures Tried(old(own), own, SaveToken(lane, tip), OfSave(lane, tip))
      ensures Valid() && Passed(rely, old(s), s)
      ensures rely.alone ==> SameRefs(old(s), s)
      ensures ok ==> lane in s.tokens && s.tokens[lane] == tip
    {
      hide Inv;
      hide Anc;
      hide MintFits;
      hide Acted;
      hide Passed;
      hide Tried;
      ghost var start, f := s, NOTHING.(saves := {(lane, tip)});
      Interfere();
      PassedGrows(rely, start, s);
      StillProof(start, s, tip);
      ghost var before := s;
      var fails: bool := *;
      if !fails {
        LeavesStill(rely, s, SaveToken(lane, tip));
        Perform(SaveToken(lane, tip));
        DoneOrFailed(old(own), Deed(before, SaveToken(lane, tip)), SaveToken(lane, tip), OfSave(lane, tip), f);
      } else {
        PassedSelf(rely, s);
        Hear(OfSave(lane, tip), Fault, f);
        DoneOrFailed(old(own), Heard(s, OfSave(lane, tip), Fault), SaveToken(lane, tip), OfSave(lane, tip), f);
      }
      PassedTrans(rely, start, before, s);
      ok := !fails;
    }

    /** WriteToken: skipped in silence for an unbound lane; otherwise it says whether the tip was saved. */
    method WriteToken(lane: Lane, tip: Id) returns (ok: bool)
      requires Valid() && tip in s.landed && IsMarker(s.log, tip) && !IsRelease(s.log, tip)
      modifies this`s, this`own
      ensures Acted(old(own), own, NOTHING.(saves := {(lane, tip)}))
      ensures Valid() && Passed(rely, old(s), s)
      ensures rely.alone ==> SameRefs(old(s), s)
      ensures lane.path == "" || lane.path == "-" ==> ok && s == old(s) && own == old(own)
      ensures SaveTried(old(own), own, lane, tip)
      ensures ok && lane.path != "" && lane.path != "-" ==> lane in s.tokens && s.tokens[lane] == tip
    {
      ok := true;
      if lane.path != "" && lane.path != "-" { ok := SaveFile(lane, tip); }
    }
  }

  lemma BasesFetchable(s: State)
    requires Inv(s)
    ensures |s.bases| > 0 && forall i | 0 <= i < |s.bases| :: s.Fetchable(s.bases[i])
  {
  }

  /** A change that is no fetch in a quiet clone leaves its FETCH_HEAD. */
  lemma LeavesHeads(rely: Rely, s: State, l: Label)
    requires Enabled(s, l) && !(l.Fetch? && l.clone in rely.quiet)
    ensures forall k | k in rely.quiet :: Next(s, l).Head(k) == s.Head(k)
  {
    hide Anc;
    hide MintFits;
  }

  /** What a push that took effect leaves. */
  ghost predicate Pushed(s: State, l: Label) {
    match l
    case Land(m) => m in s.landed
    case Park(r) => r in s.rescue && s.rescue[r] == r.tip
    case Delete(_, _) => s.Work().None?
    case DeleteLegacy(b, _, _) => b !in s.legacy
    case _ => true
  }

  lemma PushEffect(s: State, l: Label)
    requires Enabled(s, l)
    ensures Pushed(Next(s, l), l)
  {
    hide Anc;
    hide MintFits;
  }

  lemma StillJudged(a: State, b: State, l: Label)
    requires Grows(a, b) && Judged(a, l)
    ensures Judged(b, l)
  {
    match l {
      case Delete(_, why) => StillOnBase(a, b, why);
      case DeleteLegacy(_, _, why) => StillOnBase(a, b, why);
      case _ =>
    }
  }

  lemma FetchAllowed(own: seq<Deed>, s: State, clone: nat, tip: Id)
    requires Inv(s) && s.Fetchable(tip)
    ensures Acted(own, own + [Deed(s, Fetch(clone, tip))], NOTHING.(fetches := {clone}))
  {
    hide Inv;
    ActedOne(own, Deed(s, Fetch(clone, tip)), NOTHING.(fetches := {clone}));
  }

  lemma HeadMoves(rely: Rely, s: State, clone: nat, x: Id)
    requires s.Fetchable(x)
    ensures var s' := Next(s, Fetch(clone, x));
      Passed(rely, s, s') && OnlyFetched(s, s') && s'.Head(clone) == Some(x)
  {
  }

  lemma LeavesStill(rely: Rely, s: State, l: Label)
    requires Enabled(s, l) && !(l.MoveLocal? && l.copy in rely.still)
    ensures Passed(rely, s, Next(s, l))
  {
    StepGrows(s, l);
    hide Anc;
    hide MintFits;
    hide Grows;
  }

  lemma MintEffect(rely: Rely, s: State, parent: Id, body: Body, expected: Option<Id>, read: Id)
    requires Enabled(s, Mint(parent, body, expected, read))
    ensures var m, s' := |s.log|, Next(s, Mint(parent, body, expected, read));
      && Passed(rely, s, s')
      && s'.log == s.log + [Commit({parent}, body)]
      && m in s'.expects && s'.expects[m] == expected && s'.landed == s.landed
      && SameRefs(s, s') && s'.reflog == s.reflog
  {
    hide MintFits;
    hide Anc;
  }

  lemma MoveEffect(rely: Rely, s: State, k: Copy, to: Option<Id>)
    requires Enabled(s, MoveLocal(k, to))
    ensures Passed(rely.(still := rely.still - {k}), s, Next(s, MoveLocal(k, to)))
    ensures SameRemote(s, Next(s, MoveLocal(k, to)))
  {
    hide Anc;
  }

  lemma SameSelf(s: State)
    ensures SameRemote(s, s)
  {
  }

  lemma FailTold(s: State, k: Copy, to: Option<Id>)
    ensures Truthful(s, OfMove(k, to), Fault)
  {
  }

  /** One change, made or failed. */
  lemma DoneOrFailed(own: seq<Deed>, d: Deed, l: Label, of: Subject, f: Footprint)
    requires Attempt(d, l, of) && May(f, l) && MayTry(f, of)
    requires d.Deed? ==> Inv(d.at) && Enabled(d.at, d.what) && Judged(d.at, d.what)
    ensures Acted(own, own + [d], f) && Tried(own, own + [d], l, of)
  {
    hide Inv;
    hide Enabled;
    hide Judged;
    ActedOne(own, d, f);
    TriedNow(own, d, l, of);
  }

  lemma MoveTold(own: seq<Deed>, d: Deed, k: Copy, to: Option<Id>, seen: Option<Id>)
    requires Attempt(d, MoveLocal(k, to), OfMove(k, to))
    requires d.Deed? ==> Inv(d.at) && Enabled(d.at, d.what)
    ensures Acted(own, own + [d], NOTHING.(moves := {(k, to)}))
    ensures Tried(own, own + [d], MoveLocal(k, to), OfMove(k, to))
    ensures (d.Deed? ==> d.at.Local(k) == seen) ==> MovesMet(own, own + [d], k, seen)
  {
    DoneOrFailed(own, d, MoveLocal(k, to), OfMove(k, to), NOTHING.(moves := {(k, to)}));
  }

  /** From the tip expected, a move to a descendant of it is forward. */
  lemma MoveForward(fwd: set<Copy>, a: State, b: State, k: Copy, to: Id, seen: Id)
    requires Grows(a, b) && to < |a.log| && (k in fwd ==> Anc(a.log, seen, to))
    ensures b.Local(k) == Some(seen) ==> Forward(fwd, b, MoveLocal(k, Some(to)))
  {
    AncStable(a.log, b.log, seen, to);
  }

  lemma PassedLess(rely: Rely, a: State, b: State, k: Copy)
    requires Passed(rely, a, b)
    ensures Passed(rely.(still := rely.still - {k}), a, b) && Passed(rely.(still := rely.still - {k}), b, b)
  {
  }
}
