/** Park, scavenge and yield: deleting the ref without losing work, whatever
  crashes. */
module Scavenging {
  import opened Wrappers
  import opened Commits
  import opened Machine
  import opened Invariants
  import opened History
  import opened Preservation
  import opened World
  import opened Pushes

  datatype Trouble =
    | ReadFault                    // the remote or the chain could not be read
    | MovedTo(tip: Id, marker: Option<Id>)  // the ref is no longer at the observed tip
    | ParkFault                    // the park left no rescue ref
    | ParkUnconfirmed              // nobody knows whether the park landed
    | RescueConflict(found: Id)    // another object holds the rescue's name
    | DeleteRefused(holder: Id)    // the remote still carries the ref
    | DeleteUnconfirmed            // nobody knows whether the delete landed
    | StillHeld                    // yield: the lane still holds the lease
    | EmptyLocal                   // yield: nothing local to park

  /** `hasUnlanded` against one view of base. */
  predicate Unlanded(s: State, view: Id, tip: Id) {
    s.HasWork(view, tip) && !s.merge(view, tip, view)
  }

  ghost predicate ParkedAt(a: State, b: State, ref: Rescue) {
    ref !in a.rescue && OnlyFetched(a.(rescue := a.rescue[ref := ref.tip]), b)
  }

  /** The last it did was a push that failed, and the read that was to confirm it. */
  ghost predicate Confirmed(own: seq<Deed>, push: Subject, read: Subject, answer: Read) {
    HeardAt(own, |own| - 2, push, Fault) && LastHeard(own, read, answer)
  }

  /** What a refusal says is so, and was told last: a fault is a ref confirmed absent, a conflict or a refused
    delete names what the ref holds, only a confirming read that failed leaves anything unconfirmed, and a read
    fault is one. */
  ghost predicate Told(s: State, own: seq<Deed>, ref: Rescue, t: Trouble) {
    match t
    case ReadFault => LastHeard(own, OfWork, Fault) || LastHeard(own, OfChain(ref.tip), Fault)
    case ParkFault => ref !in s.rescue && Confirmed(own, OfPark(ref), OfRescue(ref), Answer(None))
    case ParkUnconfirmed => Confirmed(own, OfPark(ref), OfRescue(ref), Fault)
    case RescueConflict(x) =>
      ref in s.rescue && s.rescue[ref] == x != ref.tip && Confirmed(own, OfPark(ref), OfRescue(ref), Answer(Some(x)))
    case DeleteRefused(x) => s.Work() == Some(x) && Confirmed(own, OfDelete(ref.tip), OfWork, Answer(Some(x)))
    case DeleteUnconfirmed => Confirmed(own, OfDelete(ref.tip), OfWork, Fault)
    case _ => true
  }

  /** park: create-only; a name already holding this very tip is a park done, one
    holding anything else is refused. */
  method ParkTip(w: World, ref: Rescue) returns (err: Option<Trouble>)
    requires w.Valid() && w.s.Fetchable(ref.tip)
    modifies w`s, w`own
    ensures Acted(old(w.own), w.own, NOTHING.(parks := {ref}))
    ensures w.Valid() && Passed(w.rely, old(w.s), w.s)
    ensures err.None? ==> ref in w.s.rescue && w.s.rescue[ref] == ref.tip
    ensures err.Some? ==>
      && (err.value.ParkFault? || err.value.ParkUnconfirmed? || err.value.RescueConflict?)
      && Told(w.s, w.own, ref, err.value)
    ensures w.rely.alone ==> w.s == old(w.s) || ParkedAt(old(w.s), w.s, ref)
  {
    hide Inv;
    hide Acted;
    hide Passed;
    ghost var start, own := w.s, w.own;
    var ok := w.PushRescue(ref);
    if ok { return None; }
    ghost var pushed, pushing := w.s, w.own;
    var now := w.LsRescue(ref);
    assert Confirmed(w.own, OfPark(ref), OfRescue(ref), now);
    PassedTrans(w.rely, start, pushed, w.s);
    ReadThen(own, pushing, w.own, NOTHING.(parks := {ref}));
    match now {
      case Fault => err := Some(ParkUnconfirmed);
      case Answer(tip) =>
        if tip == Some(ref.tip) { err := None; }
        else if tip.None? { err := Some(ParkFault); }
        else { err := Some(RescueConflict(tip.value)); }
    }
  }

  datatype ParkResult = ParkFailed(trouble: Trouble) | Nothing(why: Evidence) | Rescued(ref: Rescue)

  function Reason(p: ParkResult): Evidence
    requires !p.ParkFailed?
  {
    if p.Nothing? then p.why else Parked(p.ref.holder)
  }

  /** Some evidence still says why this tip could be deleted: on base if so judged, and a park exactly if one
    is reported. */
  ghost predicate Evidenced(s: State, tip: Id, judged: bool, parked: bool) {
    exists why :: s.Justified(tip, why) && (judged ==> OnBaseView(s, why)) && (why.Parked? <==> parked)
  }

  lemma EvidencedStable(a: State, b: State, tip: Id, judged: bool, parked: bool)
    requires Evidenced(a, tip, judged, parked) && Grows(a, b)
    ensures Evidenced(b, tip, judged, parked)
  {
    hide Anc;
    var why :| a.Justified(tip, why) && (judged ==> OnBaseView(a, why)) && (why.Parked? <==> parked);
    StillJustified(a, b, tip, why);
    if judged { StillOnBase(a, b, why); }
  }

  lemma EvidenceFor(s: State, o: Opts, tip: Id, judged: bool, p: ParkResult)
    requires !p.ParkFailed? && s.Justified(tip, Reason(p)) && (judged ==> OnBaseView(s, Reason(p)))
    requires p.Nothing? ==> !p.why.Parked?
    ensures Evidenced(s, tip, judged, p.Rescued?)
  {
    hide Anc;
  }

  lemma ReasonHolds(s: State, tip: Id, p: ParkResult)
    requires !p.ParkFailed? && s.Justified(tip, Reason(p))
    ensures p.Rescued? && p.ref.tip == tip ==> p.ref in s.rescue && s.rescue[p.ref] == tip
  {
    hide Anc;
  }

  /** What ParkUnlanded leaves when nobody else moves, base included. */
  ghost predicate ParkDone(a: State, b: State, ref: Rescue, p: ParkResult)
    requires |a.bases| > 0
  {
    match p
    case Nothing(_) => OnlyFetched(a, b) && !Unlanded(a, a.Base(), ref.tip)
    case Rescued(r) =>
      && Unlanded(a, a.Base(), ref.tip)
      && ((OnlyFetched(a, b) && ref in a.rescue && a.rescue[ref] == ref.tip) || ParkedAt(a, b, ref))
    case ParkFailed(t) =>
      && (t.ReadFault? ==> OnlyFetched(a, b))
      && (!t.ReadFault? ==> Unlanded(a, a.Base(), ref.tip))
      && (t.RescueConflict? ==> OnlyFetched(a, b) && ref in a.rescue && a.rescue[ref] != ref.tip)
      && (OnlyFetched(a, b) || ParkedAt(a, b, ref))
  }

  /** What a park may do itself: park that tip, and fetch in its own clone. */
  function Parking(o: Opts, tip: Id): Footprint {
    NOTHING.(parks := {Rescue(o.holder, tip)}, fetches := {o.clone})
  }

  /** Nothing needed parking as the chain showed no work or the merge changed nothing; and a park was called for by
    the answers to both. */
  ghost predicate Weighed(a: seq<Deed>, b: seq<Deed>, tip: Id, p: ParkResult) {
    match p
    case Nothing(NoWork(_)) => HeardIn(a, b, OfChain(tip), Answer(None))
    case Nothing(Landed(i, _)) => HeardIn(a, b, OfMerge(tip), Answer(Some(i)))
    case ParkFailed(ReadFault) => HeardIn(a, b, OfChain(tip), Fault)
    case _ => HeardIn(a, b, OfMerge(tip), Answer(None))
  }

  /** hasUnlanded: what says that a branch at tip needs no park, or None when it does. */
  method HasUnlanded(w: World, o: Opts, tip: Id) returns (p: Option<ParkResult>)
    requires w.Valid() && w.s.Fetchable(tip)
    modifies w`s, w`own
    ensures Acted(old(w.own), w.own, NOTHING.(fetches := {o.clone}))
    ensures w.Valid() && Passed(w.rely, old(w.s), w.s)
    ensures p.Some? ==> (p.value.Nothing? && !p.value.why.Parked?) || p.value == ParkFailed(ReadFault)
    ensures p.Some? && p.value.Nothing? ==>
      w.s.Justified(tip, p.value.why) && (o.clone in w.rely.quiet ==> OnBaseView(w.s, p.value.why))
    ensures p.Some? && p.value.ParkFailed? ==> !w.rely.alone && LastHeard(w.own, OfChain(tip), Fault)
    ensures if p.Some? then Weighed(old(w.own), w.own, tip, p.value)
            else HeardIn(old(w.own), w.own, OfMerge(tip), Answer(None))
    ensures w.rely.alone ==> OnlyFetched(old(w.s), w.s) && |old(w.s).bases| > 0
    ensures w.rely.alone && p.None? ==> Unlanded(old(w.s), old(w.s).Base(), tip)
    ensures w.rely.alone && p.Some? ==> forall holder :: ParkDone(old(w.s), w.s, Rescue(holder, tip), p.value)
  {
    hide Inv;
    hide Anc;
    hide Acted;
    hide Passed;
    hide HeardIn;
    hide ParkDone;
    hide Grows;
    hide Unlanded;
    hide Weighed;
    ghost var start, own, f := w.s, w.own, NOTHING.(fetches := {o.clone});
    BaseStands(start);
    var name := w.FreshBase(o.clone);
    ghost var fetched, fetching := w.s, w.own;
    ActedLonger(own, fetching, f);
    var work, view := w.ReadsWork(o.clone, name, tip);
    ghost var read, reading := w.s, w.own;
    ReadThen(own, fetching, reading, f);
    ChainWeighed(own, reading, tip, work, view);
    PassedTrans(w.rely, start, fetched, read);
    PassedGrows(w.rely, start, read);
    if work.None? { return Some(ParkFailed(ReadFault)); }
    if !work.value {
      if w.rely.alone { NoWorkDone(start, read, tip, view); }
      return Some(Nothing(NoWork(view)));
    }
    var landed, into, same := w.MergesToNothing(o.clone, name, tip);
    ReadThen(own, reading, w.own, f);
    HeardLast(own, w.own, OfMerge(tip), Yes(landed, into));
    MergeWeighed(own, w.own, tip, landed, into);
    PassedTrans(w.rely, start, read, w.s);
    PassedGrows(w.rely, start, w.s);
    if w.rely.alone { MergedDone(start, w.s, tip, into, landed); }
    p := if landed then Some(Nothing(Landed(into, same))) else None;
  }

  /** ParkUnlanded: leaves evidence for deleting a branch at tip, or refuses. */
  method ParkUnlanded(w: World, o: Opts, tip: Id) returns (p: ParkResult)
    requires w.Valid() && w.s.Fetchable(tip)
    modifies w`s, w`own
    ensures Acted(old(w.own), w.own, Parking(o, tip))
    ensures w.Valid() && Passed(w.rely, old(w.s), w.s)
    ensures !p.ParkFailed? ==> w.s.Justified(tip, Reason(p))
    // with no other fetch in this clone meanwhile, it was judged on base
    ensures !p.ParkFailed? && o.clone in w.rely.quiet ==> OnBaseView(w.s, Reason(p))
    ensures p.ParkFailed? ==>
      (p.trouble.ReadFault? || p.trouble.ParkFault? || p.trouble.ParkUnconfirmed? || p.trouble.RescueConflict?)
      && Told(w.s, w.own, Rescue(o.holder, tip), p.trouble)
    ensures p.Rescued? ==> p.ref == Rescue(o.holder, tip)
    ensures p.Nothing? ==> !p.why.Parked?
    // it parks only what was told to have work, which merging would not lose
    ensures Weighed(old(w.own), w.own, tip, p)
    ensures p.ParkFailed? && p.trouble.ReadFault? ==> !w.rely.alone && LastHeard(w.own, OfChain(tip), Fault)
    ensures w.rely.alone ==> w.s.legacy == old(w.s).legacy && w.s.history == old(w.s).history
    ensures w.rely.alone ==> ParkDone(old(w.s), w.s, Rescue(o.holder, tip), p)
  {
    hide Inv;
    hide Anc;
    hide Acted;
    hide Passed;
    hide Told;
    hide HeardIn;
    hide ParkDone;
    hide Grows;
    hide Unlanded;
    hide Weighed;
    ghost var start, own, all := w.s, w.own, Parking(o, tip);
    var q := HasUnlanded(w, o, tip);
    ghost var judged, judging := w.s, w.own;
    ActedWider(own, judging, NOTHING.(fetches := {o.clone}), all);
    ActedLonger(own, judging, all);
    PassedGrows(w.rely, start, judged);
    if q.Some? {
      if q.value.ParkFailed? { ChainFault(judged, judging, Rescue(o.holder, tip)); }
      return q.value;
    }
    var err := ParkTip(w, Rescue(o.holder, tip));
    if w.rely.alone { TriedDone(start, judged, w.s, w.own, Rescue(o.holder, tip), err); }
    PassedTrans(w.rely, start, judged, w.s);
    ActedThen(own, judging, w.own, all, NOTHING.(parks := {Rescue(o.holder, tip)}), all);
    ActedLonger(judging, w.own, NOTHING.(parks := {Rescue(o.holder, tip)}));
    HeardStill(own, own, judging, w.own, OfMerge(tip), Answer(None));
    MergeWeighed(own, w.own, tip, false, tip);
    PassedGrows(w.rely, start, w.s);
    p := if err.Some? then ParkFailed(err.value) else Rescued(Rescue(o.holder, tip));
  }

  lemma ChainWeighed(a: seq<Deed>, b: seq<Deed>, tip: Id, work: Option<bool>, view: Id)
    requires |a| < |b| && LastHeard(b, OfChain(tip), if work.None? then Fault else Yes(work.value, view))
    ensures work.None? ==> Weighed(a, b, tip, ParkFailed(ReadFault))
    ensures work == Some(false) ==> Weighed(a, b, tip, Nothing(NoWork(view)))
  {
  }

  lemma MergeWeighed(a: seq<Deed>, b: seq<Deed>, tip: Id, landed: bool, into: Id)
    requires HeardIn(a, b, OfMerge(tip), Yes(landed, into))
    ensures landed ==> forall same :: Weighed(a, b, tip, Nothing(Landed(into, same)))
    ensures !landed ==> forall ref :: Weighed(a, b, tip, Rescued(ref))
    ensures !landed ==> forall t: Trouble | !t.ReadFault? :: Weighed(a, b, tip, ParkFailed(t))
  {
    hide HeardIn;
  }

  /** Alone, what the fresh base was told decides whether there is anything to park. */
  lemma NoWorkDone(a: State, b: State, tip: Id, view: Id)
    requires |a.bases| > 0 && OnlyFetched(a, b) && view == a.Base() && !b.HasWork(view, tip)
    ensures forall holder :: ParkDone(a, b, Rescue(holder, tip), Nothing(NoWork(view)))
  {
    hide Anc;
    assert a.HasWork(view, tip) == b.HasWork(view, tip);
  }

  lemma MergedDone(a: State, b: State, tip: Id, base: Id, landed: bool)
    requires |a.bases| > 0 && OnlyFetched(a, b) && base == a.Base()
    requires b.HasWork(base, tip) && landed == b.merge(base, tip, base)
    ensures landed ==> forall holder :: ParkDone(a, b, Rescue(holder, tip), Nothing(Landed(base, base)))
    ensures !landed ==> Unlanded(a, base, tip)
  {
    hide Anc;
    assert a.HasWork(base, tip) == b.HasWork(base, tip);
  }

  /** And then whether the park was done. */
  lemma TriedDone(a: State, b: State, c: State, own: seq<Deed>, ref: Rescue, err: Option<Trouble>)
    requires |a.bases| > 0 && OnlyFetched(a, b) && Unlanded(a, a.Base(), ref.tip) && (c == b || ParkedAt(b, c, ref))
    requires err.None? ==> ref in c.rescue && c.rescue[ref] == ref.tip
    requires err.Some? ==>
      (err.value.ParkFault? || err.value.ParkUnconfirmed? || err.value.RescueConflict?) && Told(c, own, ref, err.value)
    ensures ParkDone(a, c, ref, if err.Some? then ParkFailed(err.value) else Rescued(ref))
  {
    hide Unlanded;
    hide Confirmed;
  }

  lemma ChainFault(s: State, own: seq<Deed>, ref: Rescue)
    requires LastHeard(own, OfChain(ref.tip), Fault)
    ensures Told(s, own, ref, ReadFault)
  {
  }

  /** casDelete: gone is a win, unreadable is not, and a refusal names the holder. */
  method CasDelete(w: World, tip: Id, why: Evidence) returns (err: Option<Trouble>)
    requires w.Valid() && w.s.Justified(tip, why)
    modifies w`s, w`own
    ensures Acted(old(w.own), w.own, NOTHING.(deletes := {tip}, judged := OnBaseView(old(w.s), why)))
    ensures w.Valid() && Passed(w.rely, old(w.s), w.s)
    ensures err.None? ==> w.s.Work().None?
    ensures err.Some? ==>
      (err.value.DeleteUnconfirmed? || err.value.DeleteRefused?)
      && forall holder :: Told(w.s, w.own, Rescue(holder, tip), err.value)
    ensures w.rely.alone ==>
      w.s == old(w.s) || Did(old(w.s), Delete(tip, why), w.s)
  {
    hide Inv;
    hide Anc;
    hide Acted;
    hide Passed;
    hide Did;
    hide OnBaseView;
    ghost var start, own := w.s, w.own;
    var ok := w.PushDelete(tip, why);
    if ok { return None; }
    ghost var pushed, pushing := w.s, w.own;
    var now := w.LsRemote();
    assert Confirmed(w.own, OfDelete(tip), OfWork, now);
    PassedTrans(w.rely, start, pushed, w.s);
    ReadThen(own, pushing, w.own, NOTHING.(deletes := {tip}, judged := OnBaseView(start, why)));
    match now {
      case Fault => err := Some(DeleteUnconfirmed);
      case Answer(holder) => err := if holder.None? then None else Some(DeleteRefused(holder.value));
    }
  }

  // ---- what an uninterrupted scavenge does to origin ----

  datatype Remote = Remote(work: Option<Id>, rescue: map<Rescue, Id>)

  function RemoteOf(s: State): Remote {
    Remote(s.Work(), s.rescue)
  }

  /** The remote an uninterrupted scavenge of `from` leaves, on base as it
    stands: nothing changes when the ref is not at `from` or the rescue's name
    holds something else, and otherwise the ref goes, its unlanded work parked. */
  function ScavengeEnd(s: State, holder: string, from: Id): Remote
    requires |s.bases| > 0
  {
    var ref := Rescue(holder, from);
    if s.Work() != Some(from) then RemoteOf(s)
    else if !Unlanded(s, s.Base(), from) then Remote(None, s.rescue)
    else if ref in s.rescue && s.rescue[ref] != from then RemoteOf(s)
    else Remote(None, s.rescue[ref := from])
  }

  /** Commits and base did not change. */
  ghost predicate SameGraph(a: State, b: State) {
    b.log == a.log && b.bases == a.bases && b.merge == a.merge
  }

  /** The remote states a scavenge passes through: untouched, parked, or done. */
  ghost predicate Midway(a: State, b: State, holder: string, from: Id) {
    && SameGraph(a, b) && |a.bases| > 0
    && (|| RemoteOf(b) == RemoteOf(a)
        || RemoteOf(b) == ScavengeEnd(a, holder, from)
        || (a.Work() == Some(from) && Unlanded(a, a.Base(), from)
            && RemoteOf(b) == Remote(Some(from), a.rescue[Rescue(holder, from) := from])
            && (Rescue(holder, from) in a.rescue ==> a.rescue[Rescue(holder, from)] == from)))
  }

  /** Crash safety: from wherever a scavenge stopped, an uninterrupted one ends where
    it would have ended from the start. */
  lemma MidwayHasTheSameEnd(a: State, b: State, holder: string, from: Id)
    requires Midway(a, b, holder, from)
    ensures ScavengeEnd(b, holder, from) == ScavengeEnd(a, holder, from)
  {
    assert b.HasWork(b.Base(), from) == a.HasWork(a.Base(), from);
  }

  /** And so from the last of any number of crashed runs. */
  lemma {:induction false} RerunsReachTheSameEnd(runs: seq<State>, holder: string, from: Id)
    requires |runs| > 0
    requires forall i | 0 <= i < |runs| - 1 :: Midway(runs[i], runs[i+1], holder, from)
    requires |runs[0].bases| > 0
    ensures |runs[|runs|-1].bases| > 0
    ensures ScavengeEnd(runs[|runs|-1], holder, from) == ScavengeEnd(runs[0], holder, from)
    decreases |runs|
  {
    if |runs| > 1 {
      assert Midway(runs[0], runs[1], holder, from);
      forall i | 0 <= i < |runs[1..]| - 1 ensures Midway(runs[1..][i], runs[1..][i+1], holder, from) {
        assert Midway(runs[i+1], runs[i+2], holder, from);
      }
      RerunsReachTheSameEnd(runs[1..], holder, from);
      MidwayHasTheSameEnd(runs[0], runs[1], holder, from);
    }
  }

  /** The rescue exists at the end exactly when there was unlanded work to keep. */
  lemma RescuedExactlyWhenUnlanded(s: State, holder: string, from: Id)
    requires |s.bases| > 0 && s.Work() == Some(from) && Rescue(holder, from) !in s.rescue
    ensures ScavengeEnd(s, holder, from).work.None?
    ensures Rescue(holder, from) in ScavengeEnd(s, holder, from).rescue <==> Unlanded(s, s.Base(), from)
    ensures Unlanded(s, s.Base(), from) ==> ScavengeEnd(s, holder, from).rescue[Rescue(holder, from)] == from
  {
  }

  datatype ScavengeResult = Done(rescue: Option<Rescue>) | Refused(trouble: Trouble) | Crashed

  /** What a scavenge leaves when nobody else moves, base included. */
  ghost predicate ScavengeDone(a: State, b: State, holder: string, from: Id, r: ScavengeResult) {
    && Midway(a, b, holder, from)
    && (r.Done? || (r.Refused? && (r.trouble.MovedTo? || r.trouble.RescueConflict?)) ==>
          RemoteOf(b) == ScavengeEnd(a, holder, from))
    && (r.Refused? && r.trouble.MovedTo? ==> RemoteOf(b) == RemoteOf(a))
  }

  lemma BaseStands(s: State)
    requires Inv(s)
    ensures |s.bases| > 0
  {
  }

  lemma AfterPark(a: State, b: State, holder: string, from: Id, p: ParkResult)
    requires |a.bases| > 0 && a.Work() == Some(from) && ParkDone(a, b, Rescue(holder, from), p)
    ensures ScavengeDone(a, b, holder, from, Crashed)
    ensures p.ParkFailed? && !p.trouble.MovedTo? ==> ScavengeDone(a, b, holder, from, Refused(p.trouble))
  {
    hide Unlanded;
    ParkedOrNot(a, b, Rescue(holder, from), p);
    hide ParkDone;
    hide SameGraph;
  }

  lemma ParkedOrNot(a: State, b: State, ref: Rescue, p: ParkResult)
    requires |a.bases| > 0 && ParkDone(a, b, ref, p)
    ensures SameGraph(a, b) && b.Work() == a.Work()
    ensures
      || RemoteOf(b) == RemoteOf(a)
      || (Unlanded(a, a.Base(), ref.tip) && ref !in a.rescue && b.rescue == a.rescue[ref := ref.tip])
    ensures p.ParkFailed? && p.trouble.RescueConflict? ==>
      Unlanded(a, a.Base(), ref.tip) && RemoteOf(b) == RemoteOf(a) && ref in a.rescue && a.rescue[ref] != ref.tip
  {
    hide Unlanded;
  }

  lemma AfterDelete(a: State, b: State, c: State, holder: string, from: Id, p: ParkResult, why: Evidence,
                    trouble: Trouble)
    requires |a.bases| > 0 && a.Work() == Some(from) && ParkDone(a, b, Rescue(holder, from), p) && !p.ParkFailed?
    requires c == b || Did(b, Delete(from, why), c)
    ensures ScavengeDone(a, c, holder, from, Crashed)
    ensures trouble.DeleteRefused? || trouble.DeleteUnconfirmed? ==> ScavengeDone(a, c, holder, from, Refused(trouble))
    ensures c.Work().None? ==> RemoteOf(c) == ScavengeEnd(a, holder, from)
  {
    hide Unlanded;
    hide Did;
    hide ParkDone;
    hide ScavengeEnd;
    AfterPark(a, b, holder, from, p);
    ParkedRemote(a, b, holder, from, p);
    if c != b { DeletedRemote(b, c, from, why); }
  }

  /** With the work parked, deleting the ref is all that is left to do. */
  lemma ParkedRemote(a: State, b: State, holder: string, from: Id, p: ParkResult)
    requires |a.bases| > 0 && a.Work() == Some(from) && ParkDone(a, b, Rescue(holder, from), p) && !p.ParkFailed?
    ensures SameGraph(a, b) && b.Work() == Some(from) && ScavengeEnd(a, holder, from) == Remote(None, b.rescue)
  {
    hide Unlanded;
    var ref := Rescue(holder, from);
    if ref in a.rescue && a.rescue[ref] == from { assert a.rescue[ref := from] == a.rescue; }
  }

  lemma DeletedRemote(b: State, c: State, from: Id, why: Evidence)
    requires Did(b, Delete(from, why), c)
    ensures RemoteOf(c) == Remote(None, b.rescue) && SameGraph(b, c)
  {
    hide Anc;
    hide MintFits;
  }

  lemma AfterDrop(a: State, c: State, d: State, holder: string, from: Id, rescue: Option<Rescue>)
    requires ScavengeDone(a, c, holder, from, Crashed)
    requires RemoteOf(c) == ScavengeEnd(a, holder, from) && SameRemote(c, d)
    ensures ScavengeDone(a, d, holder, from, Done(rescue))
  {
    hide ScavengeEnd;
    hide Unlanded;
  }

  lemma Untouched(a: State, b: State, holder: string, from: Id, r: ScavengeResult)
    requires |a.bases| > 0 && SameRemote(a, b)
    requires r.Done? || (r.Refused? && r.trouble.MovedTo?) ==> a.Work() != Some(from)
    requires !(r.Refused? && r.trouble.RescueConflict?)
    ensures ScavengeDone(a, b, holder, from, r)
  {
    hide Unlanded;
  }

  /** All a scavenge does itself, whoever else is at work: park `from`, delete the work ref at `from`, drop
    this clone's copy, fetch in its own clone. */
  function Clearing(o: Opts, from: Id, judged: bool): Footprint {
    NOTHING.(parks := {Rescue(o.holder, from)}, deletes := {from}, moves := {(OwnCopy(o), None)},
             fetches := {o.clone}, judged := judged)
  }

  /** All it does when it does not find the ref at `from`. */
  function Dropping(o: Opts): Footprint {
    NOTHING.(moves := {(OwnCopy(o), None)}, fetches := {o.clone})
  }

  /** Whatever a call was allowed, each delete it made met the ref at exactly its tip, and all the work below
    that was kept without it but what its evidence overlooked: where it was judged on base, that is none the
    scan counts. */
  lemma DeletesWereSafe(a: seq<Deed>, b: seq<Deed>, f: Footprint, i: nat, d: Deletion)
    requires Acted(a, b, f) && |a| <= i < |b| && b[i].Deed? && Deletes(b[i].what, d)
    ensures b[i].what.Delete? ==> d.tip in f.deletes && b[i].at.Work() == Some(d.tip)
    ensures b[i].what.DeleteLegacy? ==>
      && d.branch in f.legacy && f.legacy[d.branch] == d.tip
      && d.branch in b[i].at.legacy && b[i].at.legacy[d.branch] == d.tip
    ensures var s' := Next(b[i].at, b[i].what);
      forall w: Id | Anc(s'.log, w, d.tip) && IsWork(s'.log, w) :: KeptElsewhere(s', w) || Overlooked(s', w, d.why)
    ensures var s' := Next(b[i].at, b[i].what);
      f.judged ==> forall w: Id | Anc(s'.log, w, d.tip) && s'.Counts(w) :: KeptElsewhere(s', w)
  {
    assert Allowed(f, b[i]);
    var s, s' := b[i].at, Next(b[i].at, b[i].what);
    DeleteEffect(s, b[i].what, d);
    StepInv(s, b[i].what);
    StepJustifies(s, b[i].what, d);
    hide Inv;
    hide Next;
    hide Anc;
    forall w: Id | Anc(s'.log, w, d.tip) && IsWork(s'.log, w) ensures KeptElsewhere(s', w) || Overlooked(s', w, d.why) {
      if !Overlooked(s', w, d.why) { JustifiedKeeps(s', d, w); }
    }
    if f.judged { assert OnBaseView(s', d.why); }
  }

  /** The destructive half, on a ref read at `from`: park, delete, drop the copy. */
  method ParkAndDelete(w: World, o: Opts, from: Id) returns (r: ScavengeResult)
    requires w.Valid() && w.s.Fetchable(from) && OwnCopy(o) !in w.rely.forward && w.s.Work() == Some(from)
    modifies w`s, w`own
    ensures Acted(old(w.own), w.own, Clearing(o, from, o.clone in w.rely.quiet)) && DropsVacant(old(w.own), w.own)
    ensures w.Valid() && Passed(Loose(w.rely, OwnCopy(o)), old(w.s), w.s)
    ensures r.Done? ==> SeenBetween(old(w.s), w.s, None)
    ensures r.Done? && r.rescue.Some? ==>
      r.rescue.value == Rescue(o.holder, from) && r.rescue.value in w.s.rescue && w.s.rescue[r.rescue.value] == from
    // a rescue is reported exactly when that is why the tip could go
    ensures r.Done? ==> Evidenced(w.s, from, o.clone in w.rely.quiet, r.rescue.Some?)
    ensures r.Refused? ==> !r.trouble.MovedTo? && Told(w.s, w.own, Rescue(o.holder, from), r.trouble)
    // only a dead process leaves it half done, and only one that is done has seen to the local copy
    ensures r.Crashed? ==> LastHeard(w.own, OfCrash, Fault)
    ensures r.Done? ==> DropTried(old(w.own), w.own, OwnCopy(o))
    ensures r.Done? && r.rescue.Some? ==> HeardIn(old(w.own), w.own, OfMerge(from), Answer(None))
    ensures w.rely.alone ==> !(r.Refused? && r.trouble.ReadFault?)
    ensures w.rely.alone ==> ScavengeDone(old(w.s), w.s, o.holder, from, r)
  {
    hide Inv;
    hide Anc;
    hide ParkDone;
    hide ScavengeDone;
    hide ScavengeEnd;
    hide Enabled;
    hide Passed;
    hide Grows;
    hide Acted;
    hide Told;
    hide OnBaseView;
    hide DropsVacant;
    hide Evidenced;
    hide HeardIn;
    hide DropTried;
    ghost var start, own := w.s, w.own;
    ghost var all := Clearing(o, from, o.clone in w.rely.quiet);
    ghost var lone := w.rely.alone;
    BaseStands(start);
    var k := OwnCopy(o);
    var p := ParkUnlanded(w, o, from);
    ghost var parked, parking := w.s, w.own;
    ActedWider(own, parking, Parking(o, from), all);
    NoDrop(own, parking, Parking(o, from));
    PassedLoose(w.rely, k, start, parked);
    if lone { AfterPark(start, parked, o.holder, from, p); }
    if p.ParkFailed? { return Refused(p.trouble); }
    ghost var quiet := o.clone in w.rely.quiet;
    EvidenceFor(parked, o, from, quiet, p);
    var crash := w.Crashes();
    NoDrop(parking, w.own, NOTHING);
    VacantThen(own, parking, w.own);
    ReadThen(own, parking, w.own, all);
    if crash { return Crashed; }
    var err := CasDelete(w, from, Reason(p));
    ghost var deleted, deleting := w.s, w.own;
    ghost var f := NOTHING.(deletes := {from}, judged := OnBaseView(parked, Reason(p)));
    ActedThen(own, parking, deleting, all, f, all);
    NoDrop(parking, deleting, f);
    VacantThen(own, parking, deleting);
    PassedTrans(w.rely, start, parked, deleted);
    PassedLoose(w.rely, k, start, deleted);
    if lone {
      AfterDelete(start, parked, deleted, o.holder, from, p, Reason(p), if err.Some? then err.value else ReadFault);
    }
    if err.Some? { return Refused(err.value); }
    crash := w.Crashes();
    NoDrop(deleting, w.own, NOTHING);
    VacantThen(own, deleting, w.own);
    ReadThen(own, deleting, w.own, all);
    if crash { return Crashed; }
    DropCopy(w, k, None);
    VacantThen(own, deleting, w.own);
    ActedThen(own, deleting, w.own, all, NOTHING.(moves := {(k, None)}), all);
    ActedLonger(own, parking, all);
    ActedLonger(parking, deleting, f);
    ActedLonger(deleting, w.own, NOTHING.(moves := {(k, None)}));
    DropSooner(own, deleting, w.own, k);
    if p.Rescued? { HeardStill(own, own, parking, w.own, OfMerge(from), Answer(None)); }
    PassedTrans(Loose(w.rely, k), start, deleted, w.s);
    r := Done(if p.Rescued? then Some(p.ref) else None);
    if lone { AfterDrop(start, deleted, w.s, o.holder, from, r.rescue); }
    AfterGone(w.rely, k, start, parked, deleted, w.s, p);
    EvidenceLasts(w.rely, k, parked, deleted, w.s, from, quiet, p.Rescued?);
  }

  lemma EvidenceLasts(rely: Rely, k: Copy, a: State, b: State, c: State, tip: Id, judged: bool, parked: bool)
    requires Evidenced(a, tip, judged, parked) && Passed(rely, a, b) && Passed(Loose(rely, k), b, c)
    ensures Evidenced(c, tip, judged, parked)
  {
    EvidencedStable(a, b, tip, judged, parked);
    EvidencedStable(b, c, tip, judged, parked);
  }

  lemma AfterGone(rely: Rely, k: Copy, a: State, b: State, c: State, d: State, p: ParkResult)
    requires Inv(c) && Passed(rely, a, c) && Passed(rely, b, c) && Passed(Loose(rely, k), c, d) && c.Work().None?
    requires p.Rescued? ==> p.ref in b.rescue && b.rescue[p.ref] == p.ref.tip
    ensures SeenBetween(a, d, None)
    ensures p.Rescued? ==> p.ref in d.rescue && d.rescue[p.ref] == p.ref.tip
  {
    hide Anc;
    SeenNow(a, c);
    var i: nat :| |a.history| <= i + 1 && i < |c.history| && c.history[i] == c.Work();
    assert d.history[i] == None;
  }

  /** Scavenge: refuse before parking anything when the ref moved, park unlanded
    work, delete by CAS on exactly `from`, drop the local copy no worktree stands
    on. It may crash between any two commands. */
  method Scavenge(w: World, o: Opts, from: Id) returns (r: ScavengeResult, ghost now: Read)
    requires w.Valid() && OwnCopy(o) !in w.rely.forward
    modifies w`s, w`own
    // whoever else is at work, it deletes the ref at `from` only, and touches no other
    ensures Acted(old(w.own), w.own, Clearing(o, from, o.clone in w.rely.quiet))
    // and drops its own copy only where it just read no worktree standing
    ensures DropsVacant(old(w.own), w.own)
    // its first act is to read the ref, and unless that is at `from` it parks and deletes nothing
    ensures FirstHeard(old(w.own), w.own, OfWork, now)
    ensures now != Answer(Some(from)) ==> Acted(old(w.own), w.own, Dropping(o))
    ensures now == Fault ==> r == Refused(ReadFault)
    ensures now.Answer? ==> SeenBetween(old(w.s), w.s, now.tip)
    ensures r.Refused? && r.trouble.MovedTo? <==> now.Answer? && now.tip.Some? && now.tip != Some(from)
    ensures r.Refused? && r.trouble.MovedTo? ==>
      && now.tip == Some(r.trouble.tip)
      && (r.trouble.marker.Some? ==> Nearest(w.s.log, r.trouble.tip, r.trouble.marker.value))
    // the marker there is named rightly
    ensures r.Refused? && r.trouble.MovedTo? ==>
      MarkerTold(w.own, |old(w.own)|, |w.own|, o.clone, r.trouble.tip, r.trouble.marker)
    ensures r.Refused? ==> Told(w.s, w.own, Rescue(o.holder, from), r.trouble)
    // nothing else stops it: only a dead process leaves it half done, only one that is done has seen to the local
    // copy, and with nobody else at work its first read is the only one that can fail it
    ensures r.Crashed? ==> LastHeard(w.own, OfCrash, Fault)
    ensures r.Done? ==> DropTried(old(w.own), w.own, OwnCopy(o))
    ensures r.Done? && r.rescue.Some? ==> HeardIn(old(w.own), w.own, OfMerge(from), Answer(None))
    ensures w.rely.alone && r == Refused(ReadFault) ==> now == Fault
    ensures now == Answer(None) ==> r == Done(None)
    // a rescue is reported exactly when that is why the tip could go
    ensures r.Done? && now == Answer(Some(from)) ==> Evidenced(w.s, from, o.clone in w.rely.quiet, r.rescue.Some?)
    ensures r.Done? && now != Answer(Some(from)) ==> r.rescue.None?
    ensures w.Valid() && Passed(Loose(w.rely, OwnCopy(o)), old(w.s), w.s)
    ensures r.Done? ==> SeenBetween(old(w.s), w.s, None)
    ensures r.Done? && r.rescue.Some? ==>
      r.rescue.value == Rescue(o.holder, from) && r.rescue.value in w.s.rescue && w.s.rescue[r.rescue.value] == from
    ensures w.rely.alone ==> ScavengeDone(old(w.s), w.s, o.holder, from, r)
  {
    hide Inv;
    hide Anc;
    hide ScavengeDone;
    hide Passed;
    hide Grows;
    hide Acted;
    hide Nearest;
    hide SeenBetween;
    hide DropsVacant;
    hide Evidenced;
    hide HeardIn;
    hide DropTried;
    hide MarkerTold;
    hide Told;
    hide Fetches;
    ghost var start, own := w.s, w.own;
    ghost var all := Clearing(o, from, o.clone in w.rely.quiet);
    ghost var lone := w.rely.alone;
    BaseStands(start);
    var k := OwnCopy(o);
    var read := w.LsRemote();
    now := read;
    ghost var at, reading := w.s, w.own;
    PassedLoose(w.rely, k, start, at);
    PassedGrows(w.rely, start, at);
    SeenNow(start, at);
    ActedWider(own, reading, NOTHING, all);
    ActedWider(own, reading, NOTHING, Dropping(o));
    NoDrop(own, reading, NOTHING);
    if read == Fault {
      WorkFault(at, reading, Rescue(o.holder, from));
      if lone { Untouched(start, at, o.holder, from, Refused(ReadFault)); }
      return Refused(ReadFault), now;
    }
    if read.tip == Some(from) {
      WorkFetchable(w.s);
      r := ParkAndDelete(w, o, from);
      PassedTrans(Loose(w.rely, k), start, at, w.s);
      VacantThen(own, reading, w.own);
      ActedThen(own, reading, w.own, all, all, all);
      ActedLonger(reading, w.own, all);
      if r.Done? {
        SeenEarlier(start, at, w.s, None);
        DropSooner(own, reading, w.own, k);
        if r.rescue.Some? { HeardStill(own, reading, w.own, w.own, OfMerge(from), Answer(None)); }
      }
    } else {
      if read.tip.Some? {
        var x := w.FetchedMarker(o.clone, read.tip.value);
        r := Refused(MovedTo(read.tip.value, x));
        MarkerAnyway(w.own, |reading|, |own|, o.clone, read.tip.value, x, w.s, Rescue(o.holder, from));
        ActedThen(own, reading, w.own, Dropping(o), NOTHING.(fetches := {o.clone}), Dropping(o));
        ActedLonger(reading, w.own, NOTHING.(fetches := {o.clone}));
        NoDrop(reading, w.own, NOTHING.(fetches := {o.clone}));
        PassedLoose(w.rely, k, at, w.s);
        if lone { Untouched(start, w.s, o.holder, from, r); }
      } else {
        DropCopy(w, k, None);
        ActedThen(own, reading, w.own, Dropping(o), NOTHING.(moves := {(k, None)}), Dropping(o));
        ActedLonger(reading, w.own, NOTHING.(moves := {(k, None)}));
        r := Done(None);
        DropSooner(own, reading, w.own, k);
        if lone { Untouched(start, w.s, o.holder, from, r); }
      }
      PassedTrans(Loose(w.rely, k), start, at, w.s);
      VacantThen(own, reading, w.own);
      ActedWider(own, w.own, Dropping(o), all);
    }
    PassedGrows(Loose(w.rely, k), at, w.s);
    SeenLater(start, at, w.s, read.tip);
  }

  lemma HeldTold(s: State, own: seq<Deed>, ref: Rescue)
    ensures Told(s, own, ref, StillHeld)
  {
  }

  lemma WorkFault(s: State, own: seq<Deed>, ref: Rescue)
    requires LastHeard(own, OfWork, Fault)
    ensures Told(s, own, ref, ReadFault)
  {
  }

  lemma MarkerAnyway(own: seq<Deed>, lo: nat, lo': nat, clone: nat, tip: Id, x: Option<Id>, s: State, ref: Rescue)
    requires MarkerTold(own, lo, |own|, clone, tip, x) && lo' <= lo
    ensures MarkerTold(own, lo', |own|, clone, tip, x) && Told(s, own, ref, MovedTo(tip, x))
  {
  }

  /** The local copy was seen to: a worktree was told to stand on it, or right after none was it was to go. */
  ghost predicate DropTried(a: seq<Deed>, b: seq<Deed>, k: Copy) {
    exists i :: |a| <= i && DropTriedAt(b, i, k)
  }

  ghost predicate DropTriedAt(own: seq<Deed>, i: nat, k: Copy) {
    || HeardAt(own, i, OfWorktree(k), Fault)
    || (HeardAt(own, i, OfWorktree(k), Answer(None)) && i + 1 < |own|
        && Attempt(own[i+1], MoveLocal(k, None), OfMove(k, None)))
  }

  lemma DropSooner(a: seq<Deed>, b: seq<Deed>, c: seq<Deed>, k: Copy)
    requires DropTried(b, c, k) && |a| <= |b|
    ensures DropTried(a, c, k)
  {
    hide DropTriedAt;
  }

  lemma DropStands(a: seq<Deed>, b: seq<Deed>, k: Copy)
    requires |a| < |b| && LastHeard(b, OfWorktree(k), Fault)
    ensures DropTried(a, b, k)
  {
    assert DropTriedAt(b, |b| - 1, k);
  }

  lemma DropAfter(a: seq<Deed>, b: seq<Deed>, c: seq<Deed>, k: Copy)
    requires |a| < |b| && b <= c && LastHeard(b, OfWorktree(k), Answer(None)) && |c| == |b| + 1
    requires Tried(b, c, MoveLocal(k, None), OfMove(k, None))
    ensures DropTried(a, c, k)
  {
    assert DropTriedAt(c, |b| - 1, k);
  }

  /** update-ref -d, from exactly `seen` when one is given, unless a worktree stands there. */
  method DropCopy(w: World, k: Copy, seen: Option<Id>)
    requires w.Valid() && k !in w.rely.forward
    modifies w`s, w`own
    ensures Acted(old(w.own), w.own, NOTHING.(moves := {(k, None)})) && DropsVacant(old(w.own), w.own)
    ensures DropTried(old(w.own), w.own, k)
    ensures seen.Some? ==> MovesMet(old(w.own), w.own, k, seen)
    ensures w.Valid() && Passed(Loose(w.rely, k), old(w.s), w.s)
    ensures w.rely.alone ==> SameRemote(old(w.s), w.s)
  {
    hide Inv;
    hide Acted;
    hide Passed;
    hide SameRemote;
    hide DropsVacant;
    hide DropTried;
    hide Tried;
    hide MovesMet;
    ghost var own, f := w.own, NOTHING.(moves := {(k, None)});
    SameSelf(w.s);
    var standing := w.CheckedOut(k);
    ghost var looked := w.own;
    ActedWider(own, looked, NOTHING, f);
    NoDrop(own, looked, NOTHING);
    NoMoves(own, looked, NOTHING, k, seen);
    if !standing {
      w.DeleteRef(k, seen);
      if seen.Some? { MovesMetTrans(own, looked, w.own, k, seen); }
      ReadThen(own, looked, w.own, f);
      ActedLonger(looked, w.own, f);
      DropAfter(own, looked, w.own, k);
      DroppedVacant(own, looked, w.own, k, f);
    } else {
      DropStands(own, looked, k);
      PassedLoose(w.rely, k, w.s, w.s) by { PassedSelf(w.rely, w.s); }
    }
  }

  /** One drop, right after the read that found no worktree. */
  lemma DroppedVacant(a: seq<Deed>, b: seq<Deed>, c: seq<Deed>, k: Copy, f: Footprint)
    requires |a| < |b| && DropsVacant(a, b) && LastHeard(b, OfWorktree(k), Answer(None))
    requires Acted(b, c, f) && |c| == |b| + 1
    requires forall m | m in f.moves :: m.0 == k
    ensures DropsVacant(a, c)
  {
    hide Inv;
    hide Enabled;
    hide Truthful;
    hide Judged;
    forall i | |a| <= i < |c| && c[i].Deed? && c[i].what.MoveLocal? && c[i].what.to.None?
      ensures |a| < i && c[i-1].Heard? && c[i-1].of == OfWorktree(c[i].what.copy) && c[i-1].answer == Answer(None)
    {
      if i < |b| {
        assert c[i] == b[i] && (i > 0 ==> c[i-1] == b[i-1]);
      } else {
        assert Allowed(f, c[i]);
        assert c[i-1] == b[|b|-1];
      }
    }
  }

  /** A holder that renewed cannot be scavenged: once the ref has left the observed
    tip, no delete of it is ever enabled again. */
  lemma RenewedHolderIsSafe(fwd: set<Copy>, s: State, s': State, i: nat, from: Id, why: Evidence)
    requires Inv(s) && Reach(fwd, s, s') && i < |s.history| && s.history[i] == Some(from) && s.Work() != Some(from)
    ensures !Enabled(s', Delete(from, why))
  {
    LeftForGood(fwd, s, s', i);
    hide Inv;
    hide Reach;
  }

  /** Yield: park this lane's own tip, unless it still is the lease; the work ref is
    never touched. */
  method Yield(w: World, o: Opts, local: Option<Id>) returns (r: ScavengeResult, ghost now: Read)
    requires w.Valid() && (local.Some? ==> w.s.Fetchable(local.value))
    modifies w`s, w`own
    // whoever else is at work, all it does itself is park that one tip: no ref is deleted or moved by it
    ensures local.None? ==> w.own == old(w.own)
    ensures local.Some? ==> Acted(old(w.own), w.own, NOTHING.(parks := {Rescue(o.holder, local.value)}))
    // it first reads the ref, and parks nothing while that is at this tip or unreadable
    ensures local.Some? ==> FirstHeard(old(w.own), w.own, OfWork, now)
    ensures local.Some? ==> (r == Refused(StillHeld) <==> now == Answer(local))
    ensures local.Some? ==> (r == Refused(ReadFault) <==> now == Fault)
    ensures now == Fault || now == Answer(local) ==> Acted(old(w.own), w.own, NOTHING)
    ensures w.Valid() && Passed(w.rely, old(w.s), w.s)
    ensures r.Done? ==>
      && local.Some? && r.rescue == Some(Rescue(o.holder, local.value))
      && r.rescue.value in w.s.rescue && w.s.rescue[r.rescue.value] == local.value
    ensures local.None? <==> r == Refused(EmptyLocal)
    ensures r == Refused(StillHeld) ==> w.s.Work() == local
    ensures r.Refused? && local.Some? ==> Told(w.s, w.own, Rescue(o.holder, local.value), r.trouble)
    ensures w.rely.alone ==> w.s.history == old(w.s).history
    ensures w.rely.alone && r.Done? ==> w.s.Work() != local
  {
    hide Inv;
    hide Anc;
    hide Acted;
    hide Passed;
    hide Told;
    now := Fault;
    ActedNone(w.own, NOTHING);
    PassedSelf(w.rely, w.s);
    if local.None? { return Refused(EmptyLocal), now; }
    ghost var start, own := w.s, w.own;
    var ref := Rescue(o.holder, local.value);
    var read := w.LsRemote();
    now := read;
    ghost var at, reading := w.s, w.own;
    ActedWider(own, reading, NOTHING, NOTHING.(parks := {ref}));
    if read == Fault {
      WorkFault(at, reading, ref);
      return Refused(ReadFault), now;
    }
    if read.tip == local {
      HeldTold(at, reading, ref);
      return Refused(StillHeld), now;
    }
    PassedGrows(w.rely, start, at);
    var err := ParkTip(w, ref);
    PassedTrans(w.rely, start, at, w.s);
    ReadThen(own, reading, w.own, NOTHING.(parks := {ref}));
    ActedLonger(reading, w.own, NOTHING.(parks := {ref}));
    r := if err.Some? then Refused(err.value) else Done(Some(ref));
  }
}
