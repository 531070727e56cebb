/** Seizing a hold made of legacy decorated branches alone. */
module Decorated {
  import opened Wrappers
  import opened Strings
  import opened Commits
  import opened Machine
  import opened Invariants
  import opened Preservation
  import opened World
  import opened Pushes
  import Leases
  import opened Scavenging
  import opened Acquiring

  /** One branch a decorated takeover retired. */
  datatype Retired = Retired(branch: string, rescue: Option<Rescue>, deletedOnOrigin: bool, localKept: bool)

  datatype Why = Lost(tip: Id) | Trouble(trouble: Trouble) | Acquire(error: Leases.Error)

  datatype Result = Result(won: Option<Leases.Grant>, why: Option<Why>, retired: seq<Retired>)

  function Branches(rs: seq<Retired>): seq<string> {
    seq(|rs|, i requires 0 <= i < |rs| => rs[i].branch)
  }

  /** A retirement is on the record: it had its evidence, a park exactly when it reports a rescue, and that
    holds the tip. */
  ghost predicate OnRecord(s: State, o: Opts, r: Retired, tip: Id, judged: bool) {
    && Evidenced(s, tip, judged, r.rescue.Some?)
    && (r.rescue.Some? ==>
          r.rescue.value == Rescue(o.holder, tip) && r.rescue.value in s.rescue && s.rescue[r.rescue.value] == tip)
  }

  lemma OnRecordStable(a: State, b: State, o: Opts, r: Retired, tip: Id, judged: bool)
    requires OnRecord(a, o, r, tip, judged) && Grows(a, b)
    ensures OnRecord(b, o, r, tip, judged)
  {
    EvidencedStable(a, b, tip, judged, r.rescue.Some?);
    hide Evidenced;
  }

  /** No decorated branch but those in `but` was deleted on origin, and none came. */
  ghost predicate LegacyKept(a: State, b: State, but: set<string>) {
    && (forall x | x in a.legacy && x !in but :: x in b.legacy && b.legacy[x] == a.legacy[x])
    && (forall x | x in b.legacy :: x in a.legacy)
  }

  lemma LegacyKeptTrans(a: State, b: State, c: State, one: set<string>, two: set<string>, all: set<string>)
    requires LegacyKept(a, b, one) && LegacyKept(b, c, two) && one <= all && two <= all
    ensures LegacyKept(a, c, all)
  {
  }

  /** At place i of its log the call read where the branch stands: origin's copy, and only when origin answered
    that it carries none, this clone's. */
  ghost predicate BranchRead(own: seq<Deed>, i: nat, o: Opts, branch: string, r: Read, onOrigin: bool) {
    i < |own| && own[i].Heard? && own[i].of == OfLegacy(branch) &&
    if onOrigin then r.Answer? && r.tip.Some? && own[i].answer == r
    else if r == Fault then own[i].answer == Fault
    else
      && own[i].answer == Answer(None) && i + 1 < |own|
      && own[i+1].Heard? && own[i+1].of == OfCopy(Copy(o.clone, branch)) && own[i+1].answer == r
  }

  /** decoratedTip: origin's copy when origin carries one, else this clone's; an unreadable origin is a fault,
    never taken for not being there. */
  method DecoratedTip(w: World, o: Opts, branch: string) returns (r: Read, onOrigin: bool)
    requires w.Valid()
    modifies w`s, w`own
    ensures Acted(old(w.own), w.own, NOTHING) && |old(w.own)| < |w.own|
    ensures BranchRead(w.own, |old(w.own)|, o, branch, r, onOrigin)
    ensures w.Valid() && Passed(w.rely, old(w.s), w.s) && (w.rely.alone ==> w.s == old(w.s))
    ensures Grows(old(w.s), w.own[|old(w.own)|].at) && Grows(w.own[|old(w.own)|].at, w.s)
    ensures r.Answer? && r.tip.Some? ==> w.s.Fetchable(r.tip.value)
    ensures onOrigin ==> branch in w.s.legacy && r.tip == Some(w.s.legacy[branch])
    ensures !onOrigin && r.Answer? && r.tip.Some? ==> w.s.Local(Copy(o.clone, branch)) == r.tip
    ensures w.rely.alone && r.Answer? ==> (onOrigin <==> branch in w.s.legacy)
  {
    hide Inv;
    hide Anc;
    hide Acted;
    hide Passed;
    hide Grows;
    ghost var start, own := w.s, w.own;
    onOrigin := false;
    r := w.LsLegacy(branch);
    ghost var asked, asking := w.s, w.own;
    LegacyFetchable(asked);
    PassedGrows(w.rely, start, asked);
    GrowsSelf(asked);
    if r.Answer? {
      if r.tip.Some? {
        onOrigin := true;
      } else {
        var tip := w.LocalTip(Copy(o.clone, branch));
        PassedTrans(w.rely, start, asked, w.s);
        PassedGrows(w.rely, asked, w.s);
        ReadThen(own, asking, w.own, NOTHING);
        r := Answer(tip);
      }
    }
  }

  lemma LegacyFetchable(s: State)
    requires Inv(s)
    ensures forall b | b in s.legacy :: s.Fetchable(s.legacy[b])
  {
    hide Anc;
  }

  /** casDelete, on a decorated branch. */
  method CasDeleteLegacy(w: World, branch: string, tip: Id, why: Evidence) returns (err: Option<Trouble>)
    requires w.Valid() && w.s.Justified(tip, why)
    modifies w`s, w`own
    ensures Acted(old(w.own), w.own, NOTHING.(legacy := map[branch := tip], judged := OnBaseView(old(w.s), why)))
    ensures w.Valid() && Passed(w.rely, old(w.s), w.s)
    ensures err.None? ==> branch !in w.s.legacy
    ensures err.Some? ==>
      || (err.value.DeleteUnconfirmed? && Confirmed(w.own, OfDeleteLegacy(branch), OfLegacy(branch), Fault))
      || (err.value.DeleteRefused? && branch in w.s.legacy && w.s.legacy[branch] == err.value.holder
          && Confirmed(w.own, OfDeleteLegacy(branch), OfLegacy(branch), Answer(Some(err.value.holder))))
    ensures w.rely.alone ==> LegacyKept(old(w.s), w.s, {branch})
    ensures w.rely.alone && (branch !in old(w.s).legacy || old(w.s).legacy[branch] != tip) ==> w.s == old(w.s)
  {
    hide Inv;
    hide Anc;
    hide Acted;
    hide Passed;
    hide Did;
    hide LegacyKept;
    hide OnBaseView;
    ghost var start, own := w.s, w.own;
    NothingTouched(start);
    var ok := w.PushDeleteLegacy(branch, tip, why);
    if w.rely.alone && w.s != start { OneDeleted(start, w.s, branch, tip, why); }
    if ok { return None; }
    ghost var pushed, pushing := w.s, w.own;
    var now := w.LsLegacy(branch);
    assert Confirmed(w.own, OfDeleteLegacy(branch), OfLegacy(branch), now);
    PassedTrans(w.rely, start, pushed, w.s);
    ReadThen(own, pushing, w.own, NOTHING.(legacy := map[branch := tip], judged := OnBaseView(start, why)));
    match now {
      case Fault => err := Some(DeleteUnconfirmed);
      case Answer(holder) => err := if holder.None? then None else Some(DeleteRefused(holder.value));
    }
  }

  lemma OneDeleted(a: State, b: State, branch: string, tip: Id, why: Evidence)
    requires Did(a, DeleteLegacy(branch, tip, why), b)
    ensures LegacyKept(a, b, {branch}) && branch in a.legacy && a.legacy[branch] == tip
  {
    hide Anc;
    hide MintFits;
  }

  /** All the retirements of some branches do: park their observed tips, delete them at just those tips,
    drop this clone's copies, fetch in this clone. */
  function Retiring(o: Opts, tips: map<string, Id>, branches: set<string>, judged: bool): Footprint {
    NOTHING.(parks := set b | b in branches && b in tips :: Rescue(o.holder, tips[b]),
             legacy := map b | b in branches && b in tips :: tips[b],
             moves := set b | b in branches && b in tips :: (Copy(o.clone, b), None),
             fetches := {o.clone}, judged := judged)
  }

  lemma RetiringOne(o: Opts, tips: map<string, Id>, branches: set<string>, b: string, judged: bool)
    requires b in branches && b in tips
    ensures Within(Parking(o, tips[b]), Retiring(o, tips, branches, judged))
    ensures Within(NOTHING.(legacy := map[b := tips[b]], judged := true), Retiring(o, tips, branches, judged))
    ensures !judged ==>
      Within(NOTHING.(legacy := map[b := tips[b]], judged := false), Retiring(o, tips, branches, judged))
    ensures Within(NOTHING.(moves := {(Copy(o.clone, b), None)}), Retiring(o, tips, branches, judged))
  {
  }

  lemma RetiringMore(o: Opts, tips: map<string, Id>, less: set<string>, more: set<string>, judged: bool)
    requires less <= more
    ensures Within(Retiring(o, tips, less, judged), Retiring(o, tips, more, judged))
  {
  }

  /** Origin carried no such branch at some moment between the two states. */
  ghost predicate GoneBetween(a: State, b: State, branch: string) {
    exists mid: State :: Grows(a, mid) && Grows(mid, b) && branch !in mid.legacy
  }

  lemma GoneNow(a: State, mid: State, b: State, branch: string)
    requires Grows(a, mid) && Grows(mid, b) && branch !in mid.legacy
    ensures GoneBetween(a, b, branch)
  {
  }

  lemma GoneAround(a: State, b: State, c: State, d: State, branch: string)
    requires Grows(a, b) && GoneBetween(b, c, branch) && Grows(c, d)
    ensures GoneBetween(a, d, branch)
  {
    var mid: State :| Grows(b, mid) && Grows(mid, c) && branch !in mid.legacy;
    GrowsTrans(a, b, mid);
    GrowsTrans(mid, c, d);
  }

  /** The last thing it did was to read the copy, and it says whether one is left. */
  ghost predicate LeftTold(own: seq<Deed>, k: Copy, left: bool) {
    exists x: Option<Id> :: LastHeard(own, OfCopy(k), Answer(x)) && (left <==> x.Some?)
  }

  /** What a retirement that failed says is so, and was told last. */
  ghost predicate RefusedTruly(s: State, own: seq<Deed>, o: Opts, branch: string, tip: Id, t: Trouble) {
    match t
    case ReadFault => LastHeard(own, OfChain(tip), Fault)
    case ParkFault => Told(s, own, Rescue(o.holder, tip), t)
    case ParkUnconfirmed => Told(s, own, Rescue(o.holder, tip), t)
    case RescueConflict(_) => Told(s, own, Rescue(o.holder, tip), t)
    case DeleteRefused(x) => x == tip && StandsAt(s, own, branch, x)
    case DeleteUnconfirmed => Confirmed(own, OfDeleteLegacy(branch), OfLegacy(branch), Fault)
    case _ => false
  }

  /** After a delete that failed the branch was read again, at this tip. */
  ghost predicate StandsAt(s: State, own: seq<Deed>, branch: string, tip: Id) {
    && branch in s.legacy && s.legacy[branch] == tip
    && Confirmed(own, OfDeleteLegacy(branch), OfLegacy(branch), Answer(Some(tip)))
  }

  lemma ParkRefused(s: State, own: seq<Deed>, o: Opts, branch: string, tip: Id, t: Trouble)
    requires t.ReadFault? || t.ParkFault? || t.ParkUnconfirmed? || t.RescueConflict?
    requires Told(s, own, Rescue(o.holder, tip), t) && (t.ReadFault? ==> LastHeard(own, OfChain(tip), Fault))
    ensures RefusedTruly(s, own, o, branch, tip, t)
  {
    hide LastHeard;
    hide Confirmed;
  }

  /** Why a retirement stopped: the branch stands elsewhere, by name, or a trouble there was. */
  ghost predicate StoppedTruly(s: State, own: seq<Deed>, o: Opts, branch: string, tip: Id, why: Why) {
    match why
    case Lost(t) => t != tip && StandsAt(s, own, branch, t)
    case Trouble(t) => RefusedTruly(s, own, o, branch, tip, t)
    case Acquire(_) => false
  }

  /** The half of retireDecorated that reaches origin: park, then delete by CAS on the observed tip. */
  method RetireOnOrigin(w: World, o: Opts, branch: string, tip: Id, pushed: bool) returns (r: Retired, why: Option<Why>)
    requires w.Valid() && w.s.Fetchable(tip)
    modifies w`s, w`own
    ensures Acted(old(w.own), w.own, Retiring(o, map[branch := tip], {branch}, o.clone in w.rely.quiet))
    ensures MovesMet(old(w.own), w.own, Copy(o.clone, branch), Some(tip)) && DropsVacant(old(w.own), w.own)
    ensures w.Valid() && Grows(old(w.s), w.s)
    ensures r.branch == branch && r.deletedOnOrigin == pushed
    ensures why.None? ==> OnRecord(w.s, o, r, tip, o.clone in w.rely.quiet)
    ensures why.None? && pushed ==> branch !in w.s.legacy
    ensures why.Some? ==> StoppedTruly(w.s, w.own, o, branch, tip, why.value)
    ensures w.rely.alone ==> why != Some(Why.Trouble(ReadFault)) && LegacyKept(old(w.s), w.s, {branch})
  {
    hide Inv;
    hide Anc;
    hide ParkDone;
    hide Passed;
    hide Grows;
    hide Acted;
    hide MovesMet;
    hide DropsVacant;
    hide OnBaseView;
    hide Told;
    hide OnRecord;
    hide LastHeard;
    hide Confirmed;
    hide Weighed;
    ghost var start, own, rely := w.s, w.own, w.rely;
    ghost var judged := o.clone in rely.quiet;
    ghost var all, k := Retiring(o, map[branch := tip], {branch}, judged), Copy(o.clone, branch);
    RetiringOne(o, map[branch := tip], {branch}, branch, judged);
    hide Within;
    hide Retiring;
    r, why := Retired(branch, None, pushed, true), None;
    var p := ParkUnlanded(w, o, tip);
    ghost var parked, parking := w.s, w.own;
    ActedWider(own, parking, Parking(o, tip), all);
    NoMoves(own, parking, Parking(o, tip), k, Some(tip));
    NoDrop(own, parking, Parking(o, tip));
    PassedGrows(rely, start, parked);
    if p.ParkFailed? {
      ParkRefused(parked, parking, o, branch, tip, p.trouble);
      return r, Some(Why.Trouble(p.trouble));
    }
    r := r.(rescue := if p.Rescued? then Some(p.ref) else None);
    ParkedOnRecord(parked, o, r, tip, judged, p);
    if pushed {
      var err := CasDeleteLegacy(w, branch, tip, Reason(p));
      ghost var f := NOTHING.(legacy := map[branch := tip], judged := OnBaseView(parked, Reason(p)));
      WithinSelf(all);
      ActedThen(own, parking, w.own, all, f, all);
      NoMoves(parking, w.own, f, k, Some(tip));
      MovesMetTrans(own, parking, w.own, k, Some(tip));
      NoDrop(parking, w.own, f);
      VacantThen(own, parking, w.own);
      PassedGrows(rely, parked, w.s);
      GrowsTrans(start, parked, w.s);
      OnRecordStable(parked, w.s, o, r, tip, judged);
      if err.Some? {
        why := Some(if err.value.DeleteRefused? && err.value.holder != tip then Why.Lost(err.value.holder)
                    else Why.Trouble(err.value));
      }
    }
  }

  /** retireDecorated: park, delete on origin by CAS on the observed tip, drop the
    local copy when it still sits there and no worktree stands on it. */
  method Retire(w: World, o: Opts, branch: string, tip: Id, pushed: bool) returns (r: Retired, why: Option<Why>)
    requires w.Valid() && w.s.Fetchable(tip) && Copy(o.clone, branch) !in w.rely.forward
    modifies w`s, w`own
    ensures Acted(old(w.own), w.own, Retiring(o, map[branch := tip], {branch}, o.clone in w.rely.quiet))
    // the local copy goes only from the observed tip and with no worktree on it, and what is left is read
    ensures MovesMet(old(w.own), w.own, Copy(o.clone, branch), Some(tip)) && DropsVacant(old(w.own), w.own)
    ensures why.None? ==>
      && |old(w.own)| < |w.own| && LeftTold(w.own, Copy(o.clone, branch), r.localKept)
      && DropSeen(old(w.own), w.own, Copy(o.clone, branch), tip)
    ensures w.Valid() && Grows(old(w.s), w.s)
    ensures r.branch == branch && r.deletedOnOrigin == pushed
    ensures why.None? ==> OnRecord(w.s, o, r, tip, o.clone in w.rely.quiet)
    ensures why.None? && pushed ==> GoneBetween(old(w.s), w.s, branch)
    // a lost race names where the branch stands instead, and a trouble was there
    ensures why.Some? ==> StoppedTruly(w.s, w.own, o, branch, tip, why.value)
    ensures w.rely.alone ==> why != Some(Why.Trouble(ReadFault)) && LegacyKept(old(w.s), w.s, {branch})
    ensures w.rely.alone && why.None? && pushed ==> branch !in w.s.legacy
  {
    hide Inv;
    hide Anc;
    hide Grows;
    hide Acted;
    hide MovesMet;
    hide DropsVacant;
    hide GoneBetween;
    hide LeftTold;
    hide DropSeen;
    hide OnRecord;
    ghost var start, own, judged := w.s, w.own, o.clone in w.rely.quiet;
    ghost var all, k := Retiring(o, map[branch := tip], {branch}, judged), Copy(o.clone, branch);
    RetiringOne(o, map[branch := tip], {branch}, branch, judged);
    hide Within;
    hide Retiring;
    WithinSelf(all);
    r, why := RetireOnOrigin(w, o, branch, tip, pushed);
    if why.Some? { return; }
    ghost var deleted, deleting := w.s, w.own;
    ActedLonger(own, deleting, all);
    var left := DropAt(w, Copy(o.clone, branch), tip);
    ActedThen(own, deleting, w.own, all, NOTHING.(moves := {(k, None)}), all);
    DropSeenStill(own, deleting, w.own, w.own, k, tip);
    MovesMetTrans(own, deleting, w.own, k, Some(tip));
    VacantThen(own, deleting, w.own);
    OnRecordStable(deleted, w.s, o, r, tip, judged);
    GrowsTrans(start, deleted, w.s);
    if pushed { GoneNow(start, deleted, w.s, branch); }
    KeptOnRecord(w.s, o, r, left, tip, judged);
    r := r.(localKept := left);
  }

  lemma ParkedOnRecord(s: State, o: Opts, r: Retired, tip: Id, judged: bool, p: ParkResult)
    requires !p.ParkFailed? && s.Justified(tip, Reason(p)) && (judged ==> OnBaseView(s, Reason(p)))
    requires (p.Nothing? ==> !p.why.Parked?) && (p.Rescued? ==> p.ref == Rescue(o.holder, tip))
    requires r.rescue == if p.Rescued? then Some(p.ref) else None
    ensures OnRecord(s, o, r, tip, judged)
  {
    EvidenceFor(s, o, tip, judged, p);
    ReasonHolds(s, tip, p);
    hide Evidenced;
  }

  lemma KeptOnRecord(s: State, o: Opts, r: Retired, kept: bool, tip: Id, judged: bool)
    requires OnRecord(s, o, r, tip, judged)
    ensures OnRecord(s, o, r.(localKept := kept), tip, judged)
  {
    hide Evidenced;
  }

  lemma WithinSelf(f: Footprint)
    ensures Within(f, f)
  {
  }

  /** The copy was read, and if it was at the tip it was seen to. */
  ghost predicate DropSeen(a: seq<Deed>, b: seq<Deed>, k: Copy, tip: Id) {
    exists x: Option<Id> :: HeardIn(a, b, OfCopy(k), Answer(x)) && (x == Some(tip) ==> DropTried(a, b, k))
  }

  lemma DropSeenStill(a: seq<Deed>, b: seq<Deed>, c: seq<Deed>, d: seq<Deed>, k: Copy, tip: Id)
    requires |a| <= |b| && DropSeen(b, c, k, tip) && c <= d
    ensures DropSeen(a, d, k, tip)
  {
    hide HeardIn;
    var x: Option<Id> :| HeardIn(b, c, OfCopy(k), Answer(x)) && (x == Some(tip) ==> DropTried(b, c, k));
    HeardStill(a, b, c, d, OfCopy(k), Answer(x));
    if x == Some(tip) {
      DropStill(b, c, d, k);
      DropSooner(a, b, d, k);
    }
  }

  lemma DropStill(a: seq<Deed>, b: seq<Deed>, c: seq<Deed>, k: Copy)
    requires DropTried(a, b, k) && b <= c
    ensures DropTried(a, c, k)
  {
    var i :| |a| <= i && DropTriedAt(b, i, k);
    assert DropTriedAt(c, i, k);
  }

  /** update-ref -d from exactly `tip`, unless a worktree stands there; then whether
    a copy is left. */
  method DropAt(w: World, k: Copy, tip: Id) returns (left: bool)
    requires w.Valid() && k !in w.rely.forward
    modifies w`s, w`own
    ensures Acted(old(w.own), w.own, NOTHING.(moves := {(k, None)})) && MovesMet(old(w.own), w.own, k, Some(tip))
    ensures DropsVacant(old(w.own), w.own)
    ensures |old(w.own)| < |w.own| && LeftTold(w.own, k, left) && DropSeen(old(w.own), w.own, k, tip)
    ensures w.Valid() && Grows(old(w.s), w.s)
    ensures w.rely.alone ==> w.s.legacy == old(w.s).legacy
  {
    hide Inv;
    hide Anc;
    hide Grows;
    hide Acted;
    hide MovesMet;
    hide DropsVacant;
    hide HeardIn;
    hide DropTried;
    hide DropSeen;
    hide Tried;
    hide Passed;
    hide LeftTold;
    ghost var start, own, f := w.s, w.own, NOTHING.(moves := {(k, None)});
    var local := w.LocalTip(k);
    ghost var read, reading := w.s, w.own;
    ActedWider(own, reading, NOTHING, f);
    NoMoves(own, reading, NOTHING, k, Some(tip));
    NoDrop(own, reading, NOTHING);
    HeardLast(own, reading, OfCopy(k), Answer(local));
    PassedGrows(w.rely, start, read);
    GrowsSelf(read);
    if local == Some(tip) {
      DropCopy(w, k, Some(tip));
      ActedThen(own, reading, w.own, f, f, f);
      MovesMetTrans(own, reading, w.own, k, Some(tip));
      VacantThen(own, reading, w.own);
      ActedLonger(reading, w.own, f);
      DropSooner(own, reading, w.own, k);
      PassedGrows(Loose(w.rely, k), read, w.s);
    }
    ghost var dropped, dropping := w.s, w.own;
    ActedLonger(own, dropping, f);
    ActedLonger(own, reading, f);
    assert reading <= dropping;
    HeardStill(own, own, reading, dropping, OfCopy(k), Answer(local));
    SeenTo(own, dropping, k, tip, local);
    var after := w.LocalTip(k);
    left := after.Some?;
    ReadThen(own, dropping, w.own, f);
    ActedLonger(dropping, w.own, NOTHING);
    DropSeenStill(own, own, dropping, w.own, k, tip);
    PassedGrows(w.rely, dropped, w.s);
    NoMoves(dropping, w.own, NOTHING, k, Some(tip));
    MovesMetTrans(own, dropping, w.own, k, Some(tip));
    NoDrop(dropping, w.own, NOTHING);
    VacantThen(own, dropping, w.own);
    GrowsTrans(start, read, dropped);
    GrowsTrans(start, dropped, w.s);
    LeftBy(w.own, k, after);
  }

  lemma LeftBy(own: seq<Deed>, k: Copy, after: Option<Id>)
    requires LastHeard(own, OfCopy(k), Answer(after))
    ensures LeftTold(own, k, after.Some?)
  {
  }

  lemma SeenTo(a: seq<Deed>, b: seq<Deed>, k: Copy, tip: Id, x: Option<Id>)
    requires HeardIn(a, b, OfCopy(k), Answer(x)) && (x == Some(tip) ==> DropTried(a, b, k))
    ensures DropSeen(a, b, k, tip)
  {
  }

  /** Some place of its log, between the two, is where it read the branch: at its tip if it is standing, and
    gone if not. */
  ghost predicate ReadInPlace(a: State, b: State, own: seq<Deed>, lo: nat, hi: nat, o: Opts, branch: string, tip: Id,
                              standing: bool, onOrigin: bool)
  {
    exists i: nat :: lo <= i < hi <= |own| &&
      BranchRead(own[..hi], i, o, branch, Answer(if standing then Some(tip) else None), onOrigin)
      && Grows(a, own[i].at) && Grows(own[i].at, b)
  }

  lemma InPlaceStill(a: State, b: State, own: seq<Deed>, lo: nat, hi: nat, c: State, own': seq<Deed>, hi': nat, o: Opts,
                     branch: string, tip: Id, standing: bool, onOrigin: bool)
    requires ReadInPlace(a, b, own, lo, hi, o, branch, tip, standing, onOrigin)
    requires own <= own' && hi <= hi' <= |own'| && Grows(b, c)
    ensures ReadInPlace(a, c, own', lo, hi', o, branch, tip, standing, onOrigin)
  {
    var i: nat :| lo <= i < hi <= |own| &&
      BranchRead(own[..hi], i, o, branch, Answer(if standing then Some(tip) else None), onOrigin)
      && Grows(a, own[i].at) && Grows(own[i].at, b);
    BranchStill(own[..hi], own'[..hi'], i, o, branch, Answer(if standing then Some(tip) else None), onOrigin);
    GrowsTrans(own[i].at, b, c);
    hide Grows;
    hide BranchRead;
    assert own'[i] == own[i];
  }

  lemma BranchStill(own: seq<Deed>, own': seq<Deed>, i: nat, o: Opts, branch: string, r: Read, onOrigin: bool)
    requires BranchRead(own, i, o, branch, r, onOrigin) && own <= own'
    ensures BranchRead(own', i, o, branch, r, onOrigin)
  {
    assert own'[i] == own[i] && (i + 1 < |own| ==> own'[i+1] == own[i+1]);
  }

  /** All these branches were read in place. */
  ghost predicate AllInPlace(a: State, b: State, own: seq<Deed>, lo: nat, hi: nat, o: Opts, branches: seq<string>,
                             tips: map<string, Id>, standing: seq<string>, pushed: map<string, bool>)
  {
    forall x | x in branches && x in tips ::
      ReadInPlace(a, b, own, lo, hi, o, x, tips[x], x in standing, x in pushed && pushed[x])
  }

  /** Why it stopped early: it read a branch elsewhere, or could not read one. */
  ghost predicate StoppedBy(own: seq<Deed>, lo: nat, o: Opts, tips: map<string, Id>, why: Why) {
    exists x, i: nat, onOrigin :: x in tips && lo <= i &&
      if why.Lost? then tips[x] != why.tip && BranchRead(own, i, o, x, Answer(Some(why.tip)), onOrigin)
      else why == Why.Trouble(ReadFault) && BranchRead(own, i, o, x, Fault, onOrigin)
  }

  /** The first read of every branch, in order: those still standing at the observed
    tip, and whether origin carries each; or why the takeover stops before it
    touches anything. */
  method ReadAll(w: World, o: Opts, tips: map<string, Id>, branches: seq<string>)
    returns (standing: seq<string>, pushed: map<string, bool>, why: Option<Why>)
    requires w.Valid() && Sorted(branches) && forall b | b in branches :: b in tips
    modifies w`s, w`own
    ensures Acted(old(w.own), w.own, NOTHING)
    // it goes on only when every branch was read at its observed tip, or gone
    ensures why.None? ==>
      AllInPlace(old(w.s), w.s, w.own, |old(w.own)|, |w.own|, o, branches, tips, standing, pushed)
    ensures why.Some? ==> StoppedBy(w.own, |old(w.own)|, o, tips, why.value)
    ensures w.Valid() && Grows(old(w.s), w.s) && (w.rely.alone ==> w.s == old(w.s))
    ensures Sorted(standing) && forall b | b in standing :: b in branches && b in pushed && w.s.Fetchable(tips[b])
    ensures w.rely.alone && why.None? ==> forall b | b in branches && b in w.s.legacy ::
      b in standing && pushed[b] && w.s.legacy[b] == tips[b]
  {
    hide Inv;
    hide Anc;
    hide Acted;
    hide Grows;
    hide ReadInPlace;
    hide BranchRead;
    hide Passed;
    hide StoppedBy;
    hide Sorted;
    hide AllInPlace;
    ghost var start, own := w.s, w.own;
    EmptySorted();
    NoneInPlace(start, own, o, tips);
    standing, pushed, why := [], map[], None;
    GrowsSelf(start);
    ActedNone(own, NOTHING);
    for i := 0 to |branches|
      invariant w.Valid() && Grows(start, w.s) && (w.rely.alone ==> w.s == start) && Acted(own, w.own, NOTHING)
      invariant Sorted(standing)
      invariant forall b | b in standing :: b in branches[..i] && b in pushed && w.s.Fetchable(tips[b])
      invariant forall b | b in pushed :: b in standing
      invariant AllInPlace(start, w.s, w.own, |own|, |w.own|, o, branches[..i], tips, standing, pushed)
      invariant w.rely.alone ==> forall b | b in branches[..i] && b in w.s.legacy ::
        b in standing && pushed[b] && w.s.legacy[b] == tips[b]
    {
      var b := branches[i];
      ghost var before, reading := w.s, w.own;
      assert branches[..i+1] == branches[..i] + [b];
      SortedOnce(branches, i);
      ActedLonger(own, reading, NOTHING);
      var now, onOrigin := DecoratedTip(w, o, b);
      PassedGrows(w.rely, before, w.s);
      ReadThen(own, reading, w.own, NOTHING);
      ActedLonger(reading, w.own, NOTHING);
      GrowsTrans(start, before, w.s);
      if now == Fault || (now.tip.Some? && now.tip.value != tips[b]) {
        why := Some(if now == Fault then Why.Trouble(ReadFault) else Why.Lost(now.tip.value));
        StopsHere(w.own, |own|, |reading|, o, tips, b, now, onOrigin, why.value);
        return;
      }
      ReadHere(start, before, w.s, w.own, |own|, |reading|, o, b, tips[b], now, onOrigin);
      ghost var was, had := standing, pushed;
      if now.tip.Some? {
        SortedMore(branches, i, standing);
        standing := standing + [b];
        pushed := pushed[b := onOrigin];
      }
      NextInPlace(start, before, reading, |own|, w.s, w.own, o, branches[..i], b, tips, was, had, standing, pushed);
    }
    assert branches[..|branches|] == branches;
  }

  lemma NoneInPlace(s: State, own: seq<Deed>, o: Opts, tips: map<string, Id>)
    ensures AllInPlace(s, s, own, |own|, |own|, o, [], tips, [], map[])
  {
  }

  /** Reading one more branch leaves the others as read. */
  lemma NextInPlace(a: State, b: State, own: seq<Deed>, lo: nat, c: State, own': seq<Deed>, o: Opts, done: seq<string>,
                    next: string, tips: map<string, Id>, was: seq<string>, had: map<string, bool>,
                    standing: seq<string>, pushed: map<string, bool>)
    requires AllInPlace(a, b, own, lo, |own|, o, done, tips, was, had) && own <= own' && Grows(b, c)
    requires next in tips ==>
      ReadInPlace(a, c, own', lo, |own'|, o, next, tips[next], next in standing, next in pushed && pushed[next])
    requires forall x | x != next :: (x in standing <==> x in was) && (x in pushed <==> x in had)
    requires forall x | x != next && x in pushed :: pushed[x] == had[x]
    ensures AllInPlace(a, c, own', lo, |own'|, o, done + [next], tips, standing, pushed)
  {
    hide ReadInPlace;
    hide Grows;
    forall x | x in done + [next] && x in tips
      ensures ReadInPlace(a, c, own', lo, |own'|, o, x, tips[x], x in standing, x in pushed && pushed[x])
    {
      if x != next {
        InPlaceStill(a, b, own, lo, |own|, c, own', |own'|, o, x, tips[x], x in was, x in had && had[x]);
      }
    }
  }

  lemma EmptySorted()
    ensures Sorted([])
  {
  }

  lemma SortedMore(branches: seq<string>, i: nat, standing: seq<string>)
    requires Sorted(branches) && i < |branches| && Sorted(standing) && forall b | b in standing :: b in branches[..i]
    ensures Sorted(standing + [branches[i]])
  {
    forall k | 0 <= k < |standing| ensures Less(standing[k], branches[i]) {
      assert standing[k] in branches[..i];
      var n :| 0 <= n < i && branches[n] == standing[k];
    }
  }

  lemma StopsHere(own: seq<Deed>, lo: nat, i: nat, o: Opts, tips: map<string, Id>, branch: string, r: Read,
                  onOrigin: bool, why: Why)
    requires branch in tips && lo <= i && BranchRead(own, i, o, branch, r, onOrigin)
    requires (r == Fault && why == Why.Trouble(ReadFault)) ||
             (r.Answer? && r.tip.Some? && r.tip.value != tips[branch] && why == Why.Lost(r.tip.value))
    ensures StoppedBy(own, lo, o, tips, why)
  {
    hide BranchRead;
  }

  /** A sorted list names a branch once. */
  lemma SortedOnce(branches: seq<string>, i: nat)
    requires Sorted(branches) && i < |branches|
    ensures branches[i] !in branches[..i]
  {
    if branches[i] in branches[..i] {
      var n :| 0 <= n < i && branches[n] == branches[i];
      LessIrreflexive(branches[i]);
    }
  }

  lemma ReadHere(a: State, b: State, c: State, own: seq<Deed>, lo: nat, i: nat, o: Opts, branch: string, tip: Id,
                 r: Read, onOrigin: bool)
    requires BranchRead(own, i, o, branch, r, onOrigin) && r.Answer? && (r.tip.Some? ==> r.tip.value == tip)
    requires lo <= i < |own| && Grows(a, b) && Grows(b, own[i].at) && Grows(own[i].at, c)
    ensures ReadInPlace(a, c, own, lo, |own|, o, branch, tip, r.tip.Some?, onOrigin)
  {
    GrowsTrans(a, b, own[i].at);
    hide Grows;
    assert own[..|own|] == own;
  }

  /** Every entry is on the record at its branch's observed tip. */
  ghost predicate AllOnRecord(s: State, o: Opts, rs: seq<Retired>, tips: map<string, Id>, judged: bool) {
    forall i | 0 <= i < |rs| :: rs[i].branch in tips && OnRecord(s, o, rs[i], tips[rs[i].branch], judged)
  }

  lemma AllOnRecordStable(a: State, b: State, o: Opts, rs: seq<Retired>, tips: map<string, Id>, judged: bool)
    requires AllOnRecord(a, o, rs, tips, judged) && Grows(a, b)
    ensures AllOnRecord(b, o, rs, tips, judged)
  {
    hide OnRecord;
    forall i | 0 <= i < |rs| ensures OnRecord(b, o, rs[i], tips[rs[i].branch], judged) {
      OnRecordStable(a, b, o, rs[i], tips[rs[i].branch], judged);
    }
  }

  /** An entry says truly whether the branch went from origin, and whether a local copy was left once the
    call had last touched it; and a copy it read at the branch's tip it saw to. */
  ghost predicate EntryTold(a: seq<Deed>, b: seq<Deed>, s0: State, s: State, o: Opts, r: Retired,
                            tips: map<string, Id>)
  {
    && (r.deletedOnOrigin ==> GoneBetween(s0, s, r.branch))
    && ToldLast(a, b, Copy(o.clone, r.branch), r.localKept)
    && (r.branch in tips ==> DropSeen(a, b, Copy(o.clone, r.branch), tips[r.branch]))
  }

  ghost predicate ToldLast(a: seq<Deed>, b: seq<Deed>, k: Copy, left: bool) {
    exists i, x :: |a| <= i < |b| && b[i].Heard? && b[i].of == OfCopy(k) && b[i].answer == Answer(x)
      && (left <==> x.Some?) && Unmoved(b, i, k)
  }

  ghost predicate Unmoved(own: seq<Deed>, i: int, k: Copy) {
    forall j | 0 <= i < j < |own| && own[j].Deed? && own[j].what.MoveLocal? :: own[j].what.copy != k
  }

  lemma ToldHere(a: seq<Deed>, b: seq<Deed>, k: Copy, left: bool)
    requires |a| < |b| && LeftTold(b, k, left)
    ensures ToldLast(a, b, k, left)
  {
    var x: Option<Id> :| LastHeard(b, OfCopy(k), Answer(x)) && (left <==> x.Some?);
    assert Unmoved(b, |b| - 1, k);
  }

  lemma EntryStill(a: seq<Deed>, b: seq<Deed>, c: seq<Deed>, s0: State, s: State, s': State, o: Opts, r: Retired,
                   tips: map<string, Id>, f: Footprint)
    requires EntryTold(a, b, s0, s, o, r, tips) && Acted(b, c, f) && Grows(s, s')
    requires forall m | m in f.moves :: m.0 != Copy(o.clone, r.branch)
    ensures EntryTold(a, c, s0, s', o, r, tips)
  {
    hide Inv;
    hide Enabled;
    hide Truthful;
    hide Judged;
    if r.deletedOnOrigin { GrowsSelf(s0); GoneAround(s0, s0, s, s', r.branch); }
    hide GoneBetween;
    hide DropSeen;
    var k := Copy(o.clone, r.branch);
    if r.branch in tips { DropSeenStill(a, a, b, c, k, tips[r.branch]); }
    var i, x :| |a| <= i < |b| && b[i].Heard? && b[i].of == OfCopy(k) && b[i].answer == Answer(x)
      && (r.localKept <==> x.Some?) && Unmoved(b, i, k);
    forall j | i < j < |c| && c[j].Deed? && c[j].what.MoveLocal? ensures c[j].what.copy != k {
      if j < |b| { assert c[j] == b[j]; } else { assert Allowed(f, c[j]); }
    }
    assert c[i] == b[i] && Unmoved(c, i, k);
  }

  ghost predicate AllTold(a: seq<Deed>, b: seq<Deed>, s0: State, s: State, o: Opts, rs: seq<Retired>,
                          tips: map<string, Id>)
  {
    forall i | 0 <= i < |rs| :: EntryTold(a, b, s0, s, o, rs[i], tips)
  }

  lemma AllToldStill(a: seq<Deed>, b: seq<Deed>, c: seq<Deed>, s0: State, s: State, s': State, o: Opts,
                     rs: seq<Retired>, tips: map<string, Id>, f: Footprint)
    requires AllTold(a, b, s0, s, o, rs, tips) && Acted(b, c, f) && Grows(s, s')
    requires forall m, i | m in f.moves && 0 <= i < |rs| :: m.0 != Copy(o.clone, rs[i].branch)
    ensures AllTold(a, c, s0, s', o, rs, tips)
  {
    hide EntryTold;
    hide Acted;
    hide Grows;
    forall i | 0 <= i < |rs| ensures EntryTold(a, c, s0, s', o, rs[i], tips) {
      EntryStill(a, b, c, s0, s, s', o, rs[i], tips, f);
    }
  }

  lemma AllToldFrom(a: seq<Deed>, b: seq<Deed>, s00: State, s0: State, s: State, s': State, o: Opts, rs: seq<Retired>,
                    tips: map<string, Id>)
    requires AllTold(a, b, s0, s, o, rs, tips) && Grows(s00, s0) && Grows(s, s')
    ensures AllTold(a, b, s00, s', o, rs, tips)
  {
    hide ToldLast;
    hide DropSeen;
    forall i | 0 <= i < |rs| ensures EntryTold(a, b, s00, s', o, rs[i], tips) {
      assert EntryTold(a, b, s0, s, o, rs[i], tips);
      if rs[i].deletedOnOrigin { GoneAround(s00, s0, s, s', rs[i].branch); }
    }
  }

  /** Every local copy it dropped it met at the observed tip, with no worktree on it. */
  ghost predicate DropsMet(a: seq<Deed>, b: seq<Deed>, tips: map<string, Id>) {
    DropsVacant(a, b) && forall i | |a| <= i < |b| && b[i].Deed? && b[i].what.MoveLocal? ::
      var k := b[i].what.copy;
      k.branch in tips && b[i].at.Local(k) == Some(tips[k.branch])
  }

  lemma DropsFrom(a: seq<Deed>, b: seq<Deed>, o: Opts, tips: map<string, Id>, branch: string, judged: bool)
    requires branch in tips && Acted(a, b, Retiring(o, map[branch := tips[branch]], {branch}, judged))
    requires MovesMet(a, b, Copy(o.clone, branch), Some(tips[branch])) && DropsVacant(a, b)
    ensures DropsMet(a, b, tips)
  {
    hide DropsVacant;
    hide Inv;
    hide Enabled;
    hide Truthful;
    hide Judged;
    forall i | |a| <= i < |b| && b[i].Deed? && b[i].what.MoveLocal? ensures b[i].what.copy == Copy(o.clone, branch) {
      assert Allowed(Retiring(o, map[branch := tips[branch]], {branch}, judged), b[i]);
    }
  }

  lemma DropsThen(a: seq<Deed>, b: seq<Deed>, c: seq<Deed>, tips: map<string, Id>)
    requires DropsMet(a, b, tips) && DropsMet(b, c, tips)
    ensures DropsMet(a, c, tips)
  {
    VacantThen(a, b, c);
  }

  /** The retirements, in order, up to the first that fails. */
  method RetireAll(w: World, o: Opts, tips: map<string, Id>, standing: seq<string>, pushed: map<string, bool>)
    returns (retired: seq<Retired>, why: Option<Why>)
    requires w.Valid() && Sorted(standing)
    requires forall b | b in standing ::
      b in tips && b in pushed && w.s.Fetchable(tips[b]) && Copy(o.clone, b) !in w.rely.forward
    modifies w`s, w`own
    ensures Acted(old(w.own), w.own, Retiring(o, tips, Touched(standing, |retired|), o.clone in w.rely.quiet))
    ensures DropsMet(old(w.own), w.own, tips)
    ensures w.Valid() && Grows(old(w.s), w.s) && AllOnRecord(w.s, o, retired, tips, o.clone in w.rely.quiet)
    // the entries are true, the retirements over or not
    ensures AllTold(old(w.own), w.own, old(w.s), w.s, o, retired, tips)
    ensures |retired| <= |standing| && Branches(retired) == standing[..|retired|]
    ensures forall i | 0 <= i < |retired| :: retired[i].deletedOnOrigin == pushed[standing[i]]
    ensures why.None? <==> |retired| == |standing|
    // a lost race names where the branch in turn stands instead, and a trouble was there
    ensures why.Some? ==> var b := standing[|retired|]; StoppedTruly(w.s, w.own, o, b, tips[b], why.value)
    ensures w.rely.alone ==>
      why != Some(Why.Trouble(ReadFault)) && LegacyKept(old(w.s), w.s, Touched(standing, |retired|))
    ensures w.rely.alone ==> forall i | 0 <= i < |retired| && pushed[standing[i]] :: standing[i] !in w.s.legacy
  {
    hide Inv;
    hide Anc;
    hide Grows;
    hide OnRecord;
    hide LegacyKept;
    hide Acted;
    hide MovesMet;
    hide DropsVacant;
    hide DropsMet;
    hide Retiring;
    hide Within;
    hide EntryTold;
    hide GoneBetween;
    hide LeftTold;
    hide DropSeen;
    hide StoppedTruly;
    hide AllTold;
    hide AllOnRecord;
    ghost var start, own, judged := w.s, w.own, o.clone in w.rely.quiet;
    ActedNone(own, Retiring(o, tips, Touched(standing, 0), judged));
    NoDrops(own, tips);
    retired, why := [], None;
    GrowsSelf(w.s);
    NothingTouched(w.s);
    NoneRetired(own, w.s, o, tips, judged);
    for i := 0 to |standing|
      invariant w.Valid() && Grows(start, w.s) && AllOnRecord(w.s, o, retired, tips, judged)
      invariant Acted(own, w.own, Retiring(o, tips, Touched(standing, i), judged)) && DropsMet(own, w.own, tips)
      invariant AllTold(own, w.own, start, w.s, o, retired, tips)
      invariant |retired| == i && Branches(retired) == standing[..i]
      invariant forall j | 0 <= j < i :: retired[j].deletedOnOrigin == pushed[standing[j]]
      invariant w.rely.alone ==> LegacyKept(start, w.s, Touched(standing, i))
      invariant w.rely.alone ==> forall j | 0 <= j < i && pushed[standing[j]] :: standing[j] !in w.s.legacy
    {
      var b := standing[i];
      ghost var before, doing := w.s, w.own;
      StillTip(start, before, tips[b]);
      var r, failed := Retire(w, o, b, tips[b], pushed[b]);
      GrowsTrans(start, before, w.s);
      AllOnRecordStable(before, w.s, o, retired, tips, judged);
      if w.rely.alone {
        LegacyKeptTrans(start, before, w.s, Touched(standing, i), {b}, Touched(standing, i));
        LegacyKeptTrans(start, before, w.s, Touched(standing, i), {b}, Touched(standing, i + 1));
        NoneCame(before, w.s, {b});
      }
      RetiredToo(own, doing, w.own, o, tips, standing, i, judged);
      DropsFrom(doing, w.own, o, tips, b, judged);
      DropsThen(own, doing, w.own, tips);
      OthersTold(own, doing, w.own, start, before, w.s, o, retired, tips, standing, i, judged);
      if failed.Some? { why := failed; return; }
      ActedLonger(own, doing, Retiring(o, tips, Touched(standing, i), judged));
      EntryAdded(own, doing, w.own, start, before, w.s, o, r, tips);
      OneMore(own, w.own, start, w.s, o, retired, r, tips, judged);
      retired := retired + [r];
    }
  }

  lemma NoneRetired(own: seq<Deed>, s: State, o: Opts, tips: map<string, Id>, judged: bool)
    ensures AllTold(own, own, s, s, o, [], tips) && AllOnRecord(s, o, [], tips, judged)
  {
  }

  lemma OneMore(a: seq<Deed>, b: seq<Deed>, s0: State, s: State, o: Opts, rs: seq<Retired>, r: Retired,
                tips: map<string, Id>, judged: bool)
    requires AllTold(a, b, s0, s, o, rs, tips) && EntryTold(a, b, s0, s, o, r, tips)
    requires AllOnRecord(s, o, rs, tips, judged) && r.branch in tips && OnRecord(s, o, r, tips[r.branch], judged)
    ensures AllTold(a, b, s0, s, o, rs + [r], tips) && AllOnRecord(s, o, rs + [r], tips, judged)
    ensures Branches(rs + [r]) == Branches(rs) + [r.branch]
  {
    hide EntryTold;
    hide OnRecord;
  }

  lemma NoDrops(a: seq<Deed>, tips: map<string, Id>)
    ensures DropsMet(a, a, tips)
  {
  }

  lemma OthersTold(a: seq<Deed>, b: seq<Deed>, c: seq<Deed>, s0: State, s: State, s': State, o: Opts, rs: seq<Retired>,
                   tips: map<string, Id>, standing: seq<string>, i: nat, judged: bool)
    requires i < |standing| && Sorted(standing) && standing[i] in tips && Branches(rs) == standing[..i]
    requires AllTold(a, b, s0, s, o, rs, tips) && Grows(s, s')
    requires Acted(b, c, Retiring(o, map[standing[i] := tips[standing[i]]], {standing[i]}, judged))
    ensures AllTold(a, c, s0, s', o, rs, tips)
  {
    hide Acted;
    hide Grows;
    hide EntryTold;
    SortedOnce(standing, i);
    assert |Branches(rs)| == |rs|;
    forall j | 0 <= j < |rs| ensures rs[j].branch != standing[i] {
      assert Branches(rs)[j] == standing[..i][j];
    }
    AllToldStill(a, b, c, s0, s, s', o, rs, tips,
                 Retiring(o, map[standing[i] := tips[standing[i]]], {standing[i]}, judged));
  }

  lemma EntryAdded(a: seq<Deed>, b: seq<Deed>, c: seq<Deed>, s0: State, s: State, s': State, o: Opts, r: Retired,
                   tips: map<string, Id>)
    requires a <= b && |b| < |c| && LeftTold(c, Copy(o.clone, r.branch), r.localKept)
    requires Grows(s0, s) && Grows(s, s') && (r.deletedOnOrigin ==> GoneBetween(s, s', r.branch))
    requires r.branch in tips && DropSeen(b, c, Copy(o.clone, r.branch), tips[r.branch])
    ensures EntryTold(a, c, s0, s', o, r, tips)
  {
    if r.deletedOnOrigin {
      GrowsSelf(s');
      GoneAround(s0, s, s', s', r.branch);
    }
    hide GoneBetween;
    hide LeftTold;
    ToldHere(a, c, Copy(o.clone, r.branch), r.localKept);
    DropSeenStill(a, b, c, c, Copy(o.clone, r.branch), tips[r.branch]);
  }

  lemma RetiredToo(a: seq<Deed>, b: seq<Deed>, c: seq<Deed>, o: Opts, tips: map<string, Id>, standing: seq<string>,
                   i: nat, judged: bool)
    requires i < |standing| && standing[i] in tips
    requires Acted(a, b, Retiring(o, tips, Touched(standing, i), judged))
    requires Acted(b, c, Retiring(o, map[standing[i] := tips[standing[i]]], {standing[i]}, judged))
    ensures Acted(a, c, Retiring(o, tips, Touched(standing, i), judged))
    ensures Acted(a, c, Retiring(o, tips, Touched(standing, i + 1), judged))
  {
    hide Acted;
    var one := map[standing[i] := tips[standing[i]]];
    var f, g := Retiring(o, tips, Touched(standing, i), judged), Retiring(o, one, {standing[i]}, judged);
    assert Within(g, f);
    RetiringMore(o, tips, Touched(standing, i), Touched(standing, i + 1), judged);
    WithinSelf(f);
    ActedThen(a, b, c, f, g, f);
    ActedWider(a, c, f, Retiring(o, tips, Touched(standing, i + 1), judged));
  }

  lemma StillTip(a: State, b: State, x: Id)
    requires Grows(a, b) && a.Fetchable(x)
    ensures b.Fetchable(x)
  {
    StillFetchable(a, b, x);
  }

  lemma NoneCame(a: State, b: State, but: set<string>)
    requires LegacyKept(a, b, but)
    ensures forall x | x in b.legacy :: x in a.legacy
  {
  }

  lemma SameLegacyKept(a: State, b: State, c: State, but: set<string>)
    requires LegacyKept(a, b, but) && c.legacy == b.legacy
    ensures LegacyKept(a, c, but) && forall x | x in c.legacy :: x in a.legacy
  {
  }

  lemma NothingTouched(s: State)
    ensures forall but :: LegacyKept(s, s, but)
  {
  }

  /** The branches retired, and the one a retirement failed on. */
  ghost function Touched(standing: seq<string>, done: nat): set<string> {
    set i | 0 <= i < |standing| && i <= done :: standing[i]
  }

  /** How far one got: whether it began; the branches then standing and whether origin carried each; how long
    its log was when every branch had been read, and when the retirements were over; and what its acquire
    minted over. */
  datatype Progress = Progress(began: bool, standing: seq<string>, pushed: map<string, bool>, looked: nat, cleared: nat,
                               over: Option<Id>, minted: Option<Id>)

  /** What a decorated takeover promises whoever else is at work. */
  ghost predicate DecoratedDone(a: State, b: State, before: seq<Deed>, own: seq<Deed>, o: Opts, tips: map<string, Id>,
                                rely: Rely, res: Result, ran: Progress)
  {
    // it does not begin when a branch was read elsewhere or could not be read, and then it did nothing but read
    && (!ran.began ==>
          && Acted(before, own, NOTHING) && res.won.None? && res.retired == []
          && res.why.Some? && StoppedBy(own, |before|, o, tips, res.why.value))
    && (ran.began ==> Began(a, b, before, own, o, tips, rely, res, ran))
  }

  ghost predicate Began(a: State, b: State, before: seq<Deed>, own: seq<Deed>, o: Opts, tips: map<string, Id>,
                        rely: Rely, res: Result, ran: Progress)
  {
    var judged := o.clone in rely.quiet;
    && Looked(a, b, before, own, o, tips, ran)
    && Cleared(own, o, tips, judged, |res.retired|, ran)
    && Listed(a, b, own, o, tips, judged, res.retired, ran)
    // a win is the marker its acquire minted, a claim landed during the call
    && (res.won.Some? <==> res.why.None?)
    && (res.won.Some? ==> AcquireDone(a, b, o, ran.over, Leases.Won(res.won.value), ran.minted))
    && (res.why.Some? && res.why.value.Acquire? ==>
          AcquireDone(a, b, o, ran.over, Leases.Failed(res.why.value.error), ran.minted))
    // its acquire did its job, whatever it ends with
    && (res.won.Some? ==> Acquired(b, own, o, rely, ran, Leases.Won(res.won.value)))
    && (res.why.Some? && res.why.value.Acquire? ==>
          Acquired(b, own, o, rely, ran, Leases.Failed(res.why.value.error)))
    && (ran.minted.Some? ==> IsMarker(b.log, ran.minted.value) && b.log[ran.minted.value].body.kind.Claim?)
    // it acquires only after the last retirement
    && (res.won.Some? || (res.why.Some? && res.why.value.Acquire?) || |own| > ran.cleared ==>
          |res.retired| == |ran.standing|)
    // short of that it stopped at the next in line, and says truly why
    && (res.why.Some? && !res.why.value.Acquire? ==>
          |res.retired| < |ran.standing| &&
          var x := ran.standing[|res.retired|];
          x in tips && StoppedTruly(b, own, o, x, tips[x], res.why.value))
  }

  /** After the last retirement it acquired, and ended as it was told. */
  ghost predicate Acquired(b: State, own: seq<Deed>, o: Opts, rely: Rely, ran: Progress, r: Leases.Outcome) {
    ran.cleared <= |own| && exists read :: AcquireTold(own[..ran.cleared], own, b, o, rely, read, ran.minted, r)
  }

  /** First it only reads: every branch, each at its observed tip on origin or here, or gone from both. */
  ghost predicate Looked(a: State, b: State, before: seq<Deed>, own: seq<Deed>, o: Opts, tips: map<string, Id>,
                         ran: Progress)
  {
    && ran.looked <= |own| && Acted(before, own[..ran.looked], NOTHING)
    && forall x | x in tips ::
         ReadInPlace(a, b, own, |before|, ran.looked, o, x, tips[x], x in ran.standing,
                     x in ran.pushed && ran.pushed[x])
  }

  /** Then it parks and deletes branches of the list, each at its observed tip, and the one a retirement failed
    on; after that it does nothing but acquire. */
  ghost predicate Cleared(own: seq<Deed>, o: Opts, tips: map<string, Id>, judged: bool, done: nat, ran: Progress) {
    && ran.looked <= ran.cleared <= |own|
    && Acted(own[..ran.looked], own[..ran.cleared], Retiring(o, tips, Touched(ran.standing, done), judged))
    && DropsMet(own[..ran.looked], own[..ran.cleared], tips)
    && Acted(own[..ran.cleared], own, Marking(o, ran.over, ran.minted))
  }

  /** The list holds the completed retirements in order, each on the record, and each entry says truly what is
    gone and what is left, whether the rest were completed or one failed. */
  ghost predicate Listed(a: State, b: State, own: seq<Deed>, o: Opts, tips: map<string, Id>, judged: bool,
                         retired: seq<Retired>, ran: Progress)
  {
    && Sorted(ran.standing) && (forall x | x in ran.standing :: x in tips && x in ran.pushed)
    && |retired| <= |ran.standing| && Branches(retired) == ran.standing[..|retired|]
    && AllOnRecord(b, o, retired, tips, judged)
    && (forall i | 0 <= i < |retired| :: retired[i].deletedOnOrigin == ran.pushed[ran.standing[i]])
    && ran.looked <= ran.cleared <= |own| && AllTold(own[..ran.looked], own[..ran.cleared], a, b, o, retired, tips)
  }

  /** What it did to origin's decorated branches when nobody else was at work. */
  ghost predicate DecoratedAlone(a: State, b: State, tips: map<string, Id>, res: Result, ran: Progress) {
    && (!ran.began ==> b == a)
    && (ran.began ==> forall x | x in tips && x in a.legacy :: a.legacy[x] == tips[x] && x in ran.standing)
    // origin lost no branch but those listed and the one a retirement failed on
    && LegacyKept(a, b, Touched(ran.standing, |res.retired|))
    // once it has begun no read fails it
    && (ran.began ==> res.why != Some(Why.Trouble(ReadFault)))
    // and a win leaves no branch of the hold
    && (res.won.Some? ==> forall x | x in tips :: x !in b.legacy)
  }

  /** TakeoverDecorated: read every branch first and stop if any moved; retire each at
    its observed tip; only then acquire the id-only lease. */
  method TakeoverDecorated(w: World, o: Opts, tips: map<string, Id>) returns (res: Result, ghost ran: Progress)
    requires w.Valid() && OwnCopy(o) !in w.rely.forward && forall b | b in tips :: Copy(o.clone, b) !in w.rely.forward
    modifies w`s, w`own
    ensures w.Valid() && Grows(old(w.s), w.s)
    ensures DecoratedDone(old(w.s), w.s, old(w.own), w.own, o, tips, w.rely, res, ran)
    ensures w.rely.alone ==> DecoratedAlone(old(w.s), w.s, tips, res, ran)
  {
    hide Inv;
    hide Anc;
    hide Grows;
    hide OnRecord;
    hide LegacyKept;
    hide AcquireDone;
    hide Acted;
    hide Retiring;
    hide Marking;
    hide DropsMet;
    hide EntryTold;
    hide ReadInPlace;
    hide StoppedBy;
    hide AllOnRecord;
    hide AllTold;
    hide Looked;
    hide Cleared;
    hide Listed;
    hide Leases.PushToldApart;
    hide ClaimedClean;
    hide FirstHeard;
    hide AllInPlace;
    hide AcquireTold;
    hide TrulyDiverges;
    hide MetAsRead;
    hide RefusedTruly;
    hide StandsAt;
    hide Sorted;
    hide HeardIn;
    hide Passed;
    hide Acquired;
    ghost var start, own, judged := w.s, w.own, o.clone in w.rely.quiet;
    GrowsSelf(start);
    NothingTouched(start);
    var branches := SortKeys(tips.Keys);
    var list, pushed, stop := ReadAll(w, o, tips, branches);
    if stop.Some? {
      return Result(None, stop, []), Progress(false, [], map[], |w.own|, |w.own|, None, None);
    }
    ghost var read, looked := w.s, w.own;
    var retired, why := RetireAll(w, o, tips, list, pushed);
    ghost var done, cleared := w.s, w.own;
    GrowsTrans(start, read, done);
    ActedLonger(looked, cleared, Retiring(o, tips, Touched(list, |retired|), judged));
    if why.Some? {
      ran := Progress(true, list, pushed, |looked|, |cleared|, None, None);
      ActedNone(cleared, Marking(o, None, None));
      GrowsSelf(done);
      AllToldFrom(looked, cleared, start, read, done, done, o, retired, tips);
      WasLooked(start, read, looked, own, o, branches, tips, done, cleared, ran);
      WasCleared(looked, cleared, cleared, o, tips, judged, |retired|, ran);
      WasListed(start, done, looked, cleared, cleared, o, tips, judged, retired, ran);
      return Result(None, why, retired), ran;
    }
    var r, over, minted, seen := Acquiring.Acquire(w, o);
    ActedLonger(cleared, w.own, Marking(o, over, minted));
    PassedGrows(Loose(w.rely, OwnCopy(o)), done, w.s);
    GrowsTrans(start, done, w.s);
    GrowsTrans(read, done, w.s);
    AllOnRecordStable(done, w.s, o, retired, tips, judged);
    AllToldFrom(looked, cleared, start, read, done, w.s, o, retired, tips);
    if w.rely.alone { SameLegacyKept(start, done, w.s, Touched(list, |retired|)); }
    LaterDone(start, done, w.s, o, over, r, minted);
    ran := Progress(true, list, pushed, |looked|, |cleared|, over, minted);
    WasLooked(start, read, looked, own, o, branches, tips, w.s, w.own, ran);
    WasCleared(looked, cleared, w.own, o, tips, judged, |retired|, ran);
    WasListed(start, w.s, looked, cleared, w.own, o, tips, judged, retired, ran);
    AcquiredThen(cleared, w.own, w.s, o, w.rely, seen, ran, r);
    res := match r
      case Won(g) => Result(Some(g), None, retired)
      case Failed(e) => Result(None, Some(Why.Acquire(e)), retired);
  }

  lemma AcquiredThen(cleared: seq<Deed>, own: seq<Deed>, s: State, o: Opts, rely: Rely, read: Read, ran: Progress,
                     r: Leases.Outcome)
    requires cleared <= own && ran.cleared == |cleared| && AcquireTold(cleared, own, s, o, rely, read, ran.minted, r)
    ensures Acquired(s, own, o, rely, ran, r)
  {
    hide AcquireTold;
    assert own[..ran.cleared] == cleared;
  }

  lemma WasLooked(a: State, b: State, own: seq<Deed>, before: seq<Deed>, o: Opts, branches: seq<string>,
                  tips: map<string, Id>, c: State, own': seq<Deed>, ran: Progress)
    requires Acted(before, own, NOTHING)
    requires AllInPlace(a, b, own, |before|, |own|, o, branches, tips, ran.standing, ran.pushed)
    requires own <= own' && Grows(b, c) && ran.looked == |own| && forall x | x in tips :: x in branches
    ensures Looked(a, c, before, own', o, tips, ran)
  {
    hide ReadInPlace;
    hide Grows;
    hide Acted;
    assert own'[..ran.looked] == own;
    forall x | x in tips
      ensures ReadInPlace(a, c, own', |before|, ran.looked, o, x, tips[x], x in ran.standing,
                          x in ran.pushed && ran.pushed[x])
    {
      InPlaceStill(a, b, own, |before|, |own|, c, own', |own|, o, x, tips[x], x in ran.standing,
                   x in ran.pushed && ran.pushed[x]);
    }
  }

  lemma WasCleared(looked: seq<Deed>, cleared: seq<Deed>, own: seq<Deed>, o: Opts, tips: map<string, Id>, judged: bool,
                   done: nat, ran: Progress)
    requires looked <= cleared <= own && ran.looked == |looked| && ran.cleared == |cleared|
    requires Acted(looked, cleared, Retiring(o, tips, Touched(ran.standing, done), judged))
    requires DropsMet(looked, cleared, tips)
    requires Acted(cleared, own, Marking(o, ran.over, ran.minted))
    ensures Cleared(own, o, tips, judged, done, ran)
  {
    hide Acted;
    hide DropsMet;
    hide Retiring;
    hide Marking;
    assert own[..ran.looked] == looked && own[..ran.cleared] == cleared;
  }

  lemma WasListed(a: State, b: State, looked: seq<Deed>, cleared: seq<Deed>, own: seq<Deed>, o: Opts,
                  tips: map<string, Id>, judged: bool, retired: seq<Retired>, ran: Progress)
    requires looked <= cleared <= own && ran.looked == |looked| && ran.cleared == |cleared|
    requires Sorted(ran.standing) && (forall x | x in ran.standing :: x in tips && x in ran.pushed)
    requires |retired| <= |ran.standing| && Branches(retired) == ran.standing[..|retired|]
    requires AllOnRecord(b, o, retired, tips, judged)
    requires forall i | 0 <= i < |retired| :: retired[i].deletedOnOrigin == ran.pushed[ran.standing[i]]
    requires AllTold(looked, cleared, a, b, o, retired, tips)
    ensures Listed(a, b, own, o, tips, judged, retired, ran)
  {
    hide AllOnRecord;
    hide AllTold;
    assert own[..ran.looked] == looked && own[..ran.cleared] == cleared;
  }
}
