/** The shared state of one plan's lease, and every atomic change to it.

  One label is one change the server, a clone or a person makes; a run is any
  interleaving of them, so a call that crashes is a run that stops early and a
  push the client gave up on is a `Land` that comes late or never. */
module Machine {
  import opened Wrappers
  import opened Commits

  /** One clone's copy of a branch: the work ref's ("" names it) or a legacy one's. */
  datatype Copy = Copy(clone: nat, branch: string)
  const WORK: string := ""

  /** refs/frit/rescue/<plan>/<holder>-<tip>. */
  datatype Rescue = Rescue(holder: string, tip: Id)

  /** One lane's token file: the clone and the worktree path in it. */
  datatype Lane = Lane(clone: nat, path: string)

  /** Why a branch at `tip` may be deleted: its rescue ref holds it, the scan of what it adds to a view counted
    no work, or merging it into one view gave the tree of the same view as it was read again. */
  datatype Evidence = Parked(holder: string) | NoWork(view: Id) | Landed(into: Id, same: Id)

  /** One branch deleted on origin: the work ref or a decorated one, where it stood, and why. */
  datatype Deletion = Deletion(branch: string, tip: Id, why: Evidence)

  datatype State = State(
    log: Log,
    bases: seq<Id>,                // every value of origin's base branch, oldest first
    history: seq<Option<Id>>,      // every value of origin's work ref, oldest first
    expects: map<Id, Option<Id>>,  // each minted marker's expected old value
    landed: map<Id, nat>,          // each landed marker's place in the history
    rescue: map<Rescue, Id>,
    legacy: map<string, Id>,       // origin's decorated branches
    local: map<Copy, Id>,
    reflog: seq<(Copy, Option<Id>)>,
    tokens: map<Lane, Id>,
    heads: map<nat, seq<Id>>,      // every value of each clone's FETCH_HEAD, oldest first
    deleted: set<Deletion>,
    merge: (Id, Id, Id) -> bool    // merging the second commit into the first gives the tree of the third
  ) {
    /** Origin's work ref now. */
    function Work(): Option<Id> {
      if |history| == 0 then None else history[|history| - 1]
    }

    /** Origin's base branch now. */
    function Base(): Id
      requires |bases| > 0
    {
      bases[|bases| - 1]
    }

    function Local(k: Copy): Option<Id> {
      if k in local then Some(local[k]) else None
    }

    /** A commit a branch may stand at: no minted marker whose push has not landed. */
    predicate Fetchable(x: Id) {
      x < |log| && (IsMarker(log, x) ==> x in landed)
    }

    /** The clone's FETCH_HEAD now. */
    function Head(clone: nat): Option<Id> {
      if clone in heads && heads[clone] != [] then Some(heads[clone][|heads[clone]| - 1]) else None
    }

    /** What a name for base may have meant: base itself, or whatever FETCH_HEAD was, in some clone. */
    predicate Viewed(v: Id) {
      v in bases || exists k :: k in heads && v in heads[k]
    }

    /** A work commit the scan for work counts. */
    predicate Counts(c: Id) {
      c < |log| && log[c].body.Work? && log[c].body.counted
    }

    /** hasWork: `git log tip ^view` lists a commit whose subject is neither empty nor a marker's. */
    predicate HasWork(view: Id, tip: Id) {
      exists c: Id | 0 <= c < |log| :: Anc(log, c, tip) && !Anc(log, c, view) && Counts(c)
    }

    predicate Justified(tip: Id, why: Evidence) {
      tip < |log| &&
      match why
      case Parked(h) => Rescue(h, tip) in rescue && rescue[Rescue(h, tip)] == tip
      case NoWork(v) => Viewed(v) && !HasWork(v, tip)
      case Landed(i, m) => Viewed(i) && Viewed(m) && merge(i, tip, m)
    }
  }

  /** What a marker may be minted on and to be pushed over which expected value.
    `read` is the marker its epoch was read from, the tip's own or a nearer one. */
  predicate MintFits(log: Log, bases: seq<Id>, parent: Id, body: Body, expected: Option<Id>, read: Id)
    requires body.Marker?
  {
    match body.kind
    case Claim =>
      if expected.None? then body.epoch == 1 && parent in bases
      else expected.value == parent && IsRelease(log, parent) && body.epoch == log[parent].body.epoch + 1
    case Takeover =>
      expected == Some(parent) && Nearest(log, parent, read) && body.epoch == log[read].body.epoch + 1
    case _ =>
      expected.Some? && Anc(log, expected.value, parent) && Nearest(log, expected.value, read) &&
      body.epoch == log[read].body.epoch
  }

  datatype Label =
    | AddWork(parents: set<Id>, counted: bool)
    | GrowBase(tip: Id)
    | PushWork(tip: Id)
    | Mint(parent: Id, body: Body, expected: Option<Id>, read: Id)
    | Land(marker: Id)
    | Park(ref: Rescue)
    | Forge(ref: Rescue, tip: Id)
    | Delete(tip: Id, why: Evidence)
    | PushLegacy(branch: string, tip: Id)
    | DeleteLegacy(branch: string, tip: Id, why: Evidence)
    | MoveLocal(copy: Copy, to: Option<Id>)
    | SaveToken(lane: Lane, tip: Id)
    | Fetch(clone: nat, tip: Id)

  /** When the label may happen. Raw pushes only fast-forward, base only grows,
    rescue refs are only ever created, and no branch stands at a marker whose
    push has not landed. */
  predicate Enabled(s: State, l: Label) {
    match l
    case AddWork(parents, _) => forall p | p in parents :: s.Fetchable(p)
    case GrowBase(c) => s.Fetchable(c) && |s.bases| > 0 && Anc(s.log, s.bases[|s.bases| - 1], c)
    case PushWork(c) =>
      && s.Fetchable(c) && s.log[c].body.Work?
      && s.Work().Some? && s.Work().value != c && Anc(s.log, s.Work().value, c)
    case Mint(parent, body, expected, read) =>
      // the nonce makes the new commit's name one nobody ever recorded
      && body.Marker? && |s.log| !in s.expects && s.Fetchable(parent)
      && MintFits(s.log, s.bases, parent, body, expected, read)
    case Land(m) => m in s.expects && m !in s.landed && s.Work() == s.expects[m]
    case Park(r) => s.Fetchable(r.tip) && r !in s.rescue
    case Forge(r, c) => s.Fetchable(c) && r !in s.rescue
    case Delete(tip, why) => s.Work() == Some(tip) && s.Justified(tip, why)
    case PushLegacy(b, c) => s.Fetchable(c) && (b in s.legacy ==> Anc(s.log, s.legacy[b], c))
    case DeleteLegacy(b, tip, why) => b in s.legacy && s.legacy[b] == tip && s.Justified(tip, why)
    case MoveLocal(k, to) => to.Some? ==> s.Fetchable(to.value)
    case SaveToken(lane, m) => m in s.landed && IsMarker(s.log, m) && !IsRelease(s.log, m)
    case Fetch(_, c) => s.Fetchable(c)
  }

  function Next(s: State, l: Label): State
    requires Enabled(s, l)
  {
    match l
    case AddWork(parents, counted) => s.(log := s.log + [Commit(parents, Body.Work(counted))])
    case GrowBase(c) => s.(bases := s.bases + [c])
    case PushWork(c) => s.(history := s.history + [Some(c)])
    case Mint(parent, body, expected, read) =>
      s.(log := s.log + [Commit({parent}, body)], expects := s.expects[|s.log| := expected])
    case Land(m) => s.(history := s.history + [Some(m)], landed := s.landed[m := |s.history|])
    case Park(r) => s.(rescue := s.rescue[r := r.tip])
    case Forge(r, c) => s.(rescue := s.rescue[r := c])
    case Delete(tip, why) => s.(history := s.history + [None], deleted := s.deleted + {Deletion(WORK, tip, why)})
    case PushLegacy(b, c) => s.(legacy := s.legacy[b := c])
    case DeleteLegacy(b, tip, why) =>
      s.(legacy := map x | x in s.legacy && x != b :: s.legacy[x], deleted := s.deleted + {Deletion(b, tip, why)})
    case MoveLocal(k, to) =>
      s.(local := if to.Some? then s.local[k := to.value] else (map x | x in s.local && x != k :: s.local[x]),
         reflog := s.reflog + [(k, to)])
    case SaveToken(lane, m) => s.(tokens := s.tokens[lane := m])
    case Fetch(k, c) => s.(heads := s.heads[k := (if k in s.heads then s.heads[k] else []) + [c]])
  }

  /** The label takes s to s'. */
  ghost predicate Did(s: State, l: Label, s': State) {
    Enabled(s, l) && s' == Next(s, l)
  }

  /** The label moves the copies in `fwd` only to a descendant, if at all. */
  predicate Forward(fwd: set<Copy>, s: State, l: Label) {
    l.MoveLocal? && l.copy in fwd ==>
      l.to.Some? && (l.copy in s.local ==> Anc(s.log, s.local[l.copy], l.to.value))
  }

  ghost predicate Run(fwd: set<Copy>, s: State, labels: seq<Label>, s': State)
    decreases |labels|
  {
    if labels == [] then s == s'
    else Enabled(s, labels[0]) && Forward(fwd, s, labels[0]) && Run(fwd, Next(s, labels[0]), labels[1..], s')
  }

  /** Some interleaving leads from s to s', moving the copies in `fwd` forward only. */
  ghost predicate Reach(fwd: set<Copy>, s: State, s': State) {
    exists labels :: Run(fwd, s, labels, s')
  }

  /** A fresh plan: one base commit, no work ref. */
  ghost predicate Init(s: State) {
    && |s.log| == 1 && s.log[0].parents == {} && s.log[0].body.Work? && s.bases == [0] && s.history == [None]
    && s.expects == map[] && s.landed == map[] && s.rescue == map[] && s.legacy == map[] && s.local == map[]
    && s.reflog == [] && s.tokens == map[] && s.heads == map[] && s.deleted == {}
  }

  lemma ReachSelf(fwd: set<Copy>, s: State)
    ensures Reach(fwd, s, s)
  {
    assert Run(fwd, s, [], s);
  }

  lemma {:induction false} RunConcat(fwd: set<Copy>, a: State, xs: seq<Label>, b: State, ys: seq<Label>, c: State)
    requires Run(fwd, a, xs, b) && Run(fwd, b, ys, c)
    ensures Run(fwd, a, xs + ys, c)
    decreases |xs|
  {
    if xs == [] {
      assert xs + ys == ys;
    } else {
      RunConcat(fwd, Next(a, xs[0]), xs[1..], b, ys, c);
      assert (xs + ys)[1..] == xs[1..] + ys;
    }
  }

  lemma ReachTrans(fwd: set<Copy>, a: State, b: State, c: State)
    requires Reach(fwd, a, b) && Reach(fwd, b, c)
    ensures Reach(fwd, a, c)
  {
    var xs :| Run(fwd, a, xs, b);
    var ys :| Run(fwd, b, ys, c);
    RunConcat(fwd, a, xs, b, ys, c);
  }

  lemma ReachStep(fwd: set<Copy>, s: State, l: Label)
    requires Enabled(s, l) && Forward(fwd, s, l)
    ensures Reach(fwd, s, Next(s, l))
  {
    assert Run(fwd, Next(s, l), [l][1..], Next(s, l));
    assert Run(fwd, s, [l], Next(s, l));
  }

  /** What no interleaving undoes: commits, recorded values, rescues, reflogs
    and deletions are only ever added to. */
  ghost predicate Grows(s: State, s': State) {
    && s.log <= s'.log && s.bases <= s'.bases && s.history <= s'.history && s.reflog <= s'.reflog
    && (forall m :: m in s.expects ==> m in s'.expects && s'.expects[m] == s.expects[m])
    && (forall m :: m in s.landed ==> m in s'.landed && s'.landed[m] == s.landed[m])
    && (forall r :: r in s.rescue ==> r in s'.rescue && s'.rescue[r] == s.rescue[r])
    && (forall k :: k in s.heads ==> k in s'.heads && s.heads[k] <= s'.heads[k])
    && s.deleted <= s'.deleted && s.merge == s'.merge
  }

  lemma GrowsSelf(s: State)
    ensures Grows(s, s)
  {
  }

  lemma GrowsTrans(a: State, b: State, c: State)
    requires Grows(a, b) && Grows(b, c)
    ensures Grows(a, c)
  {
  }

  lemma StepGrows(s: State, l: Label)
    requires Enabled(s, l)
    ensures Grows(s, Next(s, l))
  {
    hide Anc;
    hide MintFits;
  }

  lemma {:induction false} RunGrows(fwd: set<Copy>, s: State, labels: seq<Label>, s': State)
    requires Run(fwd, s, labels, s')
    ensures Grows(s, s')
    decreases |labels|
  {
    hide Enabled;
    hide Next;
    if labels != [] {
      StepGrows(s, labels[0]);
      RunGrows(fwd, Next(s, labels[0]), labels[1..], s');
      GrowsTrans(s, Next(s, labels[0]), s');
    }
  }

  lemma ReachGrows(fwd: set<Copy>, s: State, s': State)
    requires Reach(fwd, s, s')
    ensures Grows(s, s')
  {
    var labels :| Run(fwd, s, labels, s');
    RunGrows(fwd, s, labels, s');
  }
}
