/** The commit graph behind a work ref.

  Commits are immutable and named by the order in which they were written, so
  a parent is always older than its child and a fresh marker (a fresh nonce)
  is always a fresh name. A commit is work, or one of frit's lease markers; and
  the scan for work counts a work commit unless its subject is empty or word for
  word one of frit's own. */
module Commits {
  type Id = nat

  datatype Kind = Claim | Beat | Release | Takeover
  datatype Body = Work(counted: bool) | Marker(kind: Kind, epoch: nat, holder: string, lane: string)
  datatype Commit = Commit(parents: set<Id>, body: Body)

  type Log = seq<Commit>

  /** `git merge-base --is-ancestor a b`: a is b, or is reached from b. */
  predicate Anc(log: Log, a: Id, b: Id): (yes: bool)
    ensures yes ==> a <= b < |log|
    decreases b
  {
    b < |log| && (a == b || exists p | p in log[b].parents :: p < b && Anc(log, a, p))
  }

  predicate IsMarker(log: Log, x: Id) {
    x < |log| && log[x].body.Marker?
  }

  /** A terminal marker starts or ends an acquisition; a beat only renews one. */
  predicate IsTerminal(log: Log, x: Id) {
    IsMarker(log, x) && !log[x].body.kind.Beat?
  }

  predicate IsAcquisition(log: Log, x: Id) {
    IsMarker(log, x) && (log[x].body.kind.Claim? || log[x].body.kind.Takeover?)
  }

  predicate IsRelease(log: Log, x: Id) {
    IsMarker(log, x) && log[x].body.kind.Release?
  }

  /** `x` may be listed first by `git log tip` among the markers: git lists
    descendants before ancestors, so nothing reachable from tip sits above x. */
  predicate Nearest(log: Log, tip: Id, x: Id) {
    && IsMarker(log, x) && Anc(log, x, tip)
    && forall y: Id | 0 <= y < |log| :: IsMarker(log, y) && Anc(log, y, tip) && Anc(log, x, y) ==> y == x
  }

  /** The same, among claims, takeovers and releases only. */
  predicate NearestTerminal(log: Log, tip: Id, x: Id) {
    && IsTerminal(log, x) && Anc(log, x, tip)
    && forall y: Id | 0 <= y < |log| :: IsTerminal(log, y) && Anc(log, y, tip) && Anc(log, x, y) ==> y == x
  }

  /** Every parent is older than its child. */
  ghost predicate WellFormed(log: Log) {
    forall i, p | 0 <= i < |log| && p in log[i].parents :: p < i
  }

  lemma AncTrans(log: Log, a: Id, b: Id, c: Id)
    requires Anc(log, a, b) && Anc(log, b, c)
    ensures Anc(log, a, c)
    decreases c
  {
    if b != c {
      var p :| p in log[c].parents && p < c && Anc(log, b, p);
      AncTrans(log, a, b, p);
    }
  }

  lemma AncParent(log: Log, p: Id, c: Id)
    requires c < |log| && p in log[c].parents && p < c
    ensures Anc(log, p, c)
  {
  }

  /** Writing more commits changes no ancestry among the old ones. */
  lemma {:induction false} AncStable(log: Log, more: Log, a: Id, b: Id)
    requires log <= more && b < |log|
    ensures Anc(log, a, b) == Anc(more, a, b)
    decreases b
  {
    assert more[b] == log[b];
    forall p | p in log[b].parents && p < b
      ensures Anc(log, a, p) == Anc(more, a, p)
    {
      AncStable(log, more, a, p);
    }
  }

  lemma AncAllStable(log: Log, more: Log)
    requires log <= more
    ensures forall a: Id, b: Id :: b < |log| ==> (Anc(more, a, b) == Anc(log, a, b))
  {
    forall a: Id, b: Id | b < |log| ensures Anc(more, a, b) == Anc(log, a, b) {
      AncStable(log, more, a, b);
    }
  }

  lemma NearestStable(log: Log, more: Log, tip: Id, x: Id)
    requires log <= more && tip < |log|
    ensures Nearest(log, tip, x) == Nearest(more, tip, x)
  {
    AncAllStable(log, more);
  }
}
