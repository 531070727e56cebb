/** The proof a lane's token gives: OwnAdvance, and when it is exact. */
module Tokens {
  import opened Wrappers
  import opened Commits
  import opened Machine
  import opened Invariants
  import opened History
  import opened Lock
  import opened Epochs

  /** What OwnAdvance answers when git lists the marker x first at the tip: yes if the token is below the tip,
    and x is no release and carries the token's epoch and holder. */
  predicate Answers(log: Log, token: Id, tip: Id, x: Id) {
    && Anc(log, token, tip) && IsMarker(log, token) && IsMarker(log, x) && !IsRelease(log, x)
    && log[x].body.epoch == log[token].body.epoch && log[x].body.holder == log[token].body.holder
  }

  /** It may answer yes. */
  ghost predicate OwnAdvance(log: Log, token: Id, tip: Id) {
    exists x: Id :: Nearest(log, tip, x) && Answers(log, token, tip, x)
  }

  /** It answers alike in whatever order git lists commits. */
  ghost predicate OneAnswer(log: Log, token: Id, tip: Id) {
    forall x: Id, y: Id | Nearest(log, tip, x) && Nearest(log, tip, y) ::
      Answers(log, token, tip, x) <==> Answers(log, token, tip, y)
  }

  ghost predicate TokenProves(log: Log, token: Id, tip: Id) {
    token == tip || OwnAdvance(log, token, tip)
  }

  /** A place between i and j where a claim, takeover or release landed. */
  ghost predicate TerminalBetween(s: State, i: nat, j: nat)
    requires j < |s.history|
  {
    exists k: nat :: i < k <= j && s.history[k].Some? && IsTerminal(s.log, s.history[k].value)
  }

  /** One of the answers git may give is the governing marker's, so it answers as that does, in whatever order
    it lists commits, exactly when it answers alike in all of them. At a tip whose governing marker is the only
    one it can list first it always does. */
  lemma OwnAdvanceReads(s: State, token: Id, j: nat)
    requires Inv(s) && j < |s.history| && s.history[j].Some?
    ensures GovAt(s.log, s.history, j).Some?
    ensures var t, g := s.history[j].value, GovAt(s.log, s.history, j).value;
      && IsMarker(s.log, g)
      && ((forall x: Id | Nearest(s.log, t, x) :: Answers(s.log, token, t, x) <==> Answers(s.log, token, t, g))
          <==> OneAnswer(s.log, token, t))
    ensures Determined(s, j) ==> OneAnswer(s.log, token, s.history[j].value)
  {
    GovIsNearest(s, j);
    GovPlace(s, j);
    hide Inv;
    hide Answers;
    hide GovAt;
    var t, g := s.history[j].value, GovAt(s.log, s.history, j).value;
    assert Nearest(s.log, t, g);
    hide Nearest;
  }

  /** The governing marker's answer in terms of what landed after the token, within its life of the ref. */
  lemma GoverningAnswers(s: State, i: nat, j: nat)
    requires i <= j && OneLife(s, i, j)
    requires IsMarker(s.log, s.history[i].value)
    requires Inv(s) && EpochsRead(s, j)
    ensures var g := GovAt(s.log, s.history, j);
      && g.Some? && IsMarker(s.log, g.value)
      && (Answers(s.log, s.history[i].value, s.history[j].value, g.value) <==>
            && (forall k | i < k <= j :: !IsAcquisition(s.log, s.history[k].value))
            && !IsRelease(s.log, g.value)
            && s.log[g.value].body.holder == s.log[s.history[i].value].body.holder)
  {
    hide Inv;
    hide Anc;
    hide EpochsRead;
    assert s.history[j].Some? && s.history[i].Some?;
    AppendOnly(s, i, j);
    SameEpochSameAcquisition(s, i, j);
    assert GovAt(s.log, s.history, i) == s.history[i];
  }

  /** So for any landed marker as token it answers, in whatever order git lists commits, whether no acquisition
    landed since and the governing marker is its holder's and no release, exactly when it answers alike in
    all of them. */
  lemma OwnAdvanceMeans(s: State, i: nat, j: nat)
    requires i <= j && OneLife(s, i, j)
    requires IsMarker(s.log, s.history[i].value)
    requires Inv(s) && EpochsRead(s, j)
    ensures var g := GovAt(s.log, s.history, j);
      && g.Some? && IsMarker(s.log, g.value)
      && ((forall x: Id | Nearest(s.log, s.history[j].value, x) ::
             Answers(s.log, s.history[i].value, s.history[j].value, x) <==>
               && (forall k | i < k <= j :: !IsAcquisition(s.log, s.history[k].value))
               && !IsRelease(s.log, g.value)
               && s.log[g.value].body.holder == s.log[s.history[i].value].body.holder)
          <==> OneAnswer(s.log, s.history[i].value, s.history[j].value))
  {
    hide Inv;
    hide Anc;
    hide Nearest;
    hide EpochsRead;
    hide Determined;
    hide OneAnswer;
    hide Answers;
    hide GovAt;
    assert s.history[j].Some? && s.history[i].Some?;
    GoverningAnswers(s, i, j);
    OwnAdvanceReads(s, s.history[i].value, j);
  }

  /** Renewals between i and j keep the holder of the lease they renew, and none
    renews a lease already released. */
  ghost predicate PlainRenewals(s: State, i: nat, j: nat)
    requires j < |s.history|
  {
    forall k: nat | i < k <= j && s.history[k].Some? && IsMarker(s.log, s.history[k].value)
        && s.log[s.history[k].value].body.kind.Beat? ::
      var g := GovAt(s.log, s.history, k - 1);
      g.Some? && IsMarker(s.log, g.value) && !IsRelease(s.log, g.value)
      && s.log[s.history[k].value].body.holder == s.log[g.value].body.holder
  }

  /** After a release only an acquisition ends the released state, */
  lemma {:induction false} ReleasedStays(s: State, k: nat, j: nat)
    requires k <= j && OneLife(s, k, j) && PlainRenewals(s, k, j)
    requires IsRelease(s.log, s.history[k].value)
    requires forall n | k < n <= j :: !IsAcquisition(s.log, s.history[n].value)
    ensures var g := GovAt(s.log, s.history, j); g.Some? && IsRelease(s.log, g.value)
    decreases j
  {
    if k < j {
      assert PlainRenewals(s, k, j - 1);
      ReleasedStays(s, k, j - 1);
    }
  }

  /** and renewals alone keep the holder. */
  lemma {:induction false} HolderStays(s: State, i: nat, j: nat)
    requires i <= j && OneLife(s, i, j) && PlainRenewals(s, i, j)
    requires IsMarker(s.log, s.history[i].value) && !IsRelease(s.log, s.history[i].value)
    requires forall n | i < n <= j :: !IsTerminal(s.log, s.history[n].value)
    ensures var g := GovAt(s.log, s.history, j);
      g.Some? && IsMarker(s.log, g.value) && !IsRelease(s.log, g.value)
      && s.log[g.value].body.holder == s.log[s.history[i].value].body.holder
    decreases j
  {
    if i < j {
      assert PlainRenewals(s, i, j - 1);
      HolderStays(s, i, j - 1);
    }
  }

  /** Under plain renewals the governing marker of a life answers whether the lease was neither ended nor taken
    since the token landed. */
  lemma GoverningIsExact(s: State, i: nat, j: nat)
    requires i <= j && OneLife(s, i, j) && PlainRenewals(s, i, j)
    requires IsMarker(s.log, s.history[i].value) && !IsRelease(s.log, s.history[i].value)
    requires Inv(s) && EpochsRead(s, j)
    ensures GovAt(s.log, s.history, j).Some?
    ensures Answers(s.log, s.history[i].value, s.history[j].value, GovAt(s.log, s.history, j).value)
      <==> !TerminalBetween(s, i, j)
  {
    hide Inv;
    hide EpochsRead;
    hide Answers;
    hide Anc;
    GoverningAnswers(s, i, j);
    if !TerminalBetween(s, i, j) {
      forall n | i < n <= j ensures !IsTerminal(s.log, s.history[n].value) {
        assert s.history[n].Some?;
      }
      HolderStays(s, i, j);
    } else {
      var k: nat :| i < k <= j && s.history[k].Some? && IsTerminal(s.log, s.history[k].value);
      if (forall n | i < n <= j :: !IsAcquisition(s.log, s.history[n].value)) && IsRelease(s.log, s.history[k].value) {
        assert PlainRenewals(s, k, j);
        ReleasedStays(s, k, j);
      }
    }
  }

  /** OwnAdvance is exact within a life of the ref: for a token that is a claim, beat or takeover, it answers
    in whatever order git lists commits whether no claim, takeover or release landed since, exactly when the
    markers git may list first at the tip all give one answer. */
  lemma OwnAdvanceIsExact(s: State, i: nat, j: nat)
    requires i <= j && OneLife(s, i, j) && PlainRenewals(s, i, j)
    requires IsMarker(s.log, s.history[i].value) && !IsRelease(s.log, s.history[i].value)
    requires Inv(s) && EpochsRead(s, j)
    ensures (forall x: Id | Nearest(s.log, s.history[j].value, x) ::
               Answers(s.log, s.history[i].value, s.history[j].value, x) <==> !TerminalBetween(s, i, j))
      <==> OneAnswer(s.log, s.history[i].value, s.history[j].value)
  {
    hide Inv;
    hide EpochsRead;
    hide Determined;
    hide OneAnswer;
    hide Answers;
    hide Nearest;
    hide GovAt;
    hide TerminalBetween;
    hide PlainRenewals;
    assert s.history[j].Some? && s.history[i].Some?;
    GoverningIsExact(s, i, j);
    OwnAdvanceReads(s, s.history[i].value, j);
  }

  /** In a life no lane merged another life's markers into there is one answer, and it is that one. */
  lemma OwnAdvanceWithoutStrays(s: State, i: nat, j: nat)
    requires i <= j && OneLife(s, i, j) && PlainRenewals(s, i, j)
    requires IsMarker(s.log, s.history[i].value) && !IsRelease(s.log, s.history[i].value)
    requires Inv(s) && s.history[0] == None && forall n: nat | LifeStart(s.history, j) < n <= j :: NoStray(s, n)
    ensures OwnAdvance(s.log, s.history[i].value, s.history[j].value) <==> !TerminalBetween(s, i, j)
  {
    hide NoStray;
    hide PlainRenewals;
    hide TerminalBetween;
    assert s.history[j].Some?;
    assert LifeStart(s.history, j) < j;
    NoStrayReadsEpochs(s, j);
    NoStrayIsDetermined(s, j);
    OwnAdvanceReads(s, s.history[i].value, j);
    OwnAdvanceIsExact(s, i, j);
    GovIsNearest(s, j);
    hide Inv;
    hide EpochsRead;
    hide Determined;
    hide Nearest;
    hide Answers;
    hide GovAt;
  }

  /** A token left over from an earlier life of the ref proves the lease at place j: the claim this life
    began with was built above it, this life is at the token's epoch, and the lease is its holder's. */
  ghost predicate StaleProof(s: State, token: Id, j: nat)
    requires j < |s.history|
  {
    var g := GovAt(s.log, s.history, j);
    && s.history[j].Some? && g.Some? && IsMarker(s.log, g.value) && IsMarker(s.log, token)
    && Anc(s.log, token, s.history[j].value) && !IsRelease(s.log, g.value)
    && Acquisitions(s.log, s.history, j) == s.log[token].body.epoch
    && s.log[g.value].body.holder == s.log[token].body.holder
  }

  /** A saved token's place in the history. */
  lemma SavedPlace(s: State, lane: Lane)
    requires Inv(s) && lane in s.tokens
    ensures var token := s.tokens[lane];
      && token in s.landed && s.landed[token] < |s.history| && s.history[s.landed[token]] == Some(token)
      && IsMarker(s.log, token) && !IsRelease(s.log, token)
  {
    hide Anc;
    hide Grounded;
    hide Minting;
  }

  /** What the token proof answers when git lists x first. */
  predicate Proves(log: Log, token: Id, tip: Id, x: Id) {
    token == tip || Answers(log, token, tip, x)
  }

  /** When a lane's saved token proves the lease at a tip of the ref. In the token's own life of the ref it
    should exactly when the lease was neither ended nor taken since; in a later life it does exactly when that
    life was built above it and is at its epoch and its holder's, whichever lane it is. It says so in whatever
    order git lists commits exactly when the markers git may list first there all give one answer. */
  lemma TokenProvesTheLease(s: State, lane: Lane, j: nat)
    requires Inv(s) && lane in s.tokens && j < |s.history| && s.history[j].Some?
    requires s.tokens[lane] in s.landed && s.landed[s.tokens[lane]] <= j
    requires EpochsRead(s, j)
    requires OneLife(s, s.landed[s.tokens[lane]], j) ==> PlainRenewals(s, s.landed[s.tokens[lane]], j)
    ensures var t, token := s.history[j].value, s.tokens[lane];
      (forall x: Id | Nearest(s.log, t, x) :: Proves(s.log, token, t, x) <==> LeaseProved(s, token, j))
      <==> (forall x: Id, y: Id | Nearest(s.log, t, x) && Nearest(s.log, t, y) ::
              Proves(s.log, token, t, x) <==> Proves(s.log, token, t, y))
  {
    GovIsNearest(s, j);
    GoverningProves(s, lane, j);
    hide Inv;
    hide EpochsRead;
    hide PlainRenewals;
    hide Proves;
    hide LeaseProved;
    hide GovAt;
    var t, g := s.history[j].value, GovAt(s.log, s.history, j).value;
    assert Nearest(s.log, t, g);
    hide Nearest;
  }

  ghost predicate LeaseProved(s: State, token: Id, j: nat)
    requires token in s.landed && j < |s.history|
  {
    var i := s.landed[token];
    if i <= j && OneLife(s, i, j) then !TerminalBetween(s, i, j) else StaleProof(s, token, j)
  }

  /** The governing marker's answer is the one meant. */
  lemma GoverningProves(s: State, lane: Lane, j: nat)
    requires Inv(s) && lane in s.tokens && j < |s.history| && s.history[j].Some?
    requires s.tokens[lane] in s.landed && s.landed[s.tokens[lane]] <= j
    requires EpochsRead(s, j)
    requires OneLife(s, s.landed[s.tokens[lane]], j) ==> PlainRenewals(s, s.landed[s.tokens[lane]], j)
    ensures GovAt(s.log, s.history, j).Some?
    ensures Proves(s.log, s.tokens[lane], s.history[j].value, GovAt(s.log, s.history, j).value)
      <==> LeaseProved(s, s.tokens[lane], j)
  {
    hide Inv;
    hide EpochsRead;
    hide Answers;
    hide Anc;
    hide PlainRenewals;
    hide TerminalBetween;
    hide StaleProof;
    SavedPlace(s, lane);
    GovPlace(s, j);
    hide GovAt;
    var token := s.tokens[lane];
    var i := s.landed[token];
    if token == s.history[j].value {
      if i < j { NoValueReturns(s, i, j); }
      SelfLife(s, j);
      NothingSince(s, j);
    } else if OneLife(s, i, j) {
      GoverningIsExact(s, i, j);
    } else {
      StaleAnswer(s, token, j);
    }
  }

  lemma NothingSince(s: State, j: nat)
    requires j < |s.history|
    ensures !TerminalBetween(s, j, j)
  {
  }

  lemma SelfLife(s: State, j: nat)
    requires j < |s.history| && s.history[j].Some?
    ensures OneLife(s, j, j)
  {
  }

  /** In another life the governing marker's epoch is the count of that life's acquisitions. */
  lemma StaleAnswer(s: State, token: Id, j: nat)
    requires Inv(s) && j < |s.history| && s.history[j].Some? && EpochsRead(s, j)
    ensures GovAt(s.log, s.history, j).Some?
    ensures Answers(s.log, token, s.history[j].value, GovAt(s.log, s.history, j).value) <==> StaleProof(s, token, j)
  {
    hide Inv;
    hide EpochsRead;
    hide Anc;
    EpochCountsAcquisitions(s, j);
  }

  /** And a life whose tip no lane merged another life's markers into was built above the token exactly when
    its first claim was minted on a base that contains it. */
  lemma StaleTokenIsBelowTheBase(s: State, token: Id, c: nat, j: nat)
    requires 1 <= c <= j && OneLife(s, c, j) && s.history[c-1] == None
    requires Inv(s) && NoStray(s, j)
    requires token in s.landed && s.landed[token] < c && IsMarker(s.log, token)
    ensures s.history[c].value < |s.log|
    ensures Anc(s.log, token, s.history[j].value) <==>
      exists base: Id :: base in s.log[s.history[c].value].parents && Anc(s.log, token, base)
  {
    hide Inv;
    var claim := s.history[c].value;
    LifeOf(s, c, j);
    ClaimOpens(s, token, c);
    AppendOnly(s, c, j);
    if Anc(s.log, token, s.history[j].value) {
      assert Anc(s.log, token, claim);
      var p :| p in s.log[claim].parents && p < claim && Anc(s.log, token, p);
    }
    hide Anc;
    forall base: Id | base in s.log[claim].parents && Anc(s.log, token, base)
      ensures Anc(s.log, token, s.history[j].value)
    {
      AncParent(s.log, base, claim);
      AncTrans(s.log, token, base, claim);
      AncTrans(s.log, token, claim, s.history[j].value);
    }
  }

  lemma LifeOf(s: State, c: nat, j: nat)
    requires 1 <= c <= j && OneLife(s, c, j) && s.history[c-1] == None && Inv(s)
    ensures s.history[0] == None && LifeStart(s.history, j) == c - 1
  {
    BornAbsent(s);
    SameLife(s.history, c, j);
    assert LifeStart(s.history, c) == LifeStart(s.history, c - 1) == c - 1;
  }

  lemma ClaimOpens(s: State, token: Id, c: nat)
    requires 1 <= c < |s.history| && s.history[c].Some? && s.history[c-1] == None && Inv(s)
    requires token in s.landed && s.landed[token] < c
    ensures s.history[c].value < |s.log| && s.history[c].value != token
    ensures forall p | p in s.log[s.history[c].value].parents :: p < s.history[c].value
  {
    hide Inv;
    LifeStartsClaimed(s, c - 1);
    Parented(s, s.history[c].value);
  }

  lemma Parented(s: State, c: Id)
    requires Inv(s) && c < |s.log|
    ensures forall p | p in s.log[c].parents :: p < c
  {
    hide Anc;
    hide RefsOk;
    hide Minting;
    hide HistoryOk;
  }
}
