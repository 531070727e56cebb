# The lease protocol, verified

frit lets many machines work on one repository's plans without a server of its own. A plan's hold is one
branch on the shared remote, the work ref; the commit that branch stands at is the lease's token; and every
change of hands is one push that succeeds only if the branch is still where the pusher last saw it. This
project is a Dafny model of that protocol and of the code that decides when to use it, with proofs of what it
keeps over every run.

`dafny verify dfyconfig.toml` checks everything.

## What is modelled

**The shared state** (`Commits`, `Machine`, `Invariants`). A plan's world is a commit graph with work commits,
which say whether the scan for work counts them, and four kinds of marker (claim, beat, release, takeover); the
whole history of origin's base branch and work ref, its rescue refs and decorated branches, and every deletion with
its evidence; every clone's local copies, reflog and FETCH_HEAD; and every lane's token file.
One label is one atomic change; a run is any interleaving of labels by anybody. A crash is a run that stops
early. A push the client gave up on is a `Land` that comes late or never, so a marker may land at any time
after it was minted, whatever its pusher was told.

**Theorems about runs** (`History`, `Preservation`, `Losses`, `Lock`, `Epochs`, `Tokens`, `Strays`, `Damping`). These
quantify over every reachable state: append-only history and no ABA, which pushed work is kept, refinement of an
abstract lock, epochs that count acquisitions, what a token proves, and quadratic damping of takeovers. Those that
rest on reading a marker say at which tips the read has to be determined, and `Lock.DeterminedIff` says when it is.

**The transitions** (`World`, `Pushes`, `Leases`, `Fencing`, `Acquiring`, `Scavenging`, `Decorated`,
`Claiming`). `World` is the shared state as an object whose methods are the git commands the transitions run.
Before a command that reaches origin or reads a local ref takes effect, `Interfere` lets everybody else do
anything the machine enables; every command may fail, with or without effect. The transitions are methods
over it, branch for branch. Each keeps `World.Valid`, which says that the state is reached by a run, so every
theorem about runs holds of every state a transition leaves, however its pushes and reads failed. `World.own` is the
log of what the commands of a call did themselves, apart from everybody else's changes, each with the state it met, and
of what each command answered, in order. A transition's `Footprint` is a bound on what it changes or tries to, whoever
else is at work; what it says it read is in its log; and so is the reason for every outcome short of the one it is for,
so that a transition that gives up, or leaves out a step, needs an answer that made it (`Leases.Told`,
`Acquiring.AcquireTold`, `Scavenging.Told`, `Decorated.DecoratedDone`, `Claiming.VetoSettled`, `Claiming.ResumeDone`).

**When a takeover may be tried** (`Windows`, `Watching`, `Maturing`). The observer's window, the watch string, the
pass over all plans, what the store holds after any sequence of passes and resets, and the way from a plan marked stale
to a takeover that waited.

**Choosing a lane, walking dependencies, reading text** (`Lanes`, `Deps`, `Strings`, `Numbers`, `MarkerText`).

## What the proofs take for granted

- The server's compare-and-swap is atomic, base only grows, and a rescue ref is only ever created.
- `git log` lists descendants before ancestors and otherwise in any order: `LatestMarker` returns any marker
  nothing reachable sits above, or none.
- What is proved of `latestMarker` takes for granted that no work commit's message parses as a marker, nonce and all;
  what is proved of Held, which greps whole messages and looks at the first that matches only, that no line of a work
  commit's message below the tip matches a marker's pattern; and what is proved of Released and TakeoverCount that no
  such commit has a marker's subject. What is proved of deletes takes none of it for granted: a work commit's subject
  may there be empty or word for word a marker's.
- The nonce makes a marker's name one nobody used.
- Each marker is pushed at most once with effect: a call pushes the marker it minted and no other, and never again once
  it landed. That no value returns in a later life of the ref rests on this.
- A push of ordinary work only fast-forwards an existing work ref, and no branch but the work ref itself
  stands at a marker whose push has not landed.
- `Rely` says what else a result counts on, and is part of its statement. A copy in `forward` is moved by
  everybody only to a descendant (a lane that commits, never resets); in a `quiet` clone nobody else fetches; `alone`
  means no other mover, and this call's reads of its own clone and fetches work, which is what crash-safety is
  stated under. Acquire, Takeover, Scavenge and Yield move or drop this clone's own copy without comparing it, so they
  ask that it is not one of the `forward` copies.
- Whether merging one commit into another gives the tree of a third is an uninterpreted relation.
- A clone has a remote-tracking copy of base, at some value base had. Without one the code falls back to a local branch
  or HEAD (internal/gitobj/git.go:39-62), whose values base may never have had.
- Times are whole seconds. Damping reads the observers' clocks on the clock that stamps the landings, and
  that clock does not step back; the window results that do not need this say so.
- Hosts contain no zero byte, and one pane is listed in one lane.
- An observer's reads are true: what a pass or a reset put down as a commit of the work ref was on the ref by then.

## Where the code and its promises part

- **A delete can lose pushed work, in two ways.** `freshBase` answers with the name FETCH_HEAD, and each git command
  after it looks that up anew. Another fetch in the same clone in between, by an acquire, a refusal naming its winner
  or a person, and the chain is judged on something else than base (`Losses.OverwrittenViewLosesWork`). And the scan
  passes over a commit whose subject is empty or word for word a marker's, though it is none
  (`Losses.UncountedWorkIsLost`, `MarkerText.BareTitleIsNoMarker`). Nothing else is ever lost
  (`Preservation.NoPushedWorkIsLost`), and `Preservation.DeleteLosesIff` says which deletes lose. With no other
  fetch in its clone, every delete a transition makes is judged on base, and keeps all work the scan counts
  (`Scavenging.DeletesWereSafe`).
- **A lost race may be neither.** A push is reported lost whenever the ref holds anything but our marker. It
  may still hold the expected tip (`Strays.LostYetUnmoved`), and our marker may have landed and been built
  upon (`Strays.LostYetLanded`). As long as the ref was not deleted meanwhile, it landed exactly when it is an
  ancestor of the tip the refusal names (`Pushes.LostMeansNeverLandedIff`).
- **The governing marker can be misread.** A lane that claimed on an old base and merges a newer one, where an
  earlier life of the ref landed with its markers, gives git two markers to choose from
  (`Strays.MergedStrayMisleads`), and the next takeover can then carry an epoch that counts nothing
  (`Strays.MisreadEpochIsWrong`). The read is right, in whatever order git lists commits, exactly when git can list only
  one marker first (`Lock.DeterminedIff`), and the epoch stays right after every marker anybody can mint over a tip
  exactly when all the markers git may list first there carry one epoch (`Epochs.EpochStaysRightIff`). The epoch and
  lock theorems ask for that at the tips replaced in one life of the ref, and for nothing about any other life; a tip
  into which no lane merged another life's markers always has it (`Lock.NoStrayIsDetermined`,
  `Epochs.EpochCountsWithoutStrays`).
- **Held can be misread the same way**: an earlier life's release listed first makes a held plan read as free
  (`Strays.HeldReadsFree`). It is right in every order exactly when the terminal markers git may list first are all
  acquisitions or none is (`Epochs.HeldIsRightIff`).
- **A bind can seize another's lease, and a token prove one that was taken, at a tip git can read both ways.** A fenced
  lane that reads its own marker of a dead line there renews over the lease that governs
  (`Strays.ReconcileSeizesALease`); it can exactly when the markers git may list first disagree on naming it
  (`Fencing.BindSeizesIff`). A holder's marker of a dead line, merged in by the lane that took over, lets the token
  from before the takeover prove the tip (`Strays.TokenMissesATakeover`); the proof means what it should in every order
  exactly when those markers all give one answer (`Tokens.OwnAdvanceIsExact`, `Tokens.TokenProvesTheLease`). And a beat
  minted on a misread epoch disowns its own lane's token (`Strays.MisreadBeatDisownsItsToken`), which is why those
  results ask that the epoch was read right at the tips replaced.
- **A token outlives its lease.** Nothing ties a saved token to one life of the ref. When a life lands, and a later one
  is claimed on a base that contains it, the old token proves the new lease if the epochs and the holder agree, even
  when the new lease is another lane's (`Strays.StaleTokenProvesAnothersLease`). `Tokens.TokenProvesTheLease` is exact
  for tokens of any life, and `Tokens.StaleTokenIsBelowTheBase` says when a later life was built above one.
- **RenewToBind can renew its own release.** It compares holder and lane, not the marker's kind. The lock is
  then free but Acquire refuses it, and the released token still proves ownership
  (`Strays.RenewalOverOwnRelease`). `Tokens.OwnAdvanceMeans` says what the token proof means with no such
  assumption; `Tokens.OwnAdvanceIsExact` adds `PlainRenewals` and gets the promised reading.
- **Two checkouts of one repository name share a window.** A pass keeps both plans, so one key takes two looks in a
  pass, and two tips in turn restart it at each look. `Watching` folds a pass plan by plan, so its results say what then
  happens; no result asks for distinct keys.
- **Work pushed over a release is free and cannot be acquired** (`Epochs.AcquireNeedsTheReleaseItself`).
- **A lease minted with no lane is never its own.** Its trailer is "-", which is not the empty lane it is
  compared with (`MarkerText.NoLaneIsNotOwn`).
- **A reset of a decorated hold's window is thrown away** by the next look, since the bare tip it records is
  never the watch string (`Watching.DecoratedResetStartsOver`). It costs a look, never safety.
- The comments speak of at least five samples in a matured window, and the plan of a wait of k windows. The
  code gives six samples (`Windows.MaturedWindowHasSixSamples`) and waits k+1 windows.
- A clock that steps back can hide a long enough run (`Windows.ClockStepDelays`); on one that does not, a hold
  reads stale exactly when it should (`Windows.StaleExactlyWhenSeenUnmoved`).

## Model

| member | source | states |
|---|---|---|
| Invariants.StepInv | internal/claim/lease.go:1126-1205 | every change anybody can make keeps the invariant: the graph is well founded, refs stand only at what landed, each marker was minted for what it expects, and each recorded value of the work ref is a landing, a fast-forward or a lossless delete of the one before |
| Invariants.ReachInv | internal/claim/lease.go:1126-1205 | so the invariant holds in every reachable state |
| History.AppendOnly | internal/claim/lease.go:1290-1322 | within one life of the ref every later value descends from every earlier one |
| History.NoValueReturns | internal/claim/lease.go:1720-1727 | no value of the work ref ever returns once left, not even in a later life of the ref |
| History.StillThereMeansNeverMoved | internal/claim/lease.go:1290-1322 | a CAS on a recorded tip finds it there only if the ref has not moved at all since |
| History.LeftForGood | internal/claim/lease.go:480-511 | a tip the ref has left is never its value again, in any run |
| History.NeverLandsOverLeft | internal/claim/lease.go:1266-1278 | a marker minted over a tip the ref has left never lands, however late its push arrives |
| History.LifeStartsClaimed | internal/claim/lease.go:1163-1205 | a life of the ref begins with a claim at epoch 1 landing on an absent ref |
| Preservation.JustifiedKeeps | internal/claim/lease.go:908-968 | evidence for a delete keeps, without counting on the branch that goes, all the work below the deleted tip but what it overlooked: what it was judged to have on a view that is no value of base, and what the scan does not count |
| Preservation.StepAccounts | internal/claim/lease.go:528-575 | no single change takes a commit off the work ref without putting the deletion, at a tip above it, on the record |
| Preservation.NoPushedWorkIsLost | internal/claim/lease.go:654-672 | over every interleaving, crash and fault, each work commit that ever stood on origin's work ref is still on it, a rescue ref, base, or base's own tree by content, or a delete of the ref above it overlooked it |
| Preservation.CountedWorkOnBaseViewsIsKept | internal/claim/lease.go:654-672 | so in a run whose deletes were judged on values of base, every pushed commit the scan counts is kept |
| Preservation.DeleteLosesIff | internal/claim/lease.go:908-948 | a delete loses work exactly when some work below the tip is on no rescue ref and not on base already, and the scan does not count it, or found it below a view that is no value of base |
| Preservation.RetiredWorkIsKept | internal/claim/decorated.go:120-148 | a decorated branch's delete keeps all its work but what its evidence overlooked |
| Losses.OverwrittenViewLosesWork | internal/claim/claim.go:166-175 | a reachable state where FETCH_HEAD was base and then the plan's own branch, and the delete judged on it lost counted, pushed work |
| Losses.UncountedWorkIsLost | internal/claim/lease.go:940-947 | a reachable state where pushed work under a subject the scan passes over was deleted on base as it stands, and lost |
| Lock.GovIsNearest | internal/claim/lease.go:1595-1616 | the latest marker landed in this life of the ref is one git may list first at its tip |
| Lock.LatestMarkerIsGoverning | internal/claim/lease.go:1595-1616 | whichever marker git lists first at a tip is the latest one landed in this life of the ref, unless a lane merged in another life's markers |
| Lock.NearestTerminalIsLatest | internal/claim/lease.go:1032-1049 | the same for the nearest claim, takeover or release |
| Lock.NoStrayIsDetermined | internal/claim/lease.go:1595-1616 | a tip into which no lane merged another life's markers is read right, by latestMarker and by Held |
| Lock.NoStrayReadsEpochs | internal/claim/lease.go:1595-1616 | in a life no lane merged another life's markers into, the epoch was read right at every tip replaced |
| Lock.EpochReadIff | internal/claim/lease.go:1595-1616 | the epoch read at a tip is the governing one, in whatever order git lists, exactly when all markers it may list first carry one epoch |
| Lock.DeterminedIff | internal/claim/lease.go:1595-1616 | the marker git lists first is the governing one, in whatever order it lists, exactly when it can list one only, which is when every marker the tip reaches is an ancestor of the governing one |
| Lock.TermDeterminedIff | internal/claim/lease.go:1032-1049 | the same for the nearest claim, takeover or release |
| Epochs.EpochCountsAcquisitions | internal/claim/lease.go:364-380 | the epoch governing the tip is the number of claims and takeovers landed in this life of the ref, as long as the epoch was read right at the tips this life replaced |
| Epochs.EpochCountsWithoutStrays | internal/claim/lease.go:364-380 | so it is that number in any life no lane merged another life's markers into |
| Epochs.EpochStaysRightIff | internal/claim/lease.go:480-511 | where the epoch is right, it is right after every mint and landing over the tip exactly when all the markers git may list first there carry one epoch |
| Epochs.AcquisitionsDiffer | internal/claim/lease.go:480-511 | two acquisitions of one life never share an epoch |
| Epochs.SameEpochSameAcquisition | internal/claim/lease.go:1541-1557 | within one life two places have one governing epoch exactly when no claim or takeover landed between them |
| Epochs.FoldIsTerminal | internal/claim/lease.go:1071-1078 | the fold of the history is what its latest terminal marker says |
| Epochs.HeldIsTheLock | internal/claim/lease.go:1032-1049 | at a tip whose nearest terminal marker can be read one way only, Held answers yes exactly when the fold of the ref's history is held |
| Epochs.HeldIsRightIff | internal/claim/lease.go:1032-1049 | Held agrees with the fold of the ref's history in whatever order git lists commits exactly when the terminal markers it may list first, which the commit graph alone tells, are all acquisitions or none is |
| Epochs.RefinesTheLock | internal/claim/lease.go:364-380 | every move of the work ref, over tips of its life where the epoch was read right, is a step of the abstract lock: hold what is absent at epoch 1, take or claim one epoch on, release at the same epoch, forget, or stay |
| Epochs.ClaimsOnlyWhatIsFree | internal/claim/lease.go:364-380 | a claim lands only where the lock is absent or free, and on an existing ref only over its release marker |
| Epochs.AcquireNeedsTheReleaseItself | internal/claim/lease.go:374-379 | a release at the tip means the lock is free; a free lock has its release at the tip exactly when nothing was pushed on it since |
| Tokens.OwnAdvanceReads | internal/claim/lease.go:1541-1557 | for a token of any life of the ref: it answers as the governing marker does, in whatever order git lists commits, exactly when the markers git may list first at the tip all give one answer |
| Tokens.OwnAdvanceMeans | internal/claim/lease.go:1541-1557 | within a life whose epochs were read right, for any landed marker as token: it answers in every order whether no acquisition landed since and the governing marker is no release and names the token's holder, exactly when the markers git may list first all give one answer |
| Tokens.OwnAdvanceIsExact | internal/claim/lease.go:1541-1557 | within a life whose epochs were read right, renewals being plain, for a claim, beat or takeover as token: it answers in every order whether no claim, takeover or release landed since, exactly when the markers git may list first all give one answer |
| Tokens.OwnAdvanceWithoutStrays | internal/claim/lease.go:1541-1557 | in a life no lane merged another life's markers into, renewals being plain: yes exactly when no claim, takeover or release landed since |
| Tokens.TokenProvesTheLease | cmd/frit/claim.go:248-256 | in a life whose epochs were read right: whether a lane's saved token proves a tip is, in every order, for a token of that life whether the lease was neither ended nor taken since, for one of an earlier life whether this life was built above it and is at its epoch and its holder's, unreleased, exactly when the markers git may list first all give one answer |
| Tokens.StaleTokenIsBelowTheBase | cmd/frit/claim.go:248-256 | a later life, no stray markers merged in, was built above the token exactly when its first claim was minted on a base that contains it |
| Strays.MergedStrayMisleads | internal/claim/lease.go:1595-1616 | a reachable state where git may list a dead line's marker first, with another epoch than the governing one, while the governing epoch is still right |
| Strays.MisreadEpochIsWrong | internal/claim/lease.go:480-511 | and a run on from it to a takeover at epoch 3 in a life of two acquisitions |
| Strays.HeldReadsFree | internal/claim/lease.go:1032-1049 | a reachable state where a held plan's nearest terminal marker may be read as an earlier life's release |
| Strays.StaleTokenProvesAnothersLease | cmd/frit/claim.go:248-256 | a reachable state where the token one lane saved in an earlier life proves the lease another lane of the same host holds |
| Strays.RenewalOverOwnRelease | internal/claim/lease.go:426-450 | a reachable state after a bind's first beat, over the claim, was fenced by the lane's own release and its second landed on it: the lock is free, Acquire refuses it, the released token still proves |
| Strays.ReconcileSeizesALease | internal/claim/lease.go:426-450 | a reachable run in which a lane that left its tip reads the merge another lane's lease governs by its own old marker, and its reconciling beat lands over that lease |
| Strays.TokenMissesATakeover | internal/claim/lease.go:1541-1557 | a reachable state, within one life whose epochs were read right, where the token a lane saved before another host's takeover may prove the taken lease |
| Strays.MisreadBeatDisownsItsToken | internal/claim/lease.go:1126-1158 | a reachable state where a lane's own beat, minted on a misread epoch, stops its token from proving the lease nobody took |
| Strays.LostYetLanded | internal/claim/lease.go:1308-1321 | a run in which a marker lands and is built upon before its pusher reads the ref |
| Strays.LostYetUnmoved | internal/claim/lease.go:1308-1321 | a reachable state where a marker's push never arrived and the ref is exactly where it expected |
| World.World.Interfere | internal/claim/lease.go:1266-1278 | what everybody else may do before a git command takes effect: any enabled changes within the rely |
| World.World.LsRemote | internal/claim/claim.go:60-75 | reading the work ref answers its value then, or faults, and a fault is told apart from an absent ref |
| World.World.FreshBase | internal/claim/claim.go:166-175 | after a fetch that worked FETCH_HEAD is base as it was then; when none works the tracking copy is the name |
| World.World.Resolve | internal/claim/lease.go:930-948 | each command looks the name up anew: FETCH_HEAD is whatever the clone's last fetch left, and still the base fetched as long as no other fetch ran there |
| World.World.MergesToNothing | internal/claim/lease.go:957-968 | yes means merging the tip into one view gave the tree of the view looked up after it, one and the same as long as no other fetch ran |
| World.World.FetchedMarker | internal/claim/lease.go:1562-1580 | the marker it answers is one git may list first at the tip, and the last thing it read; it answers none only when it found none, fetched, and found none again, or could not fetch; the fetch leaves its mark in FETCH_HEAD |
| World.World.ReadsRelease | internal/claim/lease.go:1618-1630 | a tip is told to be a release only if its own message is one, and with nobody else at work exactly then |
| World.World.MintMarker | internal/claim/lease.go:1209-1230 | a minted marker is a new commit on exactly its parent, pushed nowhere yet |
| World.World.PushMarker | internal/claim/lease.go:1266-1278 | a push that reports success landed over exactly what it expected; a failed one may have landed all the same |
| World.World.UpdateRef | internal/claim/lease.go:1423-1425 | the local copy moves to the marker only when it was met at the tip read before, and a forward copy stays forward |
| World.World.WriteToken | internal/claim/token.go:61-74 | a save that says it worked on a bound lane leaves exactly that tip as the lane's token, and an unbound lane is left alone |
| Pushes.PushThenConfirm | internal/claim/lease.go:1266-1278 | won, lost, unconfirmed and faulted are told apart exactly by the confirming read, which follows a push that failed and no other; won means landed, lost names the other tip the ref holds, faulted a ref confirmed absent, and an unreadable confirmation is none of the others |
| Pushes.Follow | internal/claim/lease.go:1423-1425 | whoever else is at work, all it does is move the local copy to the landed marker, from the tip read before only |
| Pushes.CasPush | internal/claim/lease.go:1290-1322 | the same classification; all it does itself is land the marker and, on a win and only then, have the local copy follow, from the tip read before only; with nobody else at work a win is exactly one move of the ref to our marker and a lost race is no change at all |
| Pushes.LostMeansNeverLandedIff | internal/claim/lease.go:1308-1321 | unless the ref was deleted meanwhile, a marker read as lost had landed exactly when it is an ancestor of the tip read |
| Leases.RelayBase | internal/claim/lease.go:1357-1375 | the local tip it names is the one it read first; the parent a renewal is minted on descends from the tip renewed and from that, and a local tip is refused only when git told that neither is below the other, with nobody else at work exactly when that is so |
| Leases.HolderBase | internal/claim/lease.go:1383-1395 | a beat for another holder is minted on the tip itself and refused only when git told that the local copy read is not below it, with nobody else at work exactly when that is so |
| Leases.Advance | internal/claim/lease.go:1126-1158 | it mints nothing only for a reason it was told (no marker at the tip, a divergence, a mint that failed), which with nobody else at work is so; the one marker it may mint renews or releases exactly the tip it started from, at the epoch read there, and descends from the local tip in its log; whatever it mints it pushes, and its outcome is the one that push and the read that confirms it call for: a win landed over that tip during the call and had the local copy follow, a fence names what the ref held and the marker then read there, a fault a ref confirmed absent; it does nothing else itself but fetch |
| Leases.Renew | internal/claim/lease.go:385-394 | a renewal, and Resume: a beat over exactly the tip given that descends from the local tip read, or nothing, and then for a reason it was told; it wins exactly when its push was told to have landed, and a win had the copy and the token follow; with nobody else at work a win moves the ref to it and changes no other ref |
| Leases.BeatFor | internal/claim/lease.go:401-410 | a beat for another holder pushes no commit but its marker beyond the tip, and ends as it was told |
| Leases.Release | internal/claim/lease.go:468-472 | a release marker over exactly the tip given, at its epoch, descending from the local tip read, or nothing for a reason it was told; it deletes nothing, and ends as its push was told |
| Leases.OwnHold | internal/claim/lease.go:446-450 | it answers yes exactly when a marker was read that names this holder, not empty, and this lane |
| Leases.OwnMarkerIsNamed | internal/claim/lease.go:446-450 | a marker a lane mints can be read as its own hold exactly when its lane is bound and its host has a name |
| Leases.RenewToBind | internal/claim/lease.go:426-439 | its first renewal ends as it was told; fenced by a marker that names this very holder and lane it renews once more from the tip that fenced it, and ends as that was told; short of that it ends there, so that it answers fenced without a second try only when the marker read there names somebody else or there is none. Each marker descends from the local tip read before it, which is in the log, and the local copy moves only from what was read |
| Fencing.ForeignReadAsOwnIff | internal/claim/lease.go:446-450 | where another's marker governs, a lane may read its own at the tip exactly when git may list first both a marker that names it and one that does not |
| Fencing.NoStrayAgrees | internal/claim/lease.go:1595-1616 | at a tip into which no lane merged another life's markers, the markers git may list first agree on naming this lane or not |
| Fencing.FencedHere | internal/claim/lease.go:426-439 | where another's marker governs and the markers git may list first agree on that, no marker minted over a tip the lane has left, or over one whose own marker it read, can land |
| Fencing.BindSeizesIff | internal/claim/lease.go:426-439 | where another's marker governs, a bind's reconcile can be minted over the tip and land exactly when those markers disagree on naming this lane |
| Fencing.FencedForTheWholeRun | internal/claim/lease.go:426-439 | over a whole run, such a marker is the value that ends a foreign stretch only over a tip those markers disagree at, and one minted over a left tip never lands at all |
| Fencing.GrantMeansStillThere | internal/claim/lease.go:385-394 | a renewal, resume or release wins only if the tip it started from was still the ref's when it started |
| Fencing.LeftRenewalNeverLands | internal/claim/lease.go:1126-1158 | what Renew, Resume and Release minted from a left tip lands in no later state |
| Fencing.BindIsFenced | internal/claim/lease.go:426-439 | of what RenewToBind minted from a left tip, the first marker lands in no later state and the reconciling one ends a foreign stretch only over a tip those markers disagree at |
| Fencing.ForeignMeansLeft | internal/claim/lease.go:385-394 | a tip this lane's marker governed has been left once a foreign marker governs the ref |
| Fencing.RenewalsKeepLocalWork | internal/claim/lease.go:1357-1425 | after any transition that keeps the copy forward, the local branch descends from everything it held since the run began, commits made while a push was in flight included |
| Acquiring.LandedIsNotUnlanded | internal/claim/claim.go:149-160 | on one view, landed evidence is evidence a delete loses nothing, and the two differ only for a tip that adds bare markers |
| Acquiring.LandedJustifies | internal/claim/claim.go:149-160 | whatever the name for base stood for as it was looked up, what makes a tip landed would justify a delete at it, and on base if those were values of base |
| Acquiring.LandedTip | internal/claim/claim.go:149-160 | yes means a view base's name stood for has the tip below it, or the tip has work above one whose merge gives the same view's tree; no means git answered that base has it not, and that there is no such work or that the merge changes the tree, or could not read the chain; with no other fetch in the clone the views are values of base, and with nobody else at work it is yes exactly when base as it stands says so |
| Acquiring.HeldError | internal/claim/lease.go:1445-1461 | the refusal names the tip, the marker found there, fetched for if need be, landed or not on the answers read, and our own host exactly when that marker names it; with nobody else at work landed is exactly what base says, and no marker means there is none |
| Acquiring.Takeover | internal/claim/lease.go:480-511 | it mints nothing only when it found no marker at the tip, which with nobody else at work means there is none, or the mint failed; at most one takeover marker, on exactly the observed tip at the next epoch, and what it mints it pushes and ends as that was told: a win landed it there during the call and had the copy and the token follow, a lost race names another tip the ref held meanwhile, and rightly, a fault a ref confirmed absent |
| Acquiring.PushClaim | internal/claim/lease.go:1163-1205 | a claim on a value of base at epoch 1 over an absent ref, or on the release it replaces one epoch on; it mints nothing only when base could not be read, the mint failed, or for a fresh claim the local tip read first was told not to be below its base; what it mints it pushes and ends as that was told |
| Acquiring.AcquireOver | internal/claim/lease.go:371-380 | of a ref that stands, the tip is fetched and its commit read: told to be a release it is claimed over, and nothing but a mint that failed stops that with nobody else at work; anything else is refused by name, with what was read there |
| Acquiring.Acquire | internal/claim/lease.go:364-380 | its first act is to read the ref, the answer was true during the call, and with what it is told next decides: an absent or unreadable ref is claimed fresh, on a base that has the local tip read; a tip told to be a release is claimed over; any other tip is refused by name with nothing minted. With nobody else at work a release is claimed unless the mint fails, and an absent ref unless that or the local tip is beside base. A grant landed during the call over exactly that, and had the copy and the token follow |
| Scavenging.ParkTip | internal/claim/lease.go:873-897 | done means the rescue ref holds the very tip; a name that holds anything else, one confirmed missing and one that could not be read are told apart, each only when it was so |
| Scavenging.HasUnlanded | internal/claim/lease.go:900-921 | nothing needs parking only when git answered that the chain has no work above base, or that merging it changes nothing, and then that is evidence for a delete; with nobody else at work it is exactly whether the chain is landed on base |
| Scavenging.ParkUnlanded | internal/claim/lease.go:654-672 | it leaves the evidence a delete at the tip goes by, on base if no other fetch ran in the clone, or refuses with what it was told last; it parks only what git told has work that a merge would not lose; all it does itself is park that tip and fetch; with nobody else at work no read fails it, and it parks exactly when the chain is unlanded on base |
| Scavenging.CasDelete | internal/claim/lease.go:259-278 | no error means the ref is gone, and a refusal follows a delete that failed: it names what the ref was then read to hold, and is unconfirmed only when that read failed |
| Scavenging.Scavenge | internal/claim/lease.go:528-575 | whoever else is at work: its first act is to read the ref, and unless that is at the tip given it parks and deletes nothing, refusing by name a ref that moved; it deletes the ref at that tip only, parks that tip, drops its own copy where it just read no worktree standing, and nothing else, and reports a rescue exactly when a park is why the tip could go; with nobody else at work, base included, it leaves the remote where an uninterrupted run ends, or on the way there, and exactly there when it ends well. It ends short of that only for a reason it was told: a ref that moved, with the marker found there, a read, park or delete that failed, or a dead process; an absent ref is done at once, with nobody else at work no read but the first can fail it, and one that is done has seen to the local copy |
| Scavenging.DeletesWereSafe | internal/claim/lease.go:259-278 | every delete a call made met its ref at exactly the tip, and kept all the work below it but what its evidence overlooked; where no other fetch ran in the clone, all the scan counts |
| Scavenging.MidwayHasTheSameEnd | internal/claim/lease.go:528-575 | from wherever a scavenge stopped, an uninterrupted one ends where it would have ended from the start |
| Scavenging.RerunsReachTheSameEnd | internal/claim/lease.go:528-575 | and so after any number of crashed runs |
| Scavenging.RescuedExactlyWhenUnlanded | internal/claim/lease.go:908-921 | the end has the ref gone and the rescue at its tip exactly when the chain was unlanded on base as it stands |
| Scavenging.RenewedHolderIsSafe | internal/claim/lease.go:528-575 | once a holder moved the ref off a tip, no delete from that tip is possible in any later state |
| Scavenging.Yield | internal/claim/lease.go:620-645 | whoever else is at work, it first reads the ref, refuses exactly when that stands at the lane's own tip, parks nothing when it could not be read, and otherwise does nothing but park that tip; it ends well only with exactly that tip on the rescue ref |
| Decorated.DecoratedTip | internal/claim/decorated.go:97-111 | it asks origin first and answers its copy exactly when it carries one, and only when origin answered that it carries none this clone's; an unreadable origin is a fault and nothing else is |
| Decorated.ReadAll | internal/claim/decorated.go:57-73 | it only reads, and goes on only when it read every branch at its observed tip or gone; else it stops on a branch it read elsewhere, by that tip, or could not read |
| Decorated.Retire | internal/claim/decorated.go:120-148 | whoever else is at work, it parks and deletes that one branch at its observed tip only, and drops the local copy only where it met it at that tip with no worktree on it; a completed retirement has its evidence on the record, a park exactly when it reports a rescue, which holds the tip, and says truly whether a local copy is left; a copy it read at that tip it saw to, and one that failed says why as it was told last |
| Decorated.TakeoverDecorated | internal/claim/decorated.go:47-91 | whoever else is at work: it first reads every branch and touches nothing unless each was read at its observed tip or gone, which its log shows; then it deletes only branches of the list, at those tips, and drops copies it met there; after the last retirement, and only then, it acquires, and ends as that acquire was told, a win being the claim it minted, landed during the call; the list holds the completed retirements in order, each true of what is gone and what is left, after a failure as after a win; a failed retirement says truly why, a lost race where the branch stands instead. With nobody else at work no read fails it once it has begun, origin loses no other branch and a win leaves none of them |
| Claiming.BeatForHolder | cmd/frit/claim.go:621-636 | the beat is over exactly the observed tip, under the holder and lane its own marker names; it ends as it was told, and says renewed exactly when it won |
| Claiming.TakeOverOrVeto | cmd/frit/claim.go:555-577 | before it does anything but read and fetch it reads the marker at the tip, fetched for if need be, and vetoes exactly when the session bound there is live; vetoed it beats for the holder that marker names, and otherwise it takes over, each ending as it was told |
| Claiming.MintOrTakeOver | cmd/frit/claim.go:524-577 | a held plan that is stale or dead is taken over, and any other acquired, as those transitions promise; a work ref only after its marker was read and named no live session, over exactly the tip observed, and a live one is renewed for its holder; a decorated hold is seized as its takeover promises, exactly when no agent stands on its branches; only this plan's window changes, and only on a loss to a tip that was read |
| Claiming.ReadsOwnAdvance | internal/claim/lease.go:1541-1557 | it answers no when git told that the token is not below the tip or no marker, or found no marker at the tip, and otherwise what the marker found says; with nobody else at work, where the markers git may list first all give one answer, it is OwnAdvance |
| Claiming.ResumeToken | cmd/frit/claim.go:166-187 | the tip it answers is the one its first act read on origin, the saved token proves it, and the last thing it read is that no live session is bound there; and with nobody else at work, where the markers git may list first there all give one answer and none names a live session, it answers exactly when the token proves that tip |
| Claiming.ResumeOwnLease | cmd/frit/claim.go:128-156 | it renews exactly when the token was proved and the marker read there, before anything was minted, names no live session; it is answered exactly when that renewal won or was refused as diverged, as it was told, and resumed exactly when it won; with nobody else at work it renews exactly when the token proves the tip its first act read, as for that proof |
| Windows.WindowIsTheLatestRun | internal/discovery/stale.go:54-71 | folding the looks gives the longest unbroken run that ends with the last one: its tip, times and length, and the gap that cut it off exactly when the look before saw the same tip |
| Windows.SpanIsSampled | internal/discovery/stale.go:38-44 | (samples - 1) times the gap bound is at least the span, even when the clock steps back |
| Windows.MaturedWindowIsHonest | internal/discovery/stale.go:77-86 | a stale hold's samples are the latest looks, all on that tip, each within the bound in force of the one before, spanning more than the threshold, the last just now |
| Windows.MaturedWindowHasSixSamples | internal/discovery/stale.go:14-24 | with the bound a quarter of the window a matured window has at least six samples |
| Windows.StaleExactlyWhenSeenUnmoved | internal/discovery/stale.go:77-86 | on a clock that does not step back a hold is stale exactly when its tip was seen unmoved, in time, over more than the threshold |
| Windows.ClockStepDelays | internal/discovery/stale.go:54-71 | a clock that stepped back can hide a long enough run, which then only delays |
| Watching.WatchTip | internal/discovery/stale.go:94-109 | the bare tip, or the decorated branches listed in order whatever order the map gave them |
| Watching.WatchIsInjective | internal/discovery/stale.go:94-109 | equal watch strings mean equal maps, so any move, addition or removal restarts the window |
| Watching.WatchIsNoTip | internal/discovery/stale.go:94-109 | decorated branches are never watched under a bare tip |
| Watching.Store.ObserveHolds | cmd/frit/main.go:1644-1707 | plan by plan, each window takes its look on its own repository's clock, is dropped only when a fetching pass found nothing, and marks its plan; two plans of one key take a look each |
| Watching.SessionDeadIn | internal/herdr/session.go:63-74 | dead means there is a session and none of the panes runs an agent on it |
| Watching.KeyIsThePlan | internal/observe/observe.go:21-25 | two plans share a key exactly when they have one repository name and one id |
| Watching.StoreHoldsLooks | cmd/frit/main.go:1644-1672 | after any passes and resets, each window is the fold of the looks at its key since it was last dropped or reset, and is there exactly when there are any |
| Watching.MarkedStaleIff | cmd/frit/main.go:1674-1702 | a watched plan is marked stale exactly when those looks, the last being this pass's, matured on what it is watched on, past (k+1) windows for a work ref in a placed repository and past one for any other hold, a window being the repository's own where it declares one and two hours otherwise; on a clock that does not step back that is exactly when they saw it unmoved for so long |
| Watching.MarkedForTheRun | cmd/frit/main.go:1702-1704 | it is marked with the time since the first look of the latest unbroken run, and with the gap that cut that run off from a look that saw the same |
| Watching.MarkedDeadIff | cmd/frit/main.go:1678-1733 | a held plan with a work ref in a placed repository is marked dead, when herdr answered, exactly when the marker read at that tip names a session that no agent is on; any other plan, a decorated hold among them, keeps the mark it had, and no mark changes anything else of a plan |
| Watching.MarkedStaleWasUnmoved | cmd/frit/main.go:1674-1702 | so of a plan with a work ref the latest looks all saw that tip, each in time, over more than (k+1) windows |
| Watching.Store.ResetWindow | cmd/frit/claim.go:642-652 | the plan's window starts over on the tip read, every other is left alone |
| Watching.DecoratedResetStartsOver | cmd/frit/claim.go:540-552 | a reset recorded on a decorated hold never extends: the next look starts over |
| Damping.TakeoverCount | internal/claim/lease.go:1497-1513 | the count is the number of takeover markers below the tip and not below the base view |
| Damping.CountIsAtLeast | internal/claim/lease.go:1497-1513 | it is at least the takeovers landed in this life of the ref, when base reaches none of those |
| Damping.TakeoverWaits | cmd/frit/main.go:1674-1702 | a takeover tried on a matured window lands more than (k+1) windows after the value it replaced |
| Damping.TakeoversDampQuadratically | cmd/frit/main.go:1674-1702 | the n-th takeover of a life lands more than T n (n+1) / 2 after the claim it began with |
| Maturing.MarkedIsMatured | cmd/frit/main.go:1674-1702 | a plan some observer's pass marked stale is a matured window on exactly its tip |
| Maturing.ObservedTakeoversDamp | cmd/frit/main.go:1674-1702 | if some observer's pass had marked the plan stale at the tip each takeover of a life replaced, the n-th lands more than T n (n+1) / 2 after the claim the life began with |
| Maturing.TakeoverWasMatured | cmd/frit/claim.go:528-570 | a takeover mintOrTakeOver ran from a plan so marked, its session not gone, replaced exactly the tip the window matured on, wherever it landed |
| Lanes.Resolve | internal/herdr/resolve.go:27-44 | the root git printed for the pane and the branch it printed at that root, none for a detached checkout, and neither for a pane in no repository |
| Lanes.Join | internal/herdr/resolve.go:79-101 | one lane a pane, in order: at the root and branch git printed for that pane, in the repository the root names, on the plan that root's patterns claim for the branch, each root's patterns read once |
| Lanes.LaneFirstTrans | cmd/frit/main.go:1244-1250 | the order lanes are chosen in is transitive |
| Lanes.NeverBoth | cmd/frit/main.go:1244-1250 | and asymmetric |
| Lanes.TiedIsOnePane | cmd/frit/main.go:1223-1235 | and total but for two lanes on one pane |
| Lanes.FirstLiveLane | cmd/frit/dispatch.go:172-191 | asking for the repository only of a lane it would choose, it answers what the scan of all lanes answers |
| Lanes.ScanIsFirst | cmd/frit/dispatch.go:172-191 | that is the first lane in the order on one of the branches in the repository, or none when there is none |
| Lanes.RootKeyInjective | cmd/frit/main.go:2479-2484 | the cache key names one host and one root |
| Lanes.KeepLiveLane | cmd/frit/main.go:2497-2501 | under its own key the better of the two lanes is kept, every other key is left alone |
| Lanes.LiveByBranch | cmd/frit/main.go:2467-2491 | resolving each worktree's repository once, it builds the map the fold builds |
| Lanes.IndexedIsFirst | cmd/frit/main.go:2451-2466 | every entry of that map is the first lane of its repository on its branch, and no such lane is missing |
| Lanes.LaneFor | cmd/frit/main.go:2510-2521 | it answers what the lookup of the hold branches one by one answers |
| Lanes.LookupIsFirst | cmd/frit/main.go:2503-2509 | over such a map that is the first lane on any of the hold branches, whatever order they are listed in |
| Lanes.SurveyAndDispatchAgree | cmd/frit/main.go:2503-2509 | the lookup over the folded map and the scan name the same lane, and none exactly when no live lane qualifies |
| Lanes.PanesAreAnswered | cmd/frit/main.go:2451-2521 | from panes to answer: both reads answer a lane exactly when some pane sits in the repository on one of the hold branches, as git printed them; it is the same lane, on such a pane and at that pane's own root and branch, and no other such pane's lane comes before it |
| Lanes.LocalLaneIsReached | cmd/frit/main.go:1237-1243 | a lane on another host never shadows a qualifying one on this host |
| Lanes.OnePaneInTwoLanesDisagrees | cmd/frit/main.go:1219-1222 | a list with one pane in two lanes where the lookup and the scan name different lanes |
| Deps.IndexByRepoId | internal/discovery/deps.go:61-73 | a lookup finds the last plan listed of that repository and id, and nothing else |
| Deps.LastOfIsLast | internal/discovery/deps.go:61-73 | that plan is listed, matches, and no later one does |
| Deps.WalkInPlace | internal/discovery/deps.go:34-57 | the recursion with its shared, growing set ends on any graph and builds the tree the specification gives |
| Deps.Dependencies | internal/discovery/deps.go:25-30 | the tree above a plan, from nothing expanded |
| Deps.FoundAreTheReachable | internal/discovery/deps.go:17-24 | the ids found in the tree are exactly those the root reaches through known plans |
| Deps.EachPlanOpensOnce | internal/discovery/deps.go:17-24 | a plan is opened where it is first met, in full and in order, and nowhere else |
| Deps.NoIdOpensTwice | internal/discovery/deps.go:39-42 | a second mention of an id is a leaf |
| Deps.NodesAreEdgesPlusOne | internal/discovery/deps.go:34-57 | one node for the root and one for each edge of a reachable plan, so never more than 1 plus all edges declared |
| Deps.UnknownIsCarried | internal/discovery/deps.go:44-52 | an upstream node is marked found exactly when a plan of that id is known |
| Numbers.ParseRendered | internal/claim/lease.go:833-836 | a number written in decimal is read back when it fits in 64 bits and refused when it does not |
| MarkerText.ParseMarker | internal/claim/lease.go:1674-1710 | the loop over the trailers reads what the specification reads |
| MarkerText.RoundTrip | internal/claim/lease.go:1636-1660 | what a marker's message says is what is read back, "-" for an empty lane or session, and nothing without a nonce |
| MarkerText.OtherPlansRejectIt | internal/claim/lease.go:1089-1103 | no other plan's reader takes the message for its own, whatever its fields hold |
| MarkerText.HasWork | internal/claim/lease.go:930-948 | the loop answers yes exactly when some line git printed is neither empty nor a marker's subject |
| MarkerText.WorkIsACountedSubject | internal/claim/lease.go:930-948 | so it answers yes exactly when some commit's subject is not empty and not one of the four plain ones of this plan |
| MarkerText.BareTitleIsNoMarker | internal/claim/lease.go:1662-1673 | a title that is word for word a marker's subject is no marker without its trailers, yet the scan for work passes over it |
| MarkerText.PlainSubjects | internal/claim/lease.go:975-986 | a droppable subject is one of the four plain ones of this plan |
| MarkerText.LegacySubjects | internal/claim/lease.go:1089-1103 | the legacy claim with a slug reads as a claim and is the only marker subject a delete may not drop |
| MarkerText.NoLaneIsNotOwn | internal/claim/lease.go:446-450 | a marker minted for no lane never reads back as the empty lane |
| MarkerText.RescuePlanIdInverts | internal/claim/lease.go:823-838 | the plan id is read back from a rescue ref of either shape, whatever the holder is called |
| MarkerText.RescueRefInjective | internal/claim/lease.go:856-858 | two 40-character tips share a rescue ref only for one plan, one holder, one tip |
| MarkerText.RescueRefsAreSiblings | internal/claim/lease.go:840-855 | no rescue ref of either shape is a directory above another |
| Strings.LessTotal | internal/discovery/stale.go:94-109 | the order names are sorted in is total |
| Strings.SortedUnique | internal/discovery/stale.go:94-109 | one set of names has one sorted listing |

## Left out

- Running git, ssh and herdr, their deadlines and output parsing: each command is an abstract step with nondeterministic faults.
- `git merge-tree`, commit signing and the commit's tree: whether a merge changes nothing is an uninterpreted relation, and a marker's tree is not modelled.
- Fetches are modelled by what they leave in FETCH_HEAD: an object read from origin is readable or the read fails, whether it was fetched or not, and a fetch that fails leaves FETCH_HEAD alone.
- The session and base trailers outside `MarkerText`: the protocol model's markers carry kind, epoch, holder and lane, and the session is what the herdr oracle is asked about.
- Several plans at once: one plan's refs at a time, except for the observer's store and the lane and dependency choices, which take all plans.
- The observation file, the token file's path and the presence cache: a map from keys, and a map from lanes.
- A marker whose push the server rejects for a reason other than its lease (a hook, a protected branch) is a push that failed without effect.
- Command line, tables, refusal wording, stand-up of worktrees and agents, scaffolding, plan and configuration parsing: not part of this model.
- Finding the calling directory's own lane and reading its presence before a claim (deserted and tokenless lanes): only the token proof and the session veto are modelled.
- Epochs.HeldIsTheLock: says nothing of a tip where the nearest terminal marker can be read two ways; `Epochs.HeldIsRightIff` does.
- Tokens.OwnAdvanceIsExact: assumes renewals keep the holder and none renews a released lease, since RenewToBind can; `Tokens.OwnAdvanceMeans` is the statement without that.
- Tokens.OwnAdvanceMeans: asks that the epoch was read right at the tips this life replaced; `Strays.MisreadBeatDisownsItsToken` fails where it was not, and `Lock.EpochReadIff` says when it is.
- World.World.WriteToken: asks that the tip is a landed claim, beat or takeover, which is what every transition passes.
- Preservation.NoPushedWorkIsLost: excepts what a delete overlooked, since the code loses that; `Preservation.DeleteLosesIff` is the exact condition.
- Scavenging.Scavenge: says nothing of the local copy's own commits, which the code drops without comparing; the reflog is all that keeps them.
- Acquiring.Takeover: says nothing of the local copy's old tip for the same reason.
- Damping.TakeoversDampQuadratically: takeovers of a dead session wait for no window, and the bound does not cover them.
- Watching.Store.ObserveHolds: is one process's pass; two processes that load and save one store at once are not part of this model.
