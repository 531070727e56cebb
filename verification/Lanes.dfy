/** Which live lane a plan has: the survey's map and the dispatch verbs' scan.

    A lane is a pane resolved to the worktree it sits in. A survey folds every lane into a map by
    (repository, branch) and looks the plan's hold branches up in it; a dispatch verb scans the lanes.
    Both have to name the same lane, since a survey's answer is where a message is then sent. */
module Lanes {
  import opened Wrappers
  import opened Strings

  datatype Site = Site(root: string, branch: string)

  datatype Pane = Pane(host: string, id: string)

  datatype Lane = Lane(pane: Pane, root: string, repo: string, branch: string, plan: int)

  datatype RepoBranch = RepoBranch(repo: string, branch: string)

  /** A repository's name, from the host and the worktree root. */
  type Naming = (string, string) -> string

  /** Where a pane sits, as git on its host prints it: the worktree root above its directory, and the branch checked
    out at that root. */
  datatype Git = Git(toplevel: Pane -> Option<string>, head: (Pane, string) -> Option<string>)

  /** git printed this root for the pane, and this branch there; none for a detached checkout. */
  ghost predicate Printed(git: Git, pane: Pane, root: string, branch: string) {
    root != "" && git.toplevel(pane) == Some(root) &&
    (git.head(pane, root) == Some(branch) || (git.head(pane, root).None? && branch == ""))
  }

  /** It printed none: the pane is in no repository. */
  ghost predicate Nowhere(git: Git, pane: Pane) {
    git.toplevel(pane).None? || git.toplevel(pane) == Some("")
  }

  /** The site of a pane: no root, no branch; and no branch where none is checked out. */
  function Resolve(git: Git, pane: Pane): (site: Site)
    ensures if Nowhere(git, pane) then site == Site("", "") else Printed(git, pane, site.root, site.branch)
  {
    var toplevel := git.toplevel(pane);
    if toplevel.None? || toplevel.value == "" then Site("", "")
    else
      var head := git.head(pane, toplevel.value);
      Site(toplevel.value, if head.None? then "" else head.value)
  }

  predicate Reaches(lane: Lane) {
    lane.pane.host == ""
  }

  predicate LaneBefore(a: Lane, b: Lane) {
    if a.repo != b.repo then Less(a.repo, b.repo)
    else if a.plan != b.plan then a.plan < b.plan
    else if a.pane.id != b.pane.id then Less(a.pane.id, b.pane.id)
    else Less(a.pane.host, b.pane.host)
  }

  predicate LaneFirst(a: Lane, b: Lane) {
    if Reaches(a) != Reaches(b) then Reaches(a) else LaneBefore(a, b)
  }

  // ----- The order -----

  lemma NeverBoth(a: Lane, b: Lane)
    requires LaneFirst(a, b)
    ensures !LaneFirst(b, a)
  {
    if LaneFirst(b, a) {
      LaneFirstTrans(a, b, a);
      LessIrreflexive(a.pane.host);
    }
  }

  lemma LaneFirstTrans(a: Lane, b: Lane, c: Lane)
    requires LaneFirst(a, b) && LaneFirst(b, c)
    ensures LaneFirst(a, c)
  {
    forall x: string, y: string, z: string | Less(x, y) && Less(y, z) ensures Less(x, z) && x != z {
      LessTrans(x, y, z);
      LessIrreflexive(x);
    }
  }

  /** Two lanes the order cannot tell apart are on one pane. */
  lemma TiedIsOnePane(a: Lane, b: Lane)
    requires !LaneFirst(a, b) && !LaneFirst(b, a)
    ensures a.pane == b.pane
  {
    LessTotal(a.repo, b.repo);
    LessTotal(a.pane.id, b.pane.id);
    LessTotal(a.pane.host, b.pane.host);
  }

  // ----- What both reads are to answer -----

  /** A pane id is unique on its host, so a pane is in one lane. */
  ghost predicate OneLanePerPane(s: set<Lane>) {
    forall a, b | a in s && b in s && a.pane == b.pane :: a == b
  }

  ghost predicate IsFirst(choice: Option<Lane>, s: set<Lane>) {
    match choice
    case None => s == {}
    case Some(lane) => lane in s && forall other | other in s && other != lane :: LaneFirst(lane, other)
  }

  /** A set of lanes has at most one first lane. */
  lemma FirstIsUnique(s: set<Lane>, a: Option<Lane>, b: Option<Lane>)
    requires IsFirst(a, s) && IsFirst(b, s)
    ensures a == b
  {
    if a.Some? && b.Some? && a != b { NeverBoth(a.value, b.value); }
  }

  /** The first lane once one more lane is considered. */
  function Better(choice: Option<Lane>, lane: Lane): Option<Lane> {
    if choice.None? || LaneFirst(lane, choice.value) then Some(lane) else choice
  }

  lemma BetterIsFirst(choice: Option<Lane>, lane: Lane, s: set<Lane>)
    requires IsFirst(choice, s) && OneLanePerPane(s + {lane})
    ensures IsFirst(Better(choice, lane), s + {lane})
  {
    if choice.Some? {
      if LaneFirst(lane, choice.value) {
        forall other | other in s && other != lane ensures LaneFirst(lane, other) {
          if other != choice.value { LaneFirstTrans(lane, choice.value, other); }
        }
      } else if lane != choice.value && !LaneFirst(choice.value, lane) {
        TiedIsOnePane(lane, choice.value);
      }
    }
  }

  /** The lanes on one of the branches, in the repository. */
  ghost function On(lanes: seq<Lane>, branches: set<string>, repo: string, naming: Naming): set<Lane> {
    set lane | lane in lanes && lane.branch != "" && lane.branch in branches &&
               naming(lane.pane.host, lane.root) == repo
  }

  function Names(holds: seq<string>): set<string> {
    set branch | branch in holds
  }

  ghost predicate Resolved(lanes: seq<Lane>) {
    && (forall lane | lane in lanes :: lane.root == "" ==> lane.branch == "")
    && (forall a, b | a in lanes && b in lanes && a.pane == b.pane :: a == b)
  }

  lemma OnGrows(lanes: seq<Lane>, i: nat, branches: set<string>, repo: string, naming: Naming)
    requires i < |lanes|
    ensures On(lanes[..i+1], branches, repo, naming) ==
            On(lanes[..i], branches, repo, naming) + On([lanes[i]], branches, repo, naming)
  {
    assert lanes[..i+1] == lanes[..i] + [lanes[i]];
  }

  /** A repository's hold patterns, from its worktree root, and the plan they claim for a branch. */
  datatype Claims<!H> = Claims(holdsFor: string -> H, matches: (H, string) -> int)

  /** The lane of a pane: the root and branch git printed for it, the repository named by the root, and the plan that
    root's patterns claim for the branch, if there is one. */
  ghost predicate LaneOf<H>(git: Git, basename: string -> string, claims: Claims<H>, pane: Pane, lane: Lane) {
    && lane.pane == pane
    && if Nowhere(git, pane) then lane == Lane(pane, "", "", "", 0)
       else
         && Printed(git, pane, lane.root, lane.branch) && lane.repo == basename(lane.root)
         && lane.plan == if lane.branch == "" then 0 else claims.matches(claims.holdsFor(lane.root), lane.branch)
  }

  /** Join: every pane resolved to its lane, a root's patterns read once. With one listing per pane the lanes are
    Resolved. */
  method Join<H>(panes: seq<Pane>, git: Git, basename: string -> string, claims: Claims<H>) returns (lanes: seq<Lane>)
    requires forall i, j | 0 <= i < j < |panes| :: panes[i] != panes[j]
    ensures |lanes| == |panes| && forall i | 0 <= i < |panes| :: LaneOf(git, basename, claims, panes[i], lanes[i])
    ensures Resolved(lanes)
  {
    hide Printed;
    var cache: map<string, H> := map[];
    lanes := [];
    for i := 0 to |panes|
      invariant |lanes| == i && forall k | 0 <= k < i :: LaneOf(git, basename, claims, panes[k], lanes[k])
      invariant forall k | 0 <= k < i :: lanes[k].root == "" ==> lanes[k].branch == ""
      invariant forall root | root in cache :: cache[root] == claims.holdsFor(root)
    {
      var pane := panes[i];
      var site := Resolve(git, pane);
      var lane := Lane(pane, site.root, "", site.branch, 0);
      RootedOrNowhere(git, pane, site.root, site.branch);
      if site.root != "" {
        var plan := 0;
        if site.branch != "" {
          if site.root !in cache { cache := cache[site.root := claims.holdsFor(site.root)]; }
          plan := claims.matches(cache[site.root], site.branch);
        }
        lane := lane.(repo := basename(site.root), plan := plan);
      }
      lanes := lanes + [lane];
    }
  }

  lemma RootedOrNowhere(git: Git, pane: Pane, root: string, branch: string)
    requires if Nowhere(git, pane) then root == "" && branch == "" else Printed(git, pane, root, branch)
    ensures root == "" <==> Nowhere(git, pane)
  {
  }

  // ----- The scan -----

  /** A lane the scan may choose. */
  predicate Qualifies(lane: Lane, branches: set<string>, repo: string, naming: Naming) {
    lane.root != "" && lane.branch != "" && lane.branch in branches && naming(lane.pane.host, lane.root) == repo
  }

  /** What the scan answers, lane by lane. */
  function Scan(lanes: seq<Lane>, branches: set<string>, repo: string, naming: Naming): Option<Lane> {
    if lanes == [] then None
    else
      var n := |lanes| - 1;
      var first := Scan(lanes[..n], branches, repo, naming);
      if Qualifies(lanes[n], branches, repo, naming) then Better(first, lanes[n]) else first
  }

  /** firstLiveLane: the repository is asked for only of a lane that would be chosen. */
  method FirstLiveLane(lanes: seq<Lane>, branches: set<string>, repo: string, naming: Naming)
    returns (first: Option<Lane>)
    ensures first == Scan(lanes, branches, repo, naming)
  {
    first := None;
    for i := 0 to |lanes|
      invariant first == Scan(lanes[..i], branches, repo, naming)
    {
      var lane := lanes[i];
      assert lanes[..i+1][..i] == lanes[..i];
      if lane.root != "" && lane.branch != "" && lane.branch in branches {
        if first.None? || LaneFirst(lane, first.value) {
          if naming(lane.pane.host, lane.root) == repo {
            first := Some(lane);
          }
        }
      }
    }
    assert lanes[..|lanes|] == lanes;
  }

  /** With each pane in one lane, that is the first qualifying lane in the order, or none when there is none. */
  lemma {:induction false} ScanIsFirst(lanes: seq<Lane>, branches: set<string>, repo: string, naming: Naming)
    requires Resolved(lanes)
    ensures IsFirst(Scan(lanes, branches, repo, naming), On(lanes, branches, repo, naming))
    decreases |lanes|
  {
    if lanes != [] {
      var n := |lanes| - 1;
      var lane, s := lanes[n], On(lanes[..n], branches, repo, naming);
      ScanIsFirst(lanes[..n], branches, repo, naming);
      assert lanes == lanes[..n] + [lane] && lanes[..n+1] == lanes;
      OnGrows(lanes, n, branches, repo, naming);
      if Qualifies(lane, branches, repo, naming) {
        BetterIsFirst(Scan(lanes[..n], branches, repo, naming), lane, s);
        assert On([lane], branches, repo, naming) == {lane};
      } else {
        assert On([lane], branches, repo, naming) == {};
        assert s + {} == s;
      }
    }
  }

  // ----- The map -----

  /** The cache key of a worktree: host, a zero byte, root. */
  function RootKey(host: string, root: string): string {
    host + "\0" + root
  }

  predicate Named(host: string) {
    '\0' !in host
  }

  lemma RootKeyInjective(h1: string, r1: string, h2: string, r2: string)
    requires Named(h1) && Named(h2) && RootKey(h1, r1) == RootKey(h2, r2)
    ensures h1 == h2 && r1 == r2
  {
    var k := RootKey(h1, r1);
    assert k[|h1|] == '\0' && k[|h2|] == '\0';
    assert h1 == k[..|h1|] && h2 == k[..|h2|];
    assert r1 == k[|h1|+1..] && r2 == k[|h2|+1..];
  }

  function At(live: map<RepoBranch, Lane>, key: RepoBranch): Option<Lane> {
    if key in live then Some(live[key]) else None
  }

  function KeepLiveLane(live: map<RepoBranch, Lane>, key: RepoBranch, lane: Lane): (r: map<RepoBranch, Lane>)
    ensures At(r, key) == Better(At(live, key), lane)
    ensures forall other | other != key :: At(r, other) == At(live, other)
  {
    if key !in live || LaneFirst(lane, live[key]) then live[key := lane] else live
  }

  /** Every entry is the first lane of its repository on its branch. */
  ghost predicate Indexes(live: map<RepoBranch, Lane>, lanes: seq<Lane>, naming: Naming) {
    forall key: RepoBranch :: IsFirst(At(live, key), On(lanes, {key.branch}, key.repo, naming))
  }

  lemma KeepIndexes(live: map<RepoBranch, Lane>, lanes: seq<Lane>, i: nat, naming: Naming)
    requires i < |lanes| && Resolved(lanes) && Indexes(live, lanes[..i], naming) && lanes[i].branch != ""
    ensures var key := RepoBranch(naming(lanes[i].pane.host, lanes[i].root), lanes[i].branch);
      Indexes(KeepLiveLane(live, key, lanes[i]), lanes[..i+1], naming)
  {
    var lane := lanes[i];
    var mine := RepoBranch(naming(lane.pane.host, lane.root), lane.branch);
    forall key: RepoBranch
      ensures IsFirst(At(KeepLiveLane(live, mine, lane), key), On(lanes[..i+1], {key.branch}, key.repo, naming))
    {
      var so := On(lanes[..i], {key.branch}, key.repo, naming);
      OnGrows(lanes, i, {key.branch}, key.repo, naming);
      if key == mine {
        BetterIsFirst(At(live, key), lane, so);
        assert On([lane], {key.branch}, key.repo, naming) == {lane};
      } else {
        assert On([lane], {key.branch}, key.repo, naming) == {};
        assert so + {} == so;
      }
    }
  }

  /** What the fold keeps, lane by lane. */
  function Indexed(lanes: seq<Lane>, naming: Naming): map<RepoBranch, Lane> {
    if lanes == [] then map[]
    else
      var n := |lanes| - 1;
      var live, lane := Indexed(lanes[..n], naming), lanes[n];
      if lane.branch == "" then live
      else KeepLiveLane(live, RepoBranch(naming(lane.pane.host, lane.root), lane.branch), lane)
  }

  /** liveByBranch: the repository of a worktree is resolved once and remembered under its key. */
  method LiveByBranch(lanes: seq<Lane>, naming: Naming) returns (live: map<RepoBranch, Lane>)
    requires forall lane | lane in lanes :: Named(lane.pane.host)
    ensures live == Indexed(lanes, naming)
  {
    var repos: map<string, string> := map[];
    live := map[];
    for i := 0 to |lanes|
      invariant live == Indexed(lanes[..i], naming)
      invariant forall lane | lane in lanes && RootKey(lane.pane.host, lane.root) in repos ::
                  repos[RootKey(lane.pane.host, lane.root)] == naming(lane.pane.host, lane.root)
    {
      var lane := lanes[i];
      assert lanes[..i+1][..i] == lanes[..i];
      if lane.branch == "" {
        continue;
      }
      var key := RootKey(lane.pane.host, lane.root);
      var repo;
      if key in repos {
        repo := repos[key];
      } else {
        repo := naming(lane.pane.host, lane.root);
        forall other | other in lanes && RootKey(other.pane.host, other.root) == key
          ensures naming(other.pane.host, other.root) == repo
        {
          RootKeyInjective(other.pane.host, other.root, lane.pane.host, lane.root);
        }
        repos := repos[key := repo];
      }
      live := KeepLiveLane(live, RepoBranch(repo, lane.branch), lane);
    }
    assert lanes[..|lanes|] == lanes;
  }

  /** Every entry of the fold is the first lane of its repository on its branch, and no such lane is missing. */
  lemma {:induction false} IndexedIsFirst(lanes: seq<Lane>, naming: Naming)
    requires Resolved(lanes)
    ensures Indexes(Indexed(lanes, naming), lanes, naming)
    decreases |lanes|
  {
    if lanes != [] {
      var n := |lanes| - 1;
      IndexedIsFirst(lanes[..n], naming);
      assert lanes[..n+1] == lanes;
      if lanes[n].branch == "" {
        SkipIndexes(Indexed(lanes[..n], naming), lanes, n, naming);
      } else {
        KeepIndexes(Indexed(lanes[..n], naming), lanes, n, naming);
      }
    } else {
      forall key: RepoBranch ensures IsFirst(At(map[], key), On([], {key.branch}, key.repo, naming)) {
        assert On([], {key.branch}, key.repo, naming) == {};
      }
    }
  }

  lemma SkipIndexes(live: map<RepoBranch, Lane>, lanes: seq<Lane>, i: nat, naming: Naming)
    requires i < |lanes| && Indexes(live, lanes[..i], naming) && lanes[i].branch == ""
    ensures Indexes(live, lanes[..i+1], naming)
  {
    forall key: RepoBranch ensures IsFirst(At(live, key), On(lanes[..i+1], {key.branch}, key.repo, naming)) {
      OnGrows(lanes, i, {key.branch}, key.repo, naming);
      assert On([lanes[i]], {key.branch}, key.repo, naming) == {};
      var so := On(lanes[..i], {key.branch}, key.repo, naming);
      assert so + {} == so;
    }
  }

  /** The first of one set and the first of another give the first of both. */
  lemma FirstOfBoth(a: Option<Lane>, s: set<Lane>, b: Option<Lane>, t: set<Lane>)
    requires IsFirst(a, s) && IsFirst(b, t) && OneLanePerPane(s + t)
    ensures IsFirst(if b.None? then a else Better(a, b.value), s + t)
  {
    if b.None? {
      assert s + t == s;
    } else {
      BetterIsFirst(a, b.value, s);
      var c := Better(a, b.value).value;
      forall other | other in s + t && other != c ensures LaneFirst(c, other) {
        if other in t && other != b.value && c != b.value { LaneFirstTrans(c, b.value, other); }
      }
    }
  }

  /** What the lookup answers, branch by branch. */
  function Lookup(holds: seq<string>, repo: string, live: map<RepoBranch, Lane>): Option<Lane> {
    if holds == [] then None
    else
      var n := |holds| - 1;
      var first, lane := Lookup(holds[..n], repo, live), At(live, RepoBranch(repo, holds[n]));
      if lane.None? then first else Better(first, lane.value)
  }

  /** laneFor: the plan's hold branches looked up one by one, in whatever order they are listed. */
  method LaneFor(holds: seq<string>, repo: string, live: map<RepoBranch, Lane>) returns (first: Option<Lane>)
    ensures first == Lookup(holds, repo, live)
  {
    first := None;
    for i := 0 to |holds|
      invariant first == Lookup(holds[..i], repo, live)
    {
      assert holds[..i+1][..i] == holds[..i];
      var lane := At(live, RepoBranch(repo, holds[i]));
      if lane.Some? && (first.None? || LaneFirst(lane.value, first.value)) {
        first := lane;
      }
    }
    assert holds[..|holds|] == holds;
  }

  /** Over an index of the lanes, that is the first lane in the repository on any of the branches. */
  lemma {:induction false} LookupIsFirst(holds: seq<string>, repo: string, live: map<RepoBranch, Lane>,
                                         lanes: seq<Lane>, naming: Naming)
    requires Resolved(lanes) && Indexes(live, lanes, naming)
    ensures IsFirst(Lookup(holds, repo, live), On(lanes, Names(holds), repo, naming))
    decreases |holds|
  {
    if holds == [] {
      assert On(lanes, Names(holds), repo, naming) == {};
    } else {
      var n := |holds| - 1;
      LookupIsFirst(holds[..n], repo, live, lanes, naming);
      var s, t := On(lanes, Names(holds[..n]), repo, naming), On(lanes, {holds[n]}, repo, naming);
      var key := RepoBranch(repo, holds[n]);
      assert IsFirst(At(live, key), On(lanes, {key.branch}, key.repo, naming));
      FirstOfBoth(Lookup(holds[..n], repo, live), s, At(live, key), t);
      assert holds == holds[..n] + [holds[n]];
      assert On(lanes, Names(holds), repo, naming) == s + t;
    }
  }

  /** Survey and dispatch agree: for every list of lanes with each pane in one lane, and every list of hold
    branches, the lookup over the folded map answers the lane the scan answers, and none exactly when no lane
    qualifies. */
  lemma SurveyAndDispatchAgree(lanes: seq<Lane>, holds: seq<string>, repo: string, naming: Naming)
    requires Resolved(lanes)
    ensures Lookup(holds, repo, Indexed(lanes, naming)) == Scan(lanes, Names(holds), repo, naming)
    ensures Scan(lanes, Names(holds), repo, naming).None? <==>
      !exists lane :: lane in lanes && lane.branch != "" && lane.branch in holds
                      && naming(lane.pane.host, lane.root) == repo
  {
    var s := On(lanes, Names(holds), repo, naming);
    ScanIsFirst(lanes, Names(holds), repo, naming);
    IndexedIsFirst(lanes, naming);
    LookupIsFirst(holds, repo, Indexed(lanes, naming), lanes, naming);
    FirstIsUnique(s, Lookup(holds, repo, Indexed(lanes, naming)), Scan(lanes, Names(holds), repo, naming));
    forall lane | lane in lanes && lane.branch != "" && lane.branch in holds &&
                  naming(lane.pane.host, lane.root) == repo
      ensures Scan(lanes, Names(holds), repo, naming).Some?
    {
      assert lane in s;
    }
  }

  /** A pane sits in the repository on one of the branches. */
  ghost predicate SitsOn(git: Git, pane: Pane, holds: seq<string>, repo: string, naming: Naming) {
    exists root, branch :: Printed(git, pane, root, branch) && branch != "" && branch in holds
      && naming(pane.host, root) == repo
  }

  /** From panes to answer: over the lanes that Join makes of them, both reads answer a lane exactly when some pane
    sits in the repository on one of the hold branches; it is then the same lane, it is on such a pane, at that
    pane's own root and branch, and no other such pane's lane comes before it. */
  lemma PanesAreAnswered<H>(panes: seq<Pane>, lanes: seq<Lane>, git: Git, basename: string -> string,
                            claims: Claims<H>, holds: seq<string>, repo: string, naming: Naming)
    requires |lanes| == |panes| && forall i | 0 <= i < |panes| :: LaneOf(git, basename, claims, panes[i], lanes[i])
    requires Resolved(lanes)
    ensures var survey := Lookup(holds, repo, Indexed(lanes, naming));
      && survey == Scan(lanes, Names(holds), repo, naming)
      && (survey.Some? <==> exists i :: 0 <= i < |panes| && SitsOn(git, panes[i], holds, repo, naming))
      && (survey.Some? ==>
            var lane := survey.value;
            && lane.pane in panes && Printed(git, lane.pane, lane.root, lane.branch)
            && lane.branch != "" && lane.branch in holds && naming(lane.pane.host, lane.root) == repo
            && forall i | 0 <= i < |panes| && SitsOn(git, panes[i], holds, repo, naming) && panes[i] != lane.pane ::
                 LaneFirst(lane, lanes[i]))
  {
    hide LaneFirst;
    SurveyAndDispatchAgree(lanes, holds, repo, naming);
    ScanIsFirst(lanes, Names(holds), repo, naming);
    var s := On(lanes, Names(holds), repo, naming);
    forall i | 0 <= i < |panes| ensures SitsOn(git, panes[i], holds, repo, naming) <==> lanes[i] in s {
      SitsExactly(git, basename, claims, panes[i], lanes[i], holds, repo, naming);
    }
    hide SitsOn;
    hide Scan;
    hide Lookup;
    hide Indexed;
    var scan := Scan(lanes, Names(holds), repo, naming);
    if scan.Some? {
      var i :| 0 <= i < |lanes| && lanes[i] == scan.value;
      assert lanes[i] in s && SitsOn(git, panes[i], holds, repo, naming) && lanes[i].branch != "";
    } else {
      assert s == {};
    }
  }

  lemma SitsExactly<H>(git: Git, basename: string -> string, claims: Claims<H>, pane: Pane, lane: Lane,
                       holds: seq<string>, repo: string, naming: Naming)
    requires LaneOf(git, basename, claims, pane, lane)
    ensures SitsOn(git, pane, holds, repo, naming) <==>
      lane.branch != "" && lane.branch in holds && naming(lane.pane.host, lane.root) == repo
  {
    if !Nowhere(git, pane) && lane.branch != "" { assert Printed(git, pane, lane.root, lane.branch); }
  }

  /** Were one pane listed in two lanes, the two reads could differ: the scan keeps the lane listed first, the
    lookup the branch listed first. */
  lemma OnePaneInTwoLanesDisagrees(naming: Naming)
    requires naming("", "/w/a") == "a"
    ensures var a := Lane(Pane("", "%1"), "/w/a", "a", "plan/1", 1);
            var b := Lane(Pane("", "%1"), "/w/a", "a", "plan/1-x", 1);
            var holds := ["plan/1-x", "plan/1"];
      && Scan([a, b], Names(holds), "a", naming) == Some(a)
      && Lookup(holds, "a", Indexed([a, b], naming)) == Some(b)
  {
    var a := Lane(Pane("", "%1"), "/w/a", "a", "plan/1", 1);
    var b := Lane(Pane("", "%1"), "/w/a", "a", "plan/1-x", 1);
    var holds := ["plan/1-x", "plan/1"];
    LessIrreflexive("%1");
    LessIrreflexive("");
    assert !LaneFirst(a, b) && !LaneFirst(b, a);
    hide LaneFirst;
    assert "plan/1" in holds && "plan/1-x" in holds;
    assert |"plan/1"| != |"plan/1-x"|;
    assert [a, b][..1] == [a] && [a][..0] == [] && holds[..1] == ["plan/1-x"] && ["plan/1-x"][..0] == [];
    assert Scan([a], Names(holds), "a", naming) == Some(a);
    assert Indexed([a], naming) == map[RepoBranch("a", "plan/1") := a];
    assert Indexed([a, b], naming) == map[RepoBranch("a", "plan/1") := a, RepoBranch("a", "plan/1-x") := b];
    assert Lookup(["plan/1-x"], "a", Indexed([a, b], naming)) == Some(b);
  }

  /** A local lane is never shadowed by one on another host. */
  lemma LocalLaneIsReached(lanes: seq<Lane>, branches: set<string>, repo: string, naming: Naming,
                           choice: Option<Lane>, here: Lane)
    requires IsFirst(choice, On(lanes, branches, repo, naming))
    requires here in On(lanes, branches, repo, naming) && Reaches(here)
    ensures choice.Some? && Reaches(choice.value)
  {
    if choice.value != here { assert LaneFirst(choice.value, here); }
  }
}
