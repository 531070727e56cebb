/** The walk over the plans a plan waits on.

    An edge names a plan id, looked up among the plans of the root's repository. The walk shares one
    growing set of expanded ids between all of its recursive calls, so it ends on any graph. */
module Deps {
  import opened Wrappers

  datatype Plan = Plan(id: int, repo: string, dependsOn: seq<int>)

  datatype Node = Node(plan: Plan, found: bool, deps: seq<Node>)

  type Book = map<int, Plan>

  // ----- The index -----

  function Look(index: map<string, Book>, repo: string, id: int): Option<Plan> {
    if repo in index && id in index[repo] then Some(index[repo][id]) else None
  }

  /** The last plan of that repository and id, if there is one. */
  function LastOf(plans: seq<Plan>, repo: string, id: int): Option<Plan> {
    if plans == [] then None
    else
      var p := plans[|plans|-1];
      if p.repo == repo && p.id == id then Some(p) else LastOf(plans[..|plans|-1], repo, id)
  }

  lemma {:induction false} LastOfIsLast(plans: seq<Plan>, repo: string, id: int)
    ensures LastOf(plans, repo, id).None? <==> forall p | p in plans :: !(p.repo == repo && p.id == id)
    ensures LastOf(plans, repo, id).Some? ==>
              var p := LastOf(plans, repo, id).value;
              p in plans && p.repo == repo && p.id == id
    ensures forall k | 0 <= k < |plans| && plans[k].repo == repo && plans[k].id == id ::
              (LastOf(plans, repo, id) == Some(plans[k]) ||
               exists later :: k < later < |plans| && Some(plans[later]) == LastOf(plans, repo, id))
  {
    if plans != [] {
      var n := |plans| - 1;
      LastOfIsLast(plans[..n], repo, id);
      assert plans == plans[..n] + [plans[n]];
    }
  }

  /** indexByRepoID: a later plan replaces an earlier one of the same repository and id. */
  method IndexByRepoId(plans: seq<Plan>) returns (index: map<string, Book>)
    ensures forall repo: string, id: int :: Look(index, repo, id) == LastOf(plans, repo, id)
  {
    index := map[];
    for i := 0 to |plans|
      invariant forall repo: string, id: int :: Look(index, repo, id) == LastOf(plans[..i], repo, id)
    {
      var p := plans[i];
      assert plans[..i+1][..i] == plans[..i];
      if p.repo !in index {
        index := index[p.repo := map[]];
      }
      index := index[p.repo := index[p.repo][p.id := p]];
    }
    assert plans[..|plans|] == plans;
  }

  // ----- The walk -----

  ghost predicate Keyed(book: Book) {
    forall id | id in book :: book[id].id == id
  }

  /** The node of one plan and the ids expanded after it; ids bounds what can be expanded. */
  ghost function Walk(p: Plan, repo: string, book: Book, ids: set<int>, expanded: set<int>): (r: (Node, set<int>))
    requires Keyed(book) && book.Keys <= ids && p.id in ids
    ensures expanded + {p.id} <= r.1
    decreases ids - expanded, 0
  {
    if p.id in expanded then (Node(p, true, []), expanded)
    else
      var below := WalkAll(p.dependsOn, repo, book, ids, expanded + {p.id});
      (Node(p, true, below.0), below.1)
  }

  ghost function WalkAll(deps: seq<int>, repo: string, book: Book, ids: set<int>, expanded: set<int>)
    : (r: (seq<Node>, set<int>))
    requires Keyed(book) && book.Keys <= ids
    ensures expanded <= r.1
    decreases ids - expanded, 1 + |deps|
  {
    if deps == [] then ([], expanded)
    else
      var first := Step(deps[0], repo, book, ids, expanded);
      var rest := WalkAll(deps[1..], repo, book, ids, first.1);
      ([first.0] + rest.0, rest.1)
  }

  /** One edge: an id no plan is known for is kept as a node, not found and not expanded. */
  ghost function Step(dep: int, repo: string, book: Book, ids: set<int>, expanded: set<int>): (r: (Node, set<int>))
    requires Keyed(book) && book.Keys <= ids
    ensures expanded <= r.1
    decreases ids - expanded, 1
  {
    if dep in book then Walk(book[dep], repo, book, ids, expanded)
    else (Node(Plan(dep, repo, []), false, []), expanded)
  }

  class Expanded {
    var ids: set<int>

    constructor ()
      ensures ids == {}
    {
      ids := {};
    }
  }

  function BookOf(index: map<string, Book>, repo: string): Book {
    if repo in index then index[repo] else map[]
  }

  /** walk: expands the plan unless it has been expanded, each upstream in the order declared. */
  method WalkInPlace(p: Plan, repo: string, index: map<string, Book>, expanded: Expanded, ghost ids: set<int>)
    returns (node: Node)
    requires Keyed(BookOf(index, repo)) && BookOf(index, repo).Keys <= ids && p.id in ids
    modifies expanded
    ensures (node, expanded.ids) == Walk(p, repo, BookOf(index, repo), ids, old(expanded.ids))
    decreases ids - expanded.ids
  {
    node := Node(p, true, []);
    if p.id in expanded.ids {
      return;
    }
    expanded.ids := expanded.ids + {p.id};
    ghost var book := BookOf(index, repo);
    ghost var goal := WalkAll(p.dependsOn, repo, book, ids, expanded.ids);
    assert Walk(p, repo, book, ids, old(expanded.ids)) == (Node(p, true, goal.0), goal.1);
    hide Walk;
    hide WalkAll;
    hide Keyed;
    assert p.dependsOn[0..] == p.dependsOn;
    for i := 0 to |p.dependsOn|
      invariant node.plan == p && node.found
      invariant old(expanded.ids) + {p.id} <= expanded.ids
      invariant goal.0 == node.deps + WalkAll(p.dependsOn[i..], repo, book, ids, expanded.ids).0
      invariant goal.1 == WalkAll(p.dependsOn[i..], repo, book, ids, expanded.ids).1
    {
      var dep := p.dependsOn[i];
      WalkAllNext(p.dependsOn, i, repo, book, ids, expanded.ids);
      ghost var first := Step(dep, repo, book, ids, expanded.ids);
      Moved(node.deps, first.0, WalkAll(p.dependsOn[i+1..], repo, book, ids, first.1).0);
      if !(repo in index && dep in index[repo]) {
        node := node.(deps := node.deps + [Node(Plan(dep, repo, []), false, [])]);
      } else {
        assert ids - expanded.ids < ids - old(expanded.ids) by { assert p.id in ids - old(expanded.ids); }
        var child := WalkInPlace(index[repo][dep], repo, index, expanded, ids);
        node := node.(deps := node.deps + [child]);
      }
    }
    WalkAllNone(p.dependsOn, repo, book, ids, expanded.ids);
    assert node.deps + [] == node.deps;
  }

  lemma Moved(done: seq<Node>, next: Node, rest: seq<Node>)
    ensures done + ([next] + rest) == (done + [next]) + rest
  {
  }

  lemma WalkAllNext(deps: seq<int>, i: nat, repo: string, book: Book, ids: set<int>, expanded: set<int>)
    requires Keyed(book) && book.Keys <= ids && i < |deps|
    ensures var first := Step(deps[i], repo, book, ids, expanded);
            var rest := WalkAll(deps[i+1..], repo, book, ids, first.1);
            WalkAll(deps[i..], repo, book, ids, expanded) == ([first.0] + rest.0, rest.1)
  {
    assert deps[i..][0] == deps[i] && deps[i..][1..] == deps[i+1..];
  }

  lemma WalkAllNone(deps: seq<int>, repo: string, book: Book, ids: set<int>, expanded: set<int>)
    requires Keyed(book) && book.Keys <= ids
    ensures WalkAll(deps[|deps|..], repo, book, ids, expanded) == ([], expanded)
  {
  }

  /** Dependencies: the whole tree above one plan. */
  method Dependencies(root: Plan, plans: seq<Plan>) returns (node: Node)
    ensures node == Tree(root, plans)
  {
    var index := IndexByRepoId(plans);
    var expanded := new Expanded();
    ghost var book := BookOf(index, root.repo);
    assert book == Known(plans, root.repo) by {
      forall id: int ensures id in book <==> id in Known(plans, root.repo) {
        assert Look(index, root.repo, id) == LastOf(plans, root.repo, id);
        LastOfIsLast(plans, root.repo, id);
      }
      forall id: int | id in book ensures book[id] == Known(plans, root.repo)[id] {
        assert Look(index, root.repo, id) == LastOf(plans, root.repo, id);
      }
    }
    KnownIsKeyed(plans, root.repo);
    node := WalkInPlace(root, root.repo, index, expanded, book.Keys + {root.id});
  }

  /** The plans of one repository by id, the last of each id. */
  ghost function Known(plans: seq<Plan>, repo: string): Book {
    map id | id in (set p | p in plans :: p.id) && LastOf(plans, repo, id).Some? :: LastOf(plans, repo, id).value
  }

  lemma KnownIsKeyed(plans: seq<Plan>, repo: string)
    ensures Keyed(Known(plans, repo))
  {
    forall id: int ensures LastOf(plans, repo, id).Some? ==> LastOf(plans, repo, id).value.id == id {
      LastOfIsLast(plans, repo, id);
    }
  }

  ghost function Tree(root: Plan, plans: seq<Plan>): Node {
    KnownIsKeyed(plans, root.repo);
    var book := Known(plans, root.repo);
    Walk(root, root.repo, book, book.Keys + {root.id}, {}).0
  }

  // ----- The nodes in the order they are met -----

  function Listed(node: Node): seq<Node> {
    [node] + ListedAll(node.deps)
  }

  function ListedAll(nodes: seq<Node>): seq<Node> {
    if nodes == [] then [] else Listed(nodes[0]) + ListedAll(nodes[1..])
  }

  ghost function FoundIn(list: seq<Node>): set<int> {
    set node | node in list && node.found :: node.plan.id
  }

  ghost function Ids(nodes: seq<Node>): seq<int> {
    seq(|nodes|, k requires 0 <= k < |nodes| => nodes[k].plan.id)
  }

  /** A found plan is expanded, in full and in order, where it is first met and nowhere else. */
  ghost predicate FirstMet(list: seq<Node>, before: set<int>, book: Book) {
    forall k | 0 <= k < |list| && list[k].found ::
      var id := list[k].plan.id;
      if id in before || id in FoundIn(list[..k]) then list[k].deps == []
      else id in book && list[k].plan == book[id] && Ids(list[k].deps) == book[id].dependsOn
  }

  lemma FoundInJoins(a: seq<Node>, b: seq<Node>)
    ensures FoundIn(a + b) == FoundIn(a) + FoundIn(b)
  {
    forall id | id in FoundIn(a) + FoundIn(b) ensures id in FoundIn(a + b) {
      var node :| (node in a || node in b) && node.found && node.plan.id == id;
      assert node in a + b;
    }
  }

  lemma FirstMetJoins(a: seq<Node>, b: seq<Node>, before: set<int>, book: Book)
    requires FirstMet(a, before, book) && FirstMet(b, before + FoundIn(a), book)
    ensures FirstMet(a + b, before, book)
  {
    forall k | 0 <= k < |a + b| && (a + b)[k].found
      ensures var id := (a + b)[k].plan.id;
              if id in before || id in FoundIn((a + b)[..k]) then (a + b)[k].deps == []
              else id in book && (a + b)[k].plan == book[id] && Ids((a + b)[k].deps) == book[id].dependsOn
    {
      if k < |a| {
        assert (a + b)[..k] == a[..k] && (a + b)[k] == a[k];
      } else {
        assert (a + b)[..k] == a + b[..k-|a|] && (a + b)[k] == b[k-|a|];
        FoundInJoins(a, b[..k-|a|]);
      }
    }
  }

  // ----- Reachability -----

  /** A path of edges between known plans, the root's id taken as known. */
  ghost predicate IsPath(path: seq<int>, book: Book) {
    && path != []
    && (forall k | 0 <= k < |path| :: path[k] in book)
    && forall k | 0 <= k < |path| - 1 :: path[k+1] in book[path[k]].dependsOn
  }

  ghost predicate Reachable(book: Book, from: int, to: int) {
    exists path :: IsPath(path, book) && path[0] == from && path[|path|-1] == to
  }

  lemma ReachableSelf(book: Book, id: int)
    requires id in book
    ensures Reachable(book, id, id)
  {
    assert IsPath([id], book);
  }

  lemma ReachableThrough(book: Book, from: int, via: int, to: int)
    requires from in book && via in book[from].dependsOn && Reachable(book, via, to)
    ensures Reachable(book, from, to)
  {
    var path :| IsPath(path, book) && path[0] == via && path[|path|-1] == to;
    assert IsPath([from] + path, book) && ([from] + path)[|path|] == to;
  }

  ghost predicate Closed(ids: set<int>, within: set<int>, book: Book) {
    forall id, dep | id in ids && id in book && dep in book[id].dependsOn && dep in book :: dep in within
  }

  lemma {:induction false} ClosedHoldsPaths(ids: set<int>, book: Book, path: seq<int>)
    requires Closed(ids, ids, book) && IsPath(path, book) && path[0] in ids
    ensures path[|path|-1] in ids
    decreases |path|
  {
    if |path| > 1 {
      var from, to := path[0], path[0+1];
      assert from in ids && from in book && to in book[from].dependsOn && to in book;
      var rest := path[1..];
      forall k | 0 <= k < |rest| - 1 ensures rest[k+1] in book[rest[k]].dependsOn {
        assert path[(k+1)+1] in book[path[k+1]].dependsOn;
      }
      assert rest[0] == to;
      ClosedHoldsPaths(ids, book, rest);
    }
  }

  // ----- Counting edges -----

  ghost function Edges(book: Book): nat {
    if exists id :: id in book then var id :| id in book; |book[id].dependsOn| + Edges(book - {id}) else 0
  }

  lemma {:induction false} EdgesLess(book: Book, id: int)
    requires id in book
    ensures Edges(book) == |book[id].dependsOn| + Edges(book - {id})
    decreases |book|
  {
    var first :| first in book && Edges(book) == |book[first].dependsOn| + Edges(book - {first});
    if first != id {
      EdgesLess(book - {first}, id);
      EdgesLess(book - {id}, first);
      assert book - {first} - {id} == book - {id} - {first};
    }
  }

  lemma {:induction false} EdgesWithin(part: Book, book: Book)
    requires forall id | id in part :: id in book && book[id] == part[id]
    ensures Edges(part) <= Edges(book)
    decreases |part|
  {
    if id :| id in part {
      EdgesLess(part, id);
      EdgesLess(book, id);
      EdgesWithin(part - {id}, book - {id});
    }
  }

  ghost function Part(book: Book, ids: set<int>): Book {
    map id | id in book && id in ids
      :: book[id]
  }

  lemma {:induction false} EdgesSplit(book: Book, a: set<int>, b: set<int>)
    requires a !! b
    ensures Edges(Part(book, a + b)) == Edges(Part(book, a)) + Edges(Part(book, b))
    decreases |a|
  {
    if id :| id in a {
      EdgesSplit(book, a - {id}, b);
      assert a - {id} + b == a + b - {id};
      assert Part(book, a) - {id} == Part(book, a - {id});
      assert Part(book, a + b) - {id} == Part(book, a + b - {id});
      if id in book {
        EdgesLess(Part(book, a), id);
        EdgesLess(Part(book, a + b), id);
      } else {
        assert Part(book, a) == Part(book, a - {id});
        assert Part(book, a + b) == Part(book, a + b - {id});
      }
    } else {
      forall id | id in Part(book, a + b) ensures id in Part(book, b) {
        assert id !in a;
      }
      assert Part(book, a + b) == Part(book, b);
    }
  }

  ghost function EdgesOf(plans: seq<Plan>): nat {
    if plans == [] then 0 else EdgesOf(plans[..|plans|-1]) + |plans[|plans|-1].dependsOn|
  }

  lemma {:induction false} EdgesKnown(plans: seq<Plan>, repo: string)
    ensures Edges(Known(plans, repo)) <= EdgesOf(plans)
  {
    if plans == [] {
      assert Known(plans, repo) == map[];
    } else {
      var init, p := plans[..|plans|-1], plans[|plans|-1];
      EdgesKnown(init, repo);
      var book := Known(plans, repo);
      assert plans == init + [p];
      var left := if p.repo == repo then book - {p.id} else book;
      if p.repo == repo {
        assert LastOf(plans, repo, p.id) == Some(p);
        assert p.id in book;
        EdgesLess(book, p.id);
      }
      forall id | id in left ensures id in Known(init, repo) && Known(init, repo)[id] == left[id] {
        assert LastOf(plans, repo, id) == LastOf(init, repo, id);
        LastOfIsLast(init, repo, id);
      }
      EdgesWithin(left, Known(init, repo));
    }
  }

  // ----- What a walk lists -----

  /** From before to after, the walk met exactly the new ids, each open where first met, and one node
      for every edge of a plan it opened. */
  ghost predicate Walked(list: seq<Node>, before: set<int>, after: set<int>, roots: nat, book: Book) {
    && FoundIn(list) <= after
    && after == before + FoundIn(list)
    && FirstMet(list, before, book)
    && |list| == roots + Edges(Part(book, after - before))
    && after - before <= book.Keys
    && Closed(after - before, after, book)
  }

  lemma WalkedJoins(a: seq<Node>, b: seq<Node>, before: set<int>, mid: set<int>, after: set<int>,
                    ra: nat, rb: nat, book: Book)
    requires Walked(a, before, mid, ra, book) && Walked(b, mid, after, rb, book)
    ensures Walked(a + b, before, after, ra + rb, book)
  {
    FoundInJoins(a, b);
    FirstMetJoins(a, b, before, book);
    EdgesSplit(book, mid - before, after - mid);
    assert after - before == (mid - before) + (after - mid);
  }

  /** book0 resolves the edges, book is book0 with the root's own plan under its id. */
  lemma {:induction false} WalkLists(p: Plan, repo: string, book0: Book, book: Book, ids: set<int>, expanded: set<int>)
    requires Keyed(book0) && book0.Keys <= ids && p.id in ids
    requires Overrides(book, book0, expanded + {p.id})
    requires p.id !in expanded ==> p.id in book && book[p.id] == p
    ensures var r := Walk(p, repo, book0, ids, expanded);
            Walked(Listed(r.0), expanded, r.1, 1, book)
    decreases ids - expanded, 0
  {
    var node := Walk(p, repo, book0, ids, expanded).0;
    assert Listed(node) == [node] + ListedAll(node.deps);
    if p.id in expanded {
      assert Listed(node) == [node];
      assert Part(book, expanded - expanded) == map[];
      assert FoundIn([node]) == {p.id};
    } else {
      WalkAllLists(p.dependsOn, repo, book0, book, ids, expanded + {p.id});
      assert |node.deps| == |Ids(node.deps)|;
      Opens(node, expanded, Walk(p, repo, book0, ids, expanded).1, book);
    }
  }

  /** The two books differ at most at ids expanded already. */
  ghost predicate Overrides(book: Book, book0: Book, expanded: set<int>) {
    forall id | (id in book0 || id in book) && id !in expanded :: id in book0 && id in book && book[id] == book0[id]
  }

  lemma OverridesGrow(book: Book, book0: Book, less: set<int>, more: set<int>)
    requires Overrides(book, book0, less) && less <= more
    ensures Overrides(book, book0, more)
    ensures forall id | id in book0 && id !in less :: id in book && book[id] == book0[id]
    ensures forall id | id in book && id !in less :: id in book0
  {
  }

  lemma Opens(node: Node, before: set<int>, after: set<int>, book: Book)
    requires node.found && node.plan.id !in before && node.plan.id in book && book[node.plan.id] == node.plan
    requires Ids(node.deps) == node.plan.dependsOn
    requires forall dep | dep in node.plan.dependsOn && dep in book :: dep in after
    requires Walked(ListedAll(node.deps), before + {node.plan.id}, after, |node.deps|, book)
    ensures Walked(Listed(node), before, after, 1, book)
  {
    hide FirstMet;
    hide Closed;
    hide Part;
    hide Edges;
    hide ListedAll;
    hide FoundIn;
    assert |Ids(node.deps)| == |node.deps|;
    var id, list := node.plan.id, Listed(node);
    assert FirstMet(ListedAll(node.deps), before + {id}, book);
    OpensFirst(node, before, book);
    OpenedEdges(id, before, after, book);
    OpenedCloses(id, before, after, book);
    assert after == before + FoundIn(list);
  }

  lemma OpenedCloses(id: int, before: set<int>, after: set<int>, book: Book)
    requires id in book && forall dep | dep in book[id].dependsOn && dep in book :: dep in after
    requires Closed(after - (before + {id}), after, book) && after - (before + {id}) <= book.Keys
    ensures Closed(after - before, after, book) && after - before <= book.Keys
  {
  }

  lemma OpenedEdges(id: int, before: set<int>, after: set<int>, book: Book)
    requires id in book && id !in before && id in after
    ensures Edges(Part(book, after - before)) == |book[id].dependsOn| + Edges(Part(book, after - (before + {id})))
  {
    EdgesLess(Part(book, after - before), id);
    assert Part(book, after - before) - {id} == Part(book, after - (before + {id}));
  }

  lemma OpensFirst(node: Node, before: set<int>, book: Book)
    requires node.found && node.plan.id in book && book[node.plan.id] == node.plan
    requires node.plan.id !in before && Ids(node.deps) == node.plan.dependsOn
    requires FirstMet(ListedAll(node.deps), before + {node.plan.id}, book)
    ensures FirstMet(Listed(node), before, book)
    ensures FoundIn(Listed(node)) == {node.plan.id} + FoundIn(ListedAll(node.deps))
  {
    assert FoundIn([node]) == {node.plan.id};
    assert FirstMet([node], before, book) by { assert [node][..0] == []; }
    FoundInJoins([node], ListedAll(node.deps));
    FirstMetJoins([node], ListedAll(node.deps), before, book);
  }

  lemma {:induction false} WalkAllLists(deps: seq<int>, repo: string, book0: Book, book: Book, ids: set<int>,
                                        expanded: set<int>)
    requires Keyed(book0) && book0.Keys <= ids && Overrides(book, book0, expanded)
    ensures var r := WalkAll(deps, repo, book0, ids, expanded);
            && Ids(r.0) == deps
            && (forall dep | dep in deps && dep in book :: dep in r.1)
            && Walked(ListedAll(r.0), expanded, r.1, |deps|, book)
    decreases ids - expanded, 1 + |deps|
  {
    hide Walked;
    hide Overrides;
    if deps == [] {
      UnopenedWalks([], expanded, 0, book);
    } else {
      var dep, rest := deps[0], deps[1..];
      var first := Step(dep, repo, book0, ids, expanded);
      StepLists(dep, repo, book0, book, ids, expanded);
      OverridesGrow(book, book0, expanded, first.1);
      WalkAllLists(rest, repo, book0, book, ids, first.1);
      var r := WalkAll(rest, repo, book0, ids, first.1);
      WalkAllNext(deps, 0, repo, book0, ids, expanded);
      assert deps[0..] == deps;
      hide WalkAll;
      hide Step;
      OneMoreWalked(first.0, r.0, expanded, first.1, r.1, rest, book);
      assert deps == [dep] + rest;
    }
  }

  lemma OneMoreWalked(node: Node, nodes: seq<Node>, before: set<int>, mid: set<int>, after: set<int>, rest: seq<int>,
                      book: Book)
    requires Walked(Listed(node), before, mid, 1, book) && Walked(ListedAll(nodes), mid, after, |rest|, book)
    requires Ids(nodes) == rest
    ensures Walked(ListedAll([node] + nodes), before, after, 1 + |rest|, book)
    ensures Ids([node] + nodes) == [node.plan.id] + rest
  {
    hide Walked;
    assert ([node] + nodes)[1..] == nodes;
    WalkedJoins(Listed(node), ListedAll(nodes), before, mid, after, 1, |rest|, book);
  }

  /** One edge, known or not. */
  lemma {:induction false} StepLists(dep: int, repo: string, book0: Book, book: Book, ids: set<int>, expanded: set<int>)
    requires Keyed(book0) && book0.Keys <= ids && Overrides(book, book0, expanded)
    ensures var first := Step(dep, repo, book0, ids, expanded);
            && Walked(Listed(first.0), expanded, first.1, 1, book)
            && first.0.plan.id == dep && (dep in book ==> dep in first.1)
    decreases ids - expanded, 1
  {
    hide Walked;
    OverridesGrow(book, book0, expanded, expanded);
    if dep in book0 {
      OverridesGrow(book, book0, expanded, expanded + {dep});
      WalkLists(book0[dep], repo, book0, book, ids, expanded);
    } else {
      var node := Step(dep, repo, book0, ids, expanded).0;
      assert Listed(node) == [node];
      UnopenedWalks([node], expanded, 1, book);
    }
  }

  lemma UnopenedWalks(list: seq<Node>, expanded: set<int>, roots: nat, book: Book)
    requires |list| == roots && forall node | node in list :: !node.found
    ensures Walked(list, expanded, expanded, roots, book)
  {
    assert FoundIn(list) == {};
    assert Part(book, expanded - expanded).Keys == {};
  }

  // ----- The tree above a plan -----

  /** The plans the root's edges are followed through: the known ones, and the root itself. */
  ghost function Around(root: Plan, plans: seq<Plan>): Book {
    Known(plans, root.repo)[root.id := root]
  }

  ghost function Opened(root: Plan, plans: seq<Plan>): set<int> {
    KnownIsKeyed(plans, root.repo);
    Walk(root, root.repo, Known(plans, root.repo), Known(plans, root.repo).Keys + {root.id}, {}).1
  }

  lemma TreeWalked(root: Plan, plans: seq<Plan>)
    ensures var list := Listed(Tree(root, plans));
            Walked(list, {}, FoundIn(list), 1, Around(root, plans)) && root.id in FoundIn(list)
    ensures FoundIn(Listed(Tree(root, plans))) == Opened(root, plans)
  {
    KnownIsKeyed(plans, root.repo);
    var known := Known(plans, root.repo);
    assert {} + FoundIn(Listed(Tree(root, plans))) == FoundIn(Listed(Tree(root, plans)));
    WalkLists(root, root.repo, known, Around(root, plans), known.Keys + {root.id}, {});
  }

  /** The ids found in the tree are exactly those the root reaches through known plans. */
  lemma FoundAreTheReachable(root: Plan, plans: seq<Plan>, id: int)
    ensures id in FoundIn(Listed(Tree(root, plans))) <==> Reachable(Around(root, plans), root.id, id)
  {
    var book, list := Around(root, plans), Listed(Tree(root, plans));
    TreeWalked(root, plans);
    var after := FoundIn(list);
    assert after - {} == after;
    if Reachable(book, root.id, id) {
      var path :| IsPath(path, book) && path[0] == root.id && path[|path|-1] == id;
      ClosedHoldsPaths(after, book, path);
    }
    if id in after {
      KnownIsKeyed(plans, root.repo);
      var known := Known(plans, root.repo);
      WalkReaches(root, root.repo, known, book, known.Keys + {root.id}, {}, id);
    }
  }

  /** Every newly expanded id is reachable from the plan walked. */
  lemma {:induction false} WalkReaches(p: Plan, repo: string, book0: Book, book: Book, ids: set<int>,
                                       expanded: set<int>, id: int)
    requires Keyed(book0) && book0.Keys <= ids && p.id in ids && Overrides(book, book0, expanded + {p.id})
    requires p.id !in expanded ==> p.id in book && book[p.id] == p
    requires id in Walk(p, repo, book0, ids, expanded).1 - expanded
    ensures Reachable(book, p.id, id)
    decreases ids - expanded, 0
  {
    if id == p.id {
      ReachableSelf(book, id);
    } else {
      var dep := WalkAllReaches(p.dependsOn, repo, book0, book, ids, expanded + {p.id}, id);
      ReachableThrough(book, p.id, dep, id);
    }
  }

  lemma {:induction false} WalkAllReaches(deps: seq<int>, repo: string, book0: Book, book: Book, ids: set<int>,
                                          expanded: set<int>, id: int) returns (dep: int)
    requires Keyed(book0) && book0.Keys <= ids && Overrides(book, book0, expanded)
    requires id in WalkAll(deps, repo, book0, ids, expanded).1 - expanded
    ensures dep in deps && Reachable(book, dep, id)
    decreases ids - expanded, 1 + |deps|
  {
    hide Reachable;
    var first := Step(deps[0], repo, book0, ids, expanded);
    if id in first.1 {
      dep := deps[0];
      WalkReaches(book0[dep], repo, book0, book, ids, expanded, id);
    } else {
      dep := WalkAllReaches(deps[1..], repo, book0, book, ids, first.1, id);
    }
  }

  /** A plan is opened once, where it is first met, and there shows every edge it declares, in order. */
  lemma EachPlanOpensOnce(root: Plan, plans: seq<Plan>)
    ensures FirstMet(Listed(Tree(root, plans)), {}, Around(root, plans))
  {
    TreeWalked(root, plans);
  }

  /** A second mention of a plan is a leaf, so no id is expanded twice. */
  lemma NoIdOpensTwice(root: Plan, plans: seq<Plan>, j: nat, k: nat)
    requires j < k < |Listed(Tree(root, plans))|
    requires Listed(Tree(root, plans))[j].found && Listed(Tree(root, plans))[k].found
    requires Listed(Tree(root, plans))[j].plan.id == Listed(Tree(root, plans))[k].plan.id
    ensures Listed(Tree(root, plans))[k].deps == []
  {
    EachPlanOpensOnce(root, plans);
    var list := Listed(Tree(root, plans));
    assert list[..k][j] == list[j];
  }

  /** Each upstream node says whether its plan is known, and an unknown one is a leaf. */
  ghost predicate Marked(list: seq<Node>, book0: Book) {
    forall node | node in list ::
      && (!node.found ==> node.deps == [])
      && forall child | child in node.deps :: child.found <==> child.plan.id in book0
  }

  lemma MarkedJoins(a: seq<Node>, b: seq<Node>, book0: Book)
    requires Marked(a, book0) && Marked(b, book0)
    ensures Marked(a + b, book0)
  {
  }

  lemma {:induction false} WalkMarks(p: Plan, repo: string, book0: Book, ids: set<int>, expanded: set<int>)
    requires Keyed(book0) && book0.Keys <= ids && p.id in ids
    ensures Marked(Listed(Walk(p, repo, book0, ids, expanded).0), book0)
    decreases ids - expanded, 0
  {
    var node := Walk(p, repo, book0, ids, expanded).0;
    if p.id !in expanded { WalkAllMarks(p.dependsOn, repo, book0, ids, expanded + {p.id}); }
    MarkedJoins([node], ListedAll(node.deps), book0);
  }

  lemma {:induction false} WalkAllMarks(deps: seq<int>, repo: string, book0: Book, ids: set<int>, expanded: set<int>)
    requires Keyed(book0) && book0.Keys <= ids
    ensures var nodes := WalkAll(deps, repo, book0, ids, expanded).0;
            && Marked(ListedAll(nodes), book0)
            && forall child | child in nodes :: child.found <==> child.plan.id in book0
    decreases ids - expanded, 1 + |deps|
  {
    if deps != [] {
      var first := Step(deps[0], repo, book0, ids, expanded);
      var rest := WalkAll(deps[1..], repo, book0, ids, first.1).0;
      if deps[0] in book0 {
        WalkMarks(book0[deps[0]], repo, book0, ids, expanded);
      } else {
        assert Listed(first.0) == [first.0];
      }
      WalkAllMarks(deps[1..], repo, book0, ids, first.1);
      MarkedJoins(Listed(first.0), ListedAll(rest), book0);
      var nodes := WalkAll(deps, repo, book0, ids, expanded).0;
      assert nodes == [first.0] + rest && nodes[1..] == rest;
    }
  }

  /** An upstream no plan is known for is carried in the tree as not found, and only such an one. */
  lemma UnknownIsCarried(root: Plan, plans: seq<Plan>, node: Node, k: nat)
    requires node in Listed(Tree(root, plans)) && k < |node.deps|
    ensures node.found && (node.deps[k].found <==> LastOf(plans, root.repo, node.deps[k].plan.id).Some?)
  {
    KnownIsKeyed(plans, root.repo);
    var known := Known(plans, root.repo);
    WalkMarks(root, root.repo, known, known.Keys + {root.id}, {});
    LastOfIsLast(plans, root.repo, node.deps[k].plan.id);
    assert node.deps[k] in node.deps;
  }

  /** One node for the root and one for each edge of a reachable plan: never more than the edges declared. */
  lemma NodesAreEdgesPlusOne(root: Plan, plans: seq<Plan>)
    ensures |Listed(Tree(root, plans))| ==
            1 + Edges(Part(Around(root, plans), FoundIn(Listed(Tree(root, plans)))))
    ensures |Listed(Tree(root, plans))| <= 1 + |root.dependsOn| + EdgesOf(plans)
    ensures LastOf(plans, root.repo, root.id) == Some(root) ==> |Listed(Tree(root, plans))| <= 1 + EdgesOf(plans)
  {
    var book, list := Around(root, plans), Listed(Tree(root, plans));
    TreeWalked(root, plans);
    var after := FoundIn(list);
    assert after - {} == after;
    EdgesWithin(Part(book, after), book);
    EdgesKnown(plans, root.repo);
    EdgesLess(book, root.id);
    EdgesWithin(book - {root.id}, Known(plans, root.repo));
    if LastOf(plans, root.repo, root.id) == Some(root) {
      LastOfIsLast(plans, root.repo, root.id);
      assert book == Known(plans, root.repo);
    }
  }
}
