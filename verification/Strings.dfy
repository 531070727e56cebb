/** Strings in order: the order sort.Strings and `<` use, and sorted key lists. */
module Strings {
  /** a < b, character by character, a proper prefix first. */
  predicate Less(a: string, b: string) {
    b != [] && (a == [] || a[0] < b[0] || (a[0] == b[0] && Less(a[1..], b[1..])))
  }

  lemma {:induction false} LessIrreflexive(a: string)
    ensures !Less(a, a)
  {
    if a != [] { LessIrreflexive(a[1..]); }
  }

  lemma {:induction false} LessTrans(a: string, b: string, c: string)
    requires Less(a, b) && Less(b, c)
    ensures Less(a, c)
    decreases |a|
  {
    if a != [] && a[0] == b[0] && b[0] == c[0] { LessTrans(a[1..], b[1..], c[1..]); }
  }

  lemma {:induction false} LessTotal(a: string, b: string)
    ensures a == b || Less(a, b) || Less(b, a)
    decreases |a|
  {
    if a != [] && b != [] && a[0] == b[0] {
      LessTotal(a[1..], b[1..]);
      assert a == [a[0]] + a[1..] && b == [b[0]] + b[1..];
    }
  }

  /** Strictly ascending. */
  predicate Sorted(s: seq<string>) {
    forall i, j | 0 <= i < j < |s| :: Less(s[i], s[j])
  }

  /** x put in its place. */
  function Insert(s: seq<string>, x: string): (r: seq<string>)
    ensures |r| == |s| + 1
  {
    if s == [] || Less(x, s[0]) then [x] + s else [s[0]] + Insert(s[1..], x)
  }

  lemma {:induction false} InsertElements(s: seq<string>, x: string)
    ensures forall y :: y in Insert(s, x) <==> y == x || y in s
  {
    if s != [] && !Less(x, s[0]) {
      InsertElements(s[1..], x);
      assert s == [s[0]] + s[1..];
    }
  }

  lemma {:induction false} InsertSorted(s: seq<string>, x: string)
    requires Sorted(s) && x !in s
    ensures Sorted(Insert(s, x))
  {
    if s == [] {
    } else if Less(x, s[0]) {
      forall j | 0 < j < |s| ensures Less(x, s[j]) { LessTrans(x, s[0], s[j]); }
    } else {
      var t := s[1..];
      assert s == [s[0]] + t;
      InsertSorted(t, x);
      InsertElements(t, x);
      LessTotal(x, s[0]);
      var r := Insert(t, x);
      forall j | 0 <= j < |r| ensures Less(s[0], r[j]) {
        assert r[j] in r;
        if r[j] != x {
          var k :| 0 <= k < |t| && t[k] == r[j];
          assert s[k+1] == t[k];
        }
      }
    }
  }

  /** The keys of a map, listed in whatever order iteration gives, then sorted. */
  method SortKeys(keys: set<string>) returns (sorted: seq<string>)
    ensures Sorted(sorted) && forall k :: k in keys <==> k in sorted
  {
    sorted := [];
    var left := keys;
    while left != {}
      invariant left <= keys && Sorted(sorted)
      invariant forall k :: k in keys <==> k in left || k in sorted
      invariant forall k | k in left :: k !in sorted
    {
      var k :| k in left;
      InsertElements(sorted, k);
      InsertSorted(sorted, k);
      sorted := Insert(sorted, k);
      left := left - {k};
    }
  }

  lemma SortedDistinct(s: seq<string>, i: nat, j: nat)
    requires Sorted(s) && i < j < |s|
    ensures s[i] != s[j]
  {
    LessIrreflexive(s[i]);
  }

  lemma HeadsAgree(a: seq<string>, b: seq<string>)
    requires Sorted(a) && Sorted(b) && a != [] && b != [] && a[0] in b && b[0] in a
    ensures a[0] == b[0]
  {
    var i :| 0 <= i < |b| && b[i] == a[0];
    var j :| 0 <= j < |a| && a[j] == b[0];
    if i > 0 && j > 0 {
      LessTrans(b[0], a[0], b[0]);
      LessIrreflexive(b[0]);
    }
  }

  /** One set of keys has one sorted listing. */
  lemma {:induction false} SortedUnique(a: seq<string>, b: seq<string>)
    requires Sorted(a) && Sorted(b) && forall k :: k in a <==> k in b
    ensures a == b
  {
    assert |a| > 0 ==> a[0] in a;
    assert |b| > 0 ==> b[0] in b;
    if a != [] && b != [] {
      HeadsAgree(a, b);
      assert a == [a[0]] + a[1..] && b == [b[0]] + b[1..];
      forall k ensures k in a[1..] <==> k in b[1..] {
        if k in a[1..] {
          var i :| 1 <= i < |a| && a[i] == k;
          SortedDistinct(a, 0, i);
          assert k in b;
        }
        if k in b[1..] {
          var i :| 1 <= i < |b| && b[i] == k;
          SortedDistinct(b, 0, i);
          assert k in a;
        }
      }
      SortedUnique(a[1..], b[1..]);
    }
  }

  /** The sorted listing of a set of keys. */
  ghost function InOrder(keys: set<string>): (s: seq<string>)
    ensures Sorted(s) && forall k :: k in keys <==> k in s
  {
    if keys == {} then []
    else
      var k :| k in keys;
      InsertElements(InOrder(keys - {k}), k);
      InsertSorted(InOrder(keys - {k}), k);
      Insert(InOrder(keys - {k}), k)
  }
}
