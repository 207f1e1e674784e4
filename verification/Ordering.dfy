/** The order Go's `<` gives two strings, and what `sort.Slice` makes of a set of
    distinct identifiers: its one strictly ascending listing.

    Go compares the UTF-8 bytes of the two strings; that order coincides with the
    order of their code points, which is what `char` compares.
 */
module Ordering {

  function Elems<T>(s: seq<T>): set<T> {
    set x | x in s
  }

  predicate Distinct<T(==)>(s: seq<T>) {
    forall i, j :: 0 <= i < j < |s| ==> s[i] != s[j]
  }

  /** `a < b` on strings. */
  predicate Below(a: string, b: string) {
    b != [] && (a == [] || a[0] < b[0] || (a[0] == b[0] && Below(a[1..], b[1..])))
  }

  lemma BelowIrreflexive(a: string)
    ensures !Below(a, a)
  {
  }

  lemma BelowTransitive(a: string, b: string, c: string)
    requires Below(a, b) && Below(b, c)
    ensures Below(a, c)
  {
  }

  lemma {:induction false} BelowTotal(a: string, b: string)
    ensures a == b || Below(a, b) || Below(b, a)
  {
    if a != [] && b != [] && a[0] == b[0] {
      BelowTotal(a[1..], b[1..]);
      assert a == [a[0]] + a[1..] && b == [b[0]] + b[1..];
    }
  }

  /** A common prefix does not change the order of two strings. */
  lemma {:induction false} BelowPrefix(p: string, a: string, b: string)
    ensures Below(p + a, p + b) == Below(a, b)
  {
    if p == [] {
      assert p + a == a && p + b == b;
    } else {
      assert (p + a)[1..] == p[1..] + a && (p + b)[1..] == p[1..] + b;
      BelowPrefix(p[1..], a, b);
    }
  }

  predicate Ascending(ids: seq<string>) {
    forall i, j :: 0 <= i < j < |ids| ==> Below(ids[i], ids[j])
  }

  predicate IsLeast(m: string, s: set<string>) {
    m in s && forall x :: x in s ==> x == m || Below(m, x)
  }

  lemma {:induction false} LeastExists(s: set<string>)
    requires s != {}
    ensures exists m :: IsLeast(m, s)
    decreases |s|
  {
    var x :| x in s;
    var rest := s - {x};
    if rest == {} {
      assert s == {x};
      assert IsLeast(x, s);
    } else {
      LeastExists(rest);
      var m :| IsLeast(m, rest);
      BelowTotal(x, m);
      if Below(x, m) {
        forall y | y in s ensures y == x || Below(x, y) {
          if y != x && y != m { BelowTransitive(x, m, y); }
        }
        assert IsLeast(x, s);
      } else {
        assert IsLeast(m, s);
      }
    }
  }

  /** The identifiers of `s` in ascending order. */
  ghost function Sorting(s: set<string>): (ids: seq<string>)
    ensures Ascending(ids) && Elems(ids) == s && |ids| == |s|
    decreases |s|
  {
    if s == {} then []
    else
      LeastExists(s);
      var m :| IsLeast(m, s);
      PrependLeast(s, m, Sorting(s - {m}));
      [m] + Sorting(s - {m})
  }

  lemma PrependLeast(s: set<string>, m: string, rest: seq<string>)
    requires IsLeast(m, s) && Ascending(rest) && Elems(rest) == s - {m}
    ensures Ascending([m] + rest) && Elems([m] + rest) == s
  {
    forall i | 0 <= i < |rest| ensures Below(m, rest[i]) {
      assert rest[i] in Elems(rest);
    }
    assert Elems([m] + rest) == {m} + Elems(rest);
  }

  lemma AscendingDistinct(ids: seq<string>)
    requires Ascending(ids)
    ensures Distinct(ids)
  {
    forall i, j | 0 <= i < j < |ids| ensures ids[i] != ids[j] {
      BelowIrreflexive(ids[i]);
    }
  }

  /** Two ascending listings of the same identifiers are the same listing. */
  lemma {:induction false} AscendingUnique(a: seq<string>, b: seq<string>)
    requires Ascending(a) && Ascending(b) && Elems(a) == Elems(b)
    ensures a == b
  {
    assert forall x :: (x in a <==> x in Elems(a)) && (x in b <==> x in Elems(b));
    assert a != [] ==> a[0] in b;
    assert b != [] ==> b[0] in a;
    if a != [] {
      AscendingHead(a, b);
      AscendingHead(b, a);
      HeadsAgree(a[0], b[0]);
      AscendingDistinct(a);
      AscendingDistinct(b);
      assert a == [a[0]] + a[1..] && b == [b[0]] + b[1..];
      assert Elems(a[1..]) == Elems(a) - {a[0]};
      assert Elems(b[1..]) == Elems(b) - {b[0]};
      AscendingUnique(a[1..], b[1..]);
    }
  }

  lemma AscendingHead(a: seq<string>, b: seq<string>)
    requires a != [] && Ascending(b) && a[0] in b
    ensures b[0] == a[0] || Below(b[0], a[0])
  {
  }

  lemma HeadsAgree(x: string, y: string)
    requires (x == y || Below(x, y)) && (y == x || Below(y, x))
    ensures x == y
  {
    if x != y {
      BelowTransitive(x, y, x);
      BelowIrreflexive(x);
    }
  }

  lemma SortingIs(ids: seq<string>, s: set<string>)
    requires Ascending(ids) && Elems(ids) == s
    ensures ids == Sorting(s)
  {
    AscendingUnique(ids, Sorting(s));
  }

  /** `sort.Slice` over the keys of a map: takes them in any order, yields them ascending. */
  method SortIds(keys: set<string>) returns (ids: seq<string>)
    ensures ids == Sorting(keys)
  {
    var todo := keys;
    ids := [];
    while todo != {}
      invariant todo <= keys
      invariant Ascending(ids)
      invariant Elems(ids) == keys - todo
      decreases |todo|
    {
      var id :| id in todo;
      todo := todo - {id};
      ids := Insert(ids, id);
    }
    SortingIs(ids, keys);
  }

  method Insert(ids: seq<string>, id: string) returns (r: seq<string>)
    requires Ascending(ids) && id !in Elems(ids)
    ensures Ascending(r) && Elems(r) == Elems(ids) + {id}
  {
    var k := 0;
    while k < |ids| && Below(ids[k], id)
      invariant 0 <= k <= |ids|
      invariant forall i :: 0 <= i < k ==> Below(ids[i], id)
    {
      k := k + 1;
    }
    if k < |ids| {
      assert ids[k] in Elems(ids);
      BelowTotal(id, ids[k]);
    }
    InsertAt(ids, id, k);
    r := ids[..k] + [id] + ids[k..];
  }

  lemma InsertAt(ids: seq<string>, id: string, k: nat)
    requires Ascending(ids) && k <= |ids|
    requires forall i :: 0 <= i < k ==> Below(ids[i], id)
    requires k < |ids| ==> Below(id, ids[k])
    ensures Ascending(ids[..k] + [id] + ids[k..])
    ensures Elems(ids[..k] + [id] + ids[k..]) == Elems(ids) + {id}
  {
    var r := ids[..k] + [id] + ids[k..];
    forall i | k <= i < |ids| ensures Below(id, ids[i]) {
      if k < i { BelowTransitive(id, ids[k], ids[i]); }
    }
    assert ids == ids[..k] + ids[k..];
    assert forall x :: x in r <==> x in ids || x == id;
  }

  /** The number of elements a list of distinct identifiers names. */
  lemma {:induction false} DistinctCount<T>(s: seq<T>)
    requires Distinct(s)
    ensures |Elems(s)| == |s|
  {
    if s != [] {
      DistinctCount(s[1..]);
      assert s == [s[0]] + s[1..];
      assert Elems(s) == {s[0]} + Elems(s[1..]);
      assert s[0] !in s[1..];
    } else {
      assert Elems(s) == {};
    }
  }

  lemma SubsetCount<T>(a: set<T>, b: set<T>)
    requires a <= b
    ensures |a| <= |b|
    ensures a != b ==> |a| < |b|
  {
    assert b == a + (b - a);
    assert |b| == |a| + |b - a|;
  }

  // ------------------------------------------------------------------ joined texts

  /** What follows the last separator determines where it is. */
  lemma LastField(sep: char, a: string, b: string, x: string, y: string)
    requires sep !in x && sep !in y && a + [sep] + x == b + [sep] + y
    ensures a == b && x == y
  {
    LastSeparator(sep, a, x);
    LastSeparator(sep, b, y);
    var s := a + [sep] + x;
    assert |a| == |b|;
    assert s[..|a|] == a && s[..|b|] == b && s[|a| + 1..] == x && s[|b| + 1..] == y;
  }

  lemma LastSeparator(sep: char, a: string, x: string)
    requires sep !in x
    ensures var s := a + [sep] + x;
            s[|a|] == sep && forall i :: |a| < i < |s| ==> s[i] != sep
  {
  }
}
