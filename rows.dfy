/** What the site asks of the database when it reads a table: keep the rows
    that pass the equality and range filters, order them by one column,
    and cut the result to a row limit. Rows are values in a sequence. */
module Rows {

  /** A sort key: integers compared lexicographically. A number column is a
      one-element key; a text column is the key of its character codes. */
  type Key = seq<int>

  function NumberKey(n: int): Key {
    [n]
  }

  function TextKey(s: string): Key {
    seq(|s|, i requires 0 <= i < |s| => s[i] as int)
  }

  /** Lexicographic order on keys; a proper prefix comes first. */
  predicate KeyLe(a: Key, b: Key)
    decreases |a|
  {
    if a == [] then true
    else if b == [] then false
    else if a[0] != b[0] then a[0] < b[0]
    else KeyLe(a[1..], b[1..])
  }

  lemma NumberKeyOrder(m: int, n: int)
    ensures KeyLe(NumberKey(m), NumberKey(n)) <==> m <= n
  {
    assert NumberKey(m)[1..] == [] && NumberKey(n)[1..] == [];
  }

  lemma {:induction false} KeyLeTotal(a: Key, b: Key)
    ensures KeyLe(a, b) || KeyLe(b, a)
    decreases |a|
  {
    if a != [] && b != [] && a[0] == b[0] {
      KeyLeTotal(a[1..], b[1..]);
    }
  }

  lemma {:induction false} KeyLeTransitive(a: Key, b: Key, c: Key)
    requires KeyLe(a, b) && KeyLe(b, c)
    ensures KeyLe(a, c)
    decreases |a|
  {
    if a != [] && b != [] && c != [] && a[0] == b[0] && b[0] == c[0] {
      KeyLeTransitive(a[1..], b[1..], c[1..]);
    }
  }

  /** `a` may stand before `b` in an ascending or a descending ordering. */
  predicate InOrder(a: Key, b: Key, descending: bool) {
    if descending then KeyLe(b, a) else KeyLe(a, b)
  }

  lemma InOrderTotal(a: Key, b: Key, descending: bool)
    ensures InOrder(a, b, descending) || InOrder(b, a, descending)
  {
    KeyLeTotal(a, b);
  }

  lemma InOrderTransitive(a: Key, b: Key, c: Key, descending: bool)
    requires InOrder(a, b, descending) && InOrder(b, c, descending)
    ensures InOrder(a, c, descending)
  {
    if descending {
      KeyLeTransitive(c, b, a);
    } else {
      KeyLeTransitive(a, b, c);
    }
  }

  ghost predicate SortedBy<T>(rows: seq<T>, key: T -> Key, descending: bool) {
    forall i, j :: 0 <= i < j < |rows| ==> InOrder(key(rows[i]), key(rows[j]), descending)
  }

  /** `r` holds exactly the rows of `rows` that pass `p`, each as often as
      it occurs there. */
  ghost predicate Selects<T(!new)>(r: seq<T>, rows: seq<T>, p: T -> bool) {
    forall x :: multiset(r)[x] == if p(x) then multiset(rows)[x] else 0
  }

  lemma SelectsMembership<T(!new)>(r: seq<T>, rows: seq<T>, p: T -> bool)
    requires Selects(r, rows, p)
    ensures forall x :: x in r <==> x in rows && p(x)
  {
    forall x ensures x in r <==> x in rows && p(x) {
      assert x in r <==> multiset(r)[x] > 0;
      assert x in rows <==> multiset(rows)[x] > 0;
    }
  }

  /** A selection takes no row more often than the table holds it. */
  lemma SelectsSubMultiset<T(!new)>(r: seq<T>, rows: seq<T>, p: T -> bool)
    requires Selects(r, rows, p)
    ensures multiset(r) <= multiset(rows)
  {
    assert forall x :: multiset(r)[x] <= multiset(rows)[x];
  }

  /** A selection is one row long exactly when one row of the table, held
      once, passes, and no other row does. */
  lemma SelectsSingleton<T(!new)>(r: seq<T>, rows: seq<T>, p: T -> bool)
    requires Selects(r, rows, p)
    ensures |r| == 1 <==> exists x :: multiset(rows)[x] == 1 && p(x) && forall y :: y in rows && p(y) ==> y == x
  {
    SelectsMembership(r, rows, p);
    if |r| == 1 {
      var x := r[0];
      assert multiset(r) == multiset{x};
      assert multiset(rows)[x] == 1 && p(x);
      forall y | y in rows && p(y) ensures y == x {
        assert y in r;
      }
    }
    if x :| multiset(rows)[x] == 1 && p(x) && forall y :: y in rows && p(y) ==> y == x {
      forall z ensures multiset(r)[z] == multiset{x}[z] {
        if z != x && p(z) {
          assert z !in rows;
        }
      }
      assert multiset(r) == multiset{x};
      assert |r| == |multiset(r)| == 1;
    }
  }

  /** The `.eq(...)` / `.lte(...)` filters of a request. */
  function Keep<T(!new)>(rows: seq<T>, p: T -> bool): (r: seq<T>)
    ensures Selects(r, rows, p)
    ensures |r| <= |rows|
  {
    if rows == [] then
      []
    else
      assert rows == [rows[0]] + rows[1..];
      (if p(rows[0]) then [rows[0]] else []) + Keep(rows[1..], p)
  }

  /** Putting `x` in front of an ordered sequence keeps it ordered when `x`
      may precede its first element. */
  lemma PrependSorted<T>(x: T, rows: seq<T>, key: T -> Key, descending: bool)
    requires SortedBy(rows, key, descending)
    requires rows != [] ==> InOrder(key(x), key(rows[0]), descending)
    ensures SortedBy([x] + rows, key, descending)
  {
    var s := [x] + rows;
    forall i, j | 0 <= i < j < |s| ensures InOrder(key(s[i]), key(s[j]), descending) {
      if i == 0 && j > 1 {
        InOrderTransitive(key(x), key(rows[0]), key(rows[j - 1]), descending);
      }
    }
  }

  /** The first row of an ordered sequence may precede every row of its
      tail with one more row (that it may precede) added. */
  lemma HeadPrecedesInserted<T>(x: T, rows: seq<T>, rest: seq<T>, key: T -> Key, descending: bool)
    requires SortedBy(rows, key, descending) && rows != []
    requires InOrder(key(rows[0]), key(x), descending)
    requires multiset(rest) == multiset(rows[1..]) + multiset{x}
    ensures rest != [] && InOrder(key(rows[0]), key(rest[0]), descending)
  {
    assert |rest| == |multiset(rest)|;
    assert rest[0] in multiset(rest);
    if rest[0] != x {
      assert rest[0] in multiset(rows[1..]);
      var k :| 0 <= k < |rows[1..]| && rows[1..][k] == rest[0];
      assert rows[k + 1] == rest[0];
    }
  }

  function Insert<T>(x: T, rows: seq<T>, key: T -> Key, descending: bool): (r: seq<T>)
    requires SortedBy(rows, key, descending)
    ensures SortedBy(r, key, descending)
    ensures multiset(r) == multiset(rows) + multiset{x}
  {
    if rows == [] then
      [x]
    else if InOrder(key(x), key(rows[0]), descending) then
      PrependSorted(x, rows, key, descending);
      [x] + rows
    else
      var rest := Insert(x, rows[1..], key, descending);
      InOrderTotal(key(x), key(rows[0]), descending);
      assert rows == [rows[0]] + rows[1..];
      HeadPrecedesInserted(x, rows, rest, key, descending);
      PrependSorted(rows[0], rest, key, descending);
      [rows[0]] + rest
  }

  /** The `.order(column, { ascending })` of a request. */
  function SortBy<T>(rows: seq<T>, key: T -> Key, descending: bool): (r: seq<T>)
    ensures SortedBy(r, key, descending)
    ensures multiset(r) == multiset(rows)
  {
    if rows == [] then
      []
    else
      assert rows == [rows[0]] + rows[1..];
      Insert(rows[0], SortBy(rows[1..], key, descending), key, descending)
  }

  function Min(a: nat, b: nat): nat {
    if a < b then a else b
  }

  /** The first row of an ordered sequence may precede every one of its rows. */
  lemma HeadLeads<T>(rows: seq<T>, key: T -> Key, descending: bool)
    requires SortedBy(rows, key, descending)
    ensures rows != [] ==> forall x :: x in rows ==> InOrder(key(rows[0]), key(x), descending)
  {
    forall x | x in rows ensures InOrder(key(rows[0]), key(x), descending) {
      var j :| 0 <= j < |rows| && rows[j] == x;
      if j == 0 {
        InOrderTotal(key(x), key(x), descending);
      }
    }
  }

  /** The `.limit(n)` of a request: the first `n` rows, or all of them. */
  function Limit<T>(rows: seq<T>, n: nat): (r: seq<T>)
    ensures |r| == Min(n, |rows|)
    ensures r == rows[..|r|]
  {
    if |rows| <= n then rows else rows[..n]
  }

  /** Cutting an ordered sequence short keeps the rows that come first: a
      row left out never precedes a row kept. */
  lemma LimitKeepsLeading<T>(rows: seq<T>, n: nat, key: T -> Key, descending: bool)
    requires SortedBy(rows, key, descending)
    ensures SortedBy(Limit(rows, n), key, descending)
    ensures multiset(Limit(rows, n)) <= multiset(rows)
    ensures forall x, y :: x in Limit(rows, n) && multiset(Limit(rows, n))[y] < multiset(rows)[y] ==>
      InOrder(key(x), key(y), descending)
  {
    var r := Limit(rows, n);
    var k := |r|;
    assert rows == r + rows[k..];
    forall x, y | x in r && multiset(r)[y] < multiset(rows)[y]
      ensures InOrder(key(x), key(y), descending)
    {
      assert y in multiset(rows[k..]);
      var j :| 0 <= j < |rows[k..]| && rows[k..][j] == y;
      var i :| 0 <= i < k && r[i] == x;
      assert rows[i] == x && rows[k + j] == y;
    }
  }
}
