/** The ORDER BY step of the trial balance: the sort is a sorted permutation, and the only one. */
module BalanceSort {
  import opened Wrappers
  import opened SqlOrder
  import opened Balances

  lemma {:induction false} InsertRowPermutes(x: QueryRow, s: seq<QueryRow>)
    ensures multiset(InsertRow(x, s)) == multiset(s) + multiset{x}
  {
    if s == [] {
    } else if KeyLe(x.Key(), s[0].Key()) {
      assert InsertRow(x, s) == [x] + s;
    } else {
      var rest := InsertRow(x, s[1..]);
      InsertRowPermutes(x, s[1..]);
      assert InsertRow(x, s) == [s[0]] + rest;
      assert s == [s[0]] + s[1..];
    }
  }

  /** A row no later than every row of a sorted sequence can go in front of it. */
  lemma ConsSorted(x: QueryRow, s: seq<QueryRow>)
    requires SortedQueryRows(s)
    requires forall j :: 0 <= j < |s| ==> KeyLe(x.Key(), s[j].Key())
    ensures SortedQueryRows([x] + s)
  {
    var r := [x] + s;
    forall i, j | 0 <= i < j < |r| ensures KeyLe(r[i].Key(), r[j].Key()) {
      assert r[j] == s[j - 1];
      if i > 0 {
        assert r[i] == s[i - 1];
      }
    }
  }

  /** Inserting a later row among the rest of a sorted sequence keeps its head a lower bound. */
  lemma HeadStaysLowest(x: QueryRow, s: seq<QueryRow>)
    requires SortedQueryRows(s) && s != []
    requires KeyLe(s[0].Key(), x.Key())
    ensures forall j :: 0 <= j < |InsertRow(x, s[1..])| ==> KeyLe(s[0].Key(), InsertRow(x, s[1..])[j].Key())
  {
    var rest := InsertRow(x, s[1..]);
    InsertRowPermutes(x, s[1..]);
    forall j | 0 <= j < |rest| ensures KeyLe(s[0].Key(), rest[j].Key()) {
      assert rest[j] in multiset(rest);
      if rest[j] != x {
        assert rest[j] in multiset(s[1..]);
        var k :| 0 <= k < |s| - 1 && s[1..][k] == rest[j];
        assert s[k + 1] == rest[j];
      }
    }
  }

  lemma {:induction false} InsertRowSorted(x: QueryRow, s: seq<QueryRow>)
    requires SortedQueryRows(s)
    ensures SortedQueryRows(InsertRow(x, s))
  {
    if s == [] {
    } else if KeyLe(x.Key(), s[0].Key()) {
      forall j | 0 <= j < |s| ensures KeyLe(x.Key(), s[j].Key()) {
        if j > 0 {
          KeyLeTransitive(x.Key(), s[0].Key(), s[j].Key());
        }
      }
      ConsSorted(x, s);
      assert InsertRow(x, s) == [x] + s;
    } else {
      KeyLeTotal(x.Key(), s[0].Key());
      SortedTailQuery(s);
      InsertRowSorted(x, s[1..]);
      HeadStaysLowest(x, s);
      ConsSorted(s[0], InsertRow(x, s[1..]));
      assert InsertRow(x, s) == [s[0]] + InsertRow(x, s[1..]);
    }
  }

  /** Dropping the first row keeps a key-sorted sequence of query rows sorted. */
  lemma SortedTailQuery(s: seq<QueryRow>)
    requires SortedQueryRows(s) && s != []
    ensures SortedQueryRows(s[1..])
  {
    forall i, j | 0 <= i < j < |s| - 1 ensures KeyLe(s[1..][i].Key(), s[1..][j].Key()) {
      assert s[1..][i] == s[i + 1] && s[1..][j] == s[j + 1];
    }
  }

  /** `ORDER BY` returns its input rows, each as often as it came, in key order. */
  lemma {:induction false} SortRowsCorrect(s: seq<QueryRow>)
    ensures SortedQueryRows(SortRows(s))
    ensures multiset(SortRows(s)) == multiset(s)
  {
    if s != [] {
      SortRowsCorrect(s[1..]);
      InsertRowSorted(s[0], SortRows(s[1..]));
      InsertRowPermutes(s[0], SortRows(s[1..]));
      assert s == [s[0]] + s[1..];
    }
  }

  lemma MapRowsAppend(s: seq<QueryRow>, t: seq<QueryRow>)
    ensures MapRows(s + t) == MapRows(s) + MapRows(t)
  {
  }

  /** Mapping rows one by one maps equal multisets of rows to equal multisets. */
  lemma {:induction false} MapRowsPermutes(s: seq<QueryRow>, t: seq<QueryRow>)
    requires multiset(s) == multiset(t)
    ensures multiset(MapRows(s)) == multiset(MapRows(t))
    decreases |s|
  {
    if s == [] {
      assert |multiset(t)| == 0;
    } else {
      var x := s[0];
      assert x in multiset(t);
      var k :| 0 <= k < |t| && t[k] == x;
      var t' := t[..k] + t[k + 1..];
      assert t == t[..k] + [x] + t[k + 1..];
      assert s == [x] + s[1..];
      assert multiset(t) == multiset(t[..k]) + multiset{x} + multiset(t[k + 1..]);
      assert multiset(t') == multiset(t[..k]) + multiset(t[k + 1..]);
      assert multiset(s) == multiset{x} + multiset(s[1..]);
      assert multiset(s[1..]) == multiset(s) - multiset{x};
      assert multiset(t') == multiset(t) - multiset{x};
      MapRowsPermutes(s[1..], t');
      MapRowsAppend([x], s[1..]);
      MapRowsAppend(t[..k] + [x], t[k + 1..]);
      MapRowsAppend(t[..k], [x]);
      MapRowsAppend(t[..k], t[k + 1..]);
    }
  }

  /** The key tells apart any two distinct rows of `m`. */
  ghost predicate KeyDetermines(m: multiset<BalanceRow>) {
    forall x, y :: x in m && y in m && x.Key() == y.Key() ==> x == y
  }

  /** The first rows of two key-sorted arrangements of the same rows are the same row. */
  lemma SortedArrangementsStartAlike(s: seq<BalanceRow>, t: seq<BalanceRow>)
    requires SortedBalanceRows(s) && SortedBalanceRows(t)
    requires multiset(s) == multiset(t) && s != []
    requires KeyDetermines(multiset(s))
    ensures t != [] && s[0] == t[0]
  {
    assert s[0] in multiset(t);
    assert t != [] && t[0] in multiset(s);
    var k :| 0 <= k < |t| && t[k] == s[0];
    var l :| 0 <= l < |s| && s[l] == t[0];
    if k == 0 { KeyLeReflexive(t[0].Key()); }
    if l == 0 { KeyLeReflexive(s[0].Key()); }
    KeyLeAntisymmetric(s[0].Key(), t[0].Key());
  }

  lemma KeyDeterminesSub(m: multiset<BalanceRow>, n: multiset<BalanceRow>)
    requires KeyDetermines(m) && n <= m
    ensures KeyDetermines(n)
  {
  }

  /** Dropping the first row keeps a key-sorted sequence sorted. */
  lemma SortedTail(s: seq<BalanceRow>)
    requires SortedBalanceRows(s) && s != []
    ensures SortedBalanceRows(s[1..])
  {
    forall i, j | 0 <= i < j < |s| - 1 ensures KeyLe(s[1..][i].Key(), s[1..][j].Key()) {
      assert s[1..][i] == s[i + 1] && s[1..][j] == s[j + 1];
    }
  }

  /** Two arrangements of the same rows that start alike have tails with the same rows. */
  lemma SameHeadSameTails(s: seq<BalanceRow>, t: seq<BalanceRow>)
    requires s != [] && t != [] && s[0] == t[0]
    requires multiset(s) == multiset(t)
    ensures multiset(s[1..]) == multiset(t[1..]) && multiset(s[1..]) <= multiset(s)
  {
    assert s == [s[0]] + s[1..] && t == [t[0]] + t[1..];
    assert multiset(s) == multiset{s[0]} + multiset(s[1..]);
    assert multiset(t) == multiset{t[0]} + multiset(t[1..]);
    assert multiset(s[1..]) == multiset(s) - multiset{s[0]};
    assert multiset(t[1..]) == multiset(t) - multiset{t[0]};
  }

  /**
   * Two key-sorted arrangements of the same rows are the same sequence once the
   * key tells rows apart: ORDER BY then leaves no choice.
   */
  lemma {:induction false} SortedArrangementUnique(s: seq<BalanceRow>, t: seq<BalanceRow>)
    requires SortedBalanceRows(s) && SortedBalanceRows(t)
    requires multiset(s) == multiset(t)
    requires KeyDetermines(multiset(s))
    ensures s == t
    decreases |s|
  {
    if s == [] {
      assert |multiset(t)| == 0;
    } else {
      SortedArrangementsStartAlike(s, t);
      SameHeadSameTails(s, t);
      SortedTail(s);
      SortedTail(t);
      KeyDeterminesSub(multiset(s), multiset(s[1..]));
      SortedArrangementUnique(s[1..], t[1..]);
      assert s == [s[0]] + s[1..] && t == [t[0]] + t[1..];
    }
  }
}
