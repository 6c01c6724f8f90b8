/**
 * The order of `ORDER BY a.code NULLS LAST, a.id`: text compared code point by
 * code point (PostgreSQL's "C" collation), NULL codes after every non-NULL one,
 * and the id as the second key.
 */
module SqlOrder {
  import opened Wrappers

  /** Strict lexicographic order on strings; a proper prefix comes first. */
  predicate TextLess(a: string, b: string) {
    if a == [] then b != []
    else if b == [] then false
    else a[0] < b[0] || (a[0] == b[0] && TextLess(a[1..], b[1..]))
  }

  lemma {:induction false} TextLessIrreflexive(a: string)
    ensures !TextLess(a, a)
  {
    if a != [] {
      TextLessIrreflexive(a[1..]);
    }
  }

  lemma {:induction false} TextLessTransitive(a: string, b: string, c: string)
    requires TextLess(a, b) && TextLess(b, c)
    ensures TextLess(a, c)
  {
    if a != [] && a[0] == b[0] && b[0] == c[0] {
      TextLessTransitive(a[1..], b[1..], c[1..]);
    }
  }

  lemma {:induction false} TextLessTotal(a: string, b: string)
    requires a != b
    ensures TextLess(a, b) || TextLess(b, a)
  {
    if a != [] && b != [] && a[0] == b[0] {
      assert a == [a[0]] + a[1..] && b == [b[0]] + b[1..];
      TextLessTotal(a[1..], b[1..]);
    }
  }

  lemma {:induction false} TextLessAsymmetric(a: string, b: string)
    requires TextLess(a, b)
    ensures !TextLess(b, a)
  {
    if a != [] && b != [] && a[0] == b[0] {
      TextLessAsymmetric(a[1..], b[1..]);
    }
  }

  /** The sort key of a report row. */
  datatype SortKey = SortKey(code: Option<string>, id: int)

  /** `k` may come before `l`. */
  predicate KeyLe(k: SortKey, l: SortKey) {
    match k.code
    case Some(c) =>
      (match l.code
       case Some(d) => TextLess(c, d) || (c == d && k.id <= l.id)
       case None => true)
    case None => l.code.None? && k.id <= l.id
  }

  lemma KeyLeReflexive(k: SortKey)
    ensures KeyLe(k, k)
  {
  }

  lemma KeyLeTotal(k: SortKey, l: SortKey)
    ensures KeyLe(k, l) || KeyLe(l, k)
  {
    if k.code.Some? && l.code.Some? && k.code.value != l.code.value {
      TextLessTotal(k.code.value, l.code.value);
    }
  }

  lemma KeyLeTransitive(k: SortKey, l: SortKey, m: SortKey)
    requires KeyLe(k, l) && KeyLe(l, m)
    ensures KeyLe(k, m)
  {
    if k.code.Some? && l.code.Some? && m.code.Some? {
      var c, d, e := k.code.value, l.code.value, m.code.value;
      if TextLess(c, d) && TextLess(d, e) {
        TextLessTransitive(c, d, e);
      }
    }
  }

  /** Two rows that may each come before the other have the same code and id. */
  lemma KeyLeAntisymmetric(k: SortKey, l: SortKey)
    requires KeyLe(k, l) && KeyLe(l, k)
    ensures k == l
  {
    if k.code.Some? && l.code.Some? {
      var c, d := k.code.value, l.code.value;
      if TextLess(c, d) {
        TextLessAsymmetric(c, d);
      }
      if c == d {
        TextLessIrreflexive(c);
      }
    }
  }
}
