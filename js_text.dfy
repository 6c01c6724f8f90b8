/**
 * The few JavaScript string operations that the database-host rule uses:
 * `String.prototype.trim`, `startsWith` and `includes`, on strings of code points.
 */
module JsText {

  /**
   * The characters `trim` removes: ECMAScript WhiteSpace (tab, vertical tab,
   * form feed, no-break space, the byte order mark and every space separator)
   * and LineTerminator (line feed, carriage return, line and paragraph separator).
   */
  predicate IsTrimmable(c: char) {
    if c < '\U{00A0}' then ('\t' <= c <= '\r') || c == ' '
    else c == '\U{00A0}' || c == '\U{1680}' || ('\U{2000}' <= c <= '\U{200A}') ||
         c == '\U{2028}' || c == '\U{2029}' || c == '\U{202F}' || c == '\U{205F}' ||
         c == '\U{3000}' || c == '\U{FEFF}'
  }

  /** Neither end of `s` is a character that `trim` removes. */
  predicate Trimmed(s: string) {
    s == [] || (!IsTrimmable(s[0]) && !IsTrimmable(s[|s| - 1]))
  }

  /** `s` without its leading trimmable characters: the longest suffix that starts otherwise. */
  function TrimStart(s: string): (r: string)
    ensures |r| <= |s| && r == s[|s| - |r|..]
    ensures forall k :: 0 <= k < |s| - |r| ==> IsTrimmable(s[k])
    ensures r == [] || !IsTrimmable(r[0])
  {
    if s != [] && IsTrimmable(s[0]) then TrimStart(s[1..]) else s
  }

  /** `s` without its trailing trimmable characters: the longest prefix that ends otherwise. */
  function TrimEnd(s: string): (r: string)
    ensures |r| <= |s| && r == s[..|r|]
    ensures forall k :: |r| <= k < |s| ==> IsTrimmable(s[k])
    ensures r == [] || !IsTrimmable(r[|r| - 1])
  {
    if s != [] && IsTrimmable(s[|s| - 1]) then TrimEnd(s[..|s| - 1]) else s
  }

  /** How many characters `TrimStart` drops from the front of `s`. */
  function LeadingCount(s: string): (n: nat)
    ensures n <= |s|
  {
    |s| - |TrimStart(s)|
  }

  /** `s.trim()`: `s` without its leading and its trailing trimmable characters. */
  function Trim(s: string): (r: string)
    ensures Trimmed(r)
  {
    var t := TrimStart(s);
    var r := TrimEnd(t);
    assert r != [] ==> r[0] == t[0];
    r
  }

  /** What `Trim` keeps is one slice of `s`. */
  lemma TrimIsSlice(s: string)
    ensures LeadingCount(s) + |Trim(s)| <= |s|
    ensures Trim(s) == s[LeadingCount(s)..LeadingCount(s) + |Trim(s)|]
  {
    var t := TrimStart(s);
    var n := |s| - |t|;
    assert t == s[n..];
  }

  /** All that `Trim` drops, before and after the slice it keeps, is trimmable. */
  lemma TrimDropsTrimmable(s: string)
    ensures forall k :: 0 <= k < LeadingCount(s) ==> IsTrimmable(s[k])
    ensures forall k :: LeadingCount(s) + |Trim(s)| <= k < |s| ==> IsTrimmable(s[k])
  {
    var t := TrimStart(s);
    var r := TrimEnd(t);
    var n := |s| - |t|;
    assert t == s[n..];
    forall k | n + |r| <= k < |s| ensures IsTrimmable(s[k]) {
      assert s[k] == t[k - n];
    }
  }

  /** Trimming a string whose ends are already kept returns it unchanged. */
  lemma TrimKeepsTrimmed(s: string)
    requires Trimmed(s)
    ensures Trim(s) == s
  {
    assert TrimStart(s) == s;
    assert TrimEnd(s) == s;
  }

  /** Trimming twice is trimming once. */
  lemma TrimIdempotent(s: string)
    ensures Trim(Trim(s)) == Trim(s)
  {
    TrimKeepsTrimmed(Trim(s));
  }

  /** `s.startsWith(p)`. */
  predicate StartsWith(s: string, p: string) {
    |p| <= |s| && s[..|p|] == p
  }
}
