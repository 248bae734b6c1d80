/** Small shared definitions. */
module Wrappers {

  /** A value that may be absent (a nullable reference in the host). */
  datatype Option<+T> = None | Some(value: T) {
    function GetOr(default: T): T
    {
      match this
      case Some(v) => v
      case None => default
    }
  }
}

/** The string operations of the host runtime that the plugin relies on,
    restricted to what the plugin uses them for. */
module Text {

  // ---------------------------------------------------------------------
  // Decimal rendering of counters (string interpolation of an integer)
  // ---------------------------------------------------------------------

  function DigitChar(d: nat): (c: char)
    requires d < 10
    ensures '0' <= c <= '9'
  {
    ['0', '1', '2', '3', '4', '5', '6', '7', '8', '9'][d]
  }

  function DigitValue(c: char): (d: nat)
    requires '0' <= c <= '9'
    ensures d < 10 && DigitChar(d) == c
  {
    (c - '0') as nat
  }

  /** The decimal digits of n, most significant first, without leading zeros. */
  function NatToString(n: nat): (s: string)
    ensures |s| >= 1
    ensures forall i :: 0 <= i < |s| ==> '0' <= s[i] <= '9'
    ensures |s| > 1 ==> s[0] != '0'
  {
    if n < 10 then [DigitChar(n)] else NatToString(n / 10) + [DigitChar(n % 10)]
  }

  /** The number a string of decimal digits denotes. */
  function ParseNat(s: string): nat
    requires forall i :: 0 <= i < |s| ==> '0' <= s[i] <= '9'
  {
    if s == [] then 0 else ParseNat(s[..|s| - 1]) * 10 + DigitValue(s[|s| - 1])
  }

  /** Rendering a counter loses nothing: the number can be read back. */
  lemma {:induction false} ParseNatToString(n: nat)
    ensures ParseNat(NatToString(n)) == n
  {
    if n >= 10 {
      var q, d := n / 10, n % 10;
      var s := NatToString(n);
      assert s == NatToString(q) + [DigitChar(d)];
      assert s[..|s| - 1] == NatToString(q);
      assert DigitValue(s[|s| - 1]) == d;
      ParseNatToString(q);
      assert ParseNat(s) == q * 10 + d;
    }
  }

  /** Distinct counters render as distinct strings. */
  lemma NatToStringInjective(m: nat, n: nat)
    ensures NatToString(m) == NatToString(n) <==> m == n
  {
    ParseNatToString(m);
    ParseNatToString(n);
  }

  // ---------------------------------------------------------------------
  // Case folding (ASCII letters; the culture-specific rules of the host
  // are not modelled)
  // ---------------------------------------------------------------------

  function LowerChar(c: char): char
  {
    if 'A' <= c <= 'Z' then c - 'A' + 'a' else c
  }

  /** The string with every ASCII capital replaced by its small letter. */
  function Lower(s: string): (r: string)
    ensures |r| == |s|
    ensures forall i :: 0 <= i < |s| ==> r[i] == LowerChar(s[i])
    ensures forall i :: 0 <= i < |r| ==> !('A' <= r[i] <= 'Z')
  {
    if s == [] then [] else [LowerChar(s[0])] + Lower(s[1..])
  }

  /** Lowering is idempotent. */
  lemma LowerIdempotent(s: string)
    ensures Lower(Lower(s)) == Lower(s)
  {
  }

  /** Lowering adds no space to a string without one. */
  lemma LowerAddsNoSpace(s: string)
    requires ' ' !in s
    ensures ' ' !in Lower(s)
  {
    forall i | 0 <= i < |s|
      ensures Lower(s)[i] != ' '
    {
      assert s[i] in s;
    }
  }

  /** Ordinal case-insensitive equality of two strings. */
  predicate EqualsIgnoreCase(a: string, b: string)
  {
    |a| == |b| && forall i :: 0 <= i < |a| ==> LowerChar(a[i]) == LowerChar(b[i])
  }

  /** s begins with p, compared ordinally and ignoring case. */
  predicate StartsWithIgnoreCase(s: string, p: string)
  {
    |p| <= |s| && EqualsIgnoreCase(s[..|p|], p)
  }

  /** A string whose i-th character differs, ignoring case, from that of p
      does not start with p. */
  lemma DiffersAt(s: string, p: string, i: nat)
    requires i < |p| && i < |s| && LowerChar(s[i]) != LowerChar(p[i])
    ensures !StartsWithIgnoreCase(s, p)
  {
    if |p| <= |s| {
      assert s[..|p|][i] == s[i];
    }
  }

  /** Case-insensitive prefix matching is matching of the lowered strings. */
  lemma StartsWithIgnoreCaseLowered(s: string, p: string)
    ensures StartsWithIgnoreCase(s, p) <==> |p| <= |s| && Lower(s)[..|p|] == Lower(p)
  {
    if |p| <= |s| && StartsWithIgnoreCase(s, p) {
      assert forall i :: 0 <= i < |p| ==> Lower(s)[..|p|][i] == Lower(p)[i];
    }
  }

  // ---------------------------------------------------------------------
  // Substring search (ordinal)
  // ---------------------------------------------------------------------

  /** sub occurs in s at position i. */
  predicate OccursAt(s: string, sub: string, i: int)
  {
    0 <= i && i + |sub| <= |s| && s[i..i + |sub|] == sub
  }

  /** Ordinal substring search. */
  function Contains(s: string, sub: string): (r: bool)
    ensures r <==> exists i :: OccursAt(s, sub, i)
    decreases |s|
  {
    if |sub| <= |s| && s[..|sub|] == sub then
      assert OccursAt(s, sub, 0);
      true
    else if s == [] then
      assert forall i :: !OccursAt(s, sub, i);
      false
    else
      var r := Contains(s[1..], sub);
      assert forall i :: OccursAt(s[1..], sub, i) <==> OccursAt(s, sub, i + 1);
      assert !OccursAt(s, sub, 0);
      assert forall i :: OccursAt(s, sub, i) ==> i == 0 || OccursAt(s[1..], sub, i - 1);
      r
  }

  /** Every string contains the empty string. */
  lemma ContainsEmpty(s: string)
    ensures Contains(s, "")
  {
    assert OccursAt(s, "", 0);
  }

  // ---------------------------------------------------------------------
  // Trimming white space
  // ---------------------------------------------------------------------

  /** The characters the host runtime classifies as white space. */
  predicate IsWhiteSpace(c: char)
  {
    ('\t' <= c <= '\r') || c == ' ' || c == '\U{85}' || c == '\U{A0}'
    || c == '\U{1680}' || ('\U{2000}' <= c <= '\U{200A}') || c == '\U{2028}'
    || c == '\U{2029}' || c == '\U{202F}' || c == '\U{205F}' || c == '\U{3000}'
  }

  /** s without its leading white space. */
  function TrimStart(s: string): (r: string)
    ensures |r| <= |s| && r == s[|s| - |r|..]
    ensures r != [] ==> !IsWhiteSpace(r[0])
    ensures forall i :: 0 <= i < |s| - |r| ==> IsWhiteSpace(s[i])
  {
    if s != [] && IsWhiteSpace(s[0]) then
      var r := TrimStart(s[1..]);
      assert forall i :: 1 <= i < |s| ==> s[i] == s[1..][i - 1];
      r
    else s
  }

  /** s without its trailing white space. */
  function TrimEnd(s: string): (r: string)
    ensures |r| <= |s| && r == s[..|r|]
    ensures r != [] ==> !IsWhiteSpace(r[|r| - 1])
    ensures forall i :: |r| <= i < |s| ==> IsWhiteSpace(s[i])
  {
    if s != [] && IsWhiteSpace(s[|s| - 1]) then
      var r := TrimEnd(s[..|s| - 1]);
      assert forall i :: 0 <= i < |s| - 1 ==> s[i] == s[..|s| - 1][i];
      r
    else s
  }

  /** s without leading and trailing white space: the result is a slice of s
      that neither starts nor ends with white space, and only white space
      was removed. */
  function Trim(s: string): (r: string)
    ensures exists i :: TrimmedAt(s, r, i)
    ensures r != [] ==> !IsWhiteSpace(r[0]) && !IsWhiteSpace(r[|r| - 1])
  {
    var t := TrimStart(s);
    var r := TrimEnd(t);
    assert TrimmedAt(s, r, |s| - |t|);
    r
  }

  /** A string that neither starts nor ends with white space is its own
      trimmed form. */
  lemma TrimUnchanged(s: string)
    requires s != [] ==> !IsWhiteSpace(s[0]) && !IsWhiteSpace(s[|s| - 1])
    ensures Trim(s) == s
  {
    assert TrimStart(s) == s;
  }

  /** r is the slice of s starting at i, and everything of s outside that
      slice is white space. */
  predicate TrimmedAt(s: string, r: string, i: int)
  {
    && 0 <= i <= |s| - |r|
    && r == s[i..i + |r|]
    && (forall k :: 0 <= k < i ==> IsWhiteSpace(s[k]))
    && (forall k :: i + |r| <= k < |s| ==> IsWhiteSpace(s[k]))
  }

  // ---------------------------------------------------------------------
  // Splitting on one separator character (empty fields are kept)
  // ---------------------------------------------------------------------

  /** The fields joined back with the separator between them. */
  function Join(fields: seq<string>, sep: char): string
  {
    if fields == [] then []
    else if |fields| == 1 then fields[0]
    else fields[0] + [sep] + Join(fields[1..], sep)
  }

  /** s cut at every occurrence of sep; two adjacent separators give an
      empty field, and a string without sep is one field. */
  function Split(s: string, sep: char): (fields: seq<string>)
    ensures |fields| >= 1
    ensures forall f :: f in fields ==> sep !in f
    ensures Join(fields, sep) == s
  {
    if s == [] then [[]]
    else
      var rest := Split(s[1..], sep);
      if s[0] == sep then
        assert s == [sep] + s[1..];
        [[]] + rest
      else
        var fields := [[s[0]] + rest[0]] + rest[1..];
        assert fields[1..] == rest[1..];
        assert forall f :: f in fields ==> f == fields[0] || f in rest;
        fields
  }

  /** The position of the first c in s, or |s| when s has none. */
  function IndexOf(s: string, c: char): (k: nat)
    ensures k <= |s|
    ensures c !in s[..k]
    ensures k < |s| ==> s[k] == c
  {
    if s == [] || s[0] == c then 0
    else
      var k := IndexOf(s[1..], c);
      assert s[..k + 1] == [s[0]] + s[1..][..k];
      k + 1
  }

  /** The first field of a split is the text before the first separator;
      without a separator it is the only field, and otherwise the remaining
      fields are the split of the text after it. */
  lemma SplitAtFirst(s: string, sep: char)
    ensures var k := IndexOf(s, sep);
      && Split(s, sep)[0] == s[..k]
      && (k == |s| ==> Split(s, sep) == [s])
      && (k < |s| ==> Split(s, sep) == [s[..k]] + Split(s[k + 1..], sep))
  {
    var k := IndexOf(s, sep);
    if k == |s| {
      assert s[..k] == s;
      SplitSingleField(s, sep);
    } else {
      assert s == s[..k] + [sep] + s[k + 1..];
      SplitField(s[..k], s[k + 1..], sep);
    }
  }

  /** Splitting undoes joining fields that do not contain the separator. */
  lemma {:induction false} SplitJoin(fields: seq<string>, sep: char)
    requires |fields| >= 1
    requires forall f :: f in fields ==> sep !in f
    ensures Split(Join(fields, sep), sep) == fields
  {
    if |fields| == 1 {
      SplitSingleField(fields[0], sep);
    } else {
      SplitJoin(fields[1..], sep);
      SplitField(fields[0], Join(fields[1..], sep), sep);
    }
  }

  /** A string without the separator is a single field. */
  lemma {:induction false} SplitSingleField(f: string, sep: char)
    requires sep !in f
    ensures Split(f, sep) == [f]
    decreases |f|
  {
    if f != [] {
      SplitSingleField(f[1..], sep);
      assert f == [f[0]] + f[1..];
    }
  }

  /** Splitting a field followed by the rest of a line. */
  lemma {:induction false} SplitField(f: string, rest: string, sep: char)
    requires sep !in f
    ensures Split(f + [sep] + rest, sep) == [f] + Split(rest, sep)
    decreases |f|
  {
    if f != [] {
      SplitField(f[1..], rest, sep);
      assert (f + [sep] + rest)[1..] == f[1..] + [sep] + rest;
      assert f == [f[0]] + f[1..];
    } else {
      assert [] + [sep] + rest == [sep] + rest;
      assert ([sep] + rest)[1..] == rest;
    }
  }
}
