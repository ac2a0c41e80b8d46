/** The few Foundation string operations the SDK relies on, written out over `seq<char>`:
    prefix tests, ASCII lower-casing, trimming of whitespace and newlines, splitting on a
    separator the way Swift's `split(separator:)` does, and decimal rendering of integers. */
module Text {

  predicate StartsWith(s: string, prefix: string)
  {
    |prefix| <= |s| && s[..|prefix|] == prefix
  }

  /** Lower-cases one character; only the ASCII letters A-Z are mapped. */
  function LowerChar(c: char): (r: char)
    ensures 'A' <= c <= 'Z' ==> r as int == c as int + 32
    ensures !('A' <= c <= 'Z') ==> r == c
  {
    if 'A' <= c <= 'Z' then (c as int + 32) as char else c
  }

  function Lower(s: string): (r: string)
    ensures |r| == |s|
    ensures forall i :: 0 <= i < |s| ==> r[i] == LowerChar(s[i])
  {
    seq(|s|, i requires 0 <= i < |s| => LowerChar(s[i]))
  }

  /** A string that lower-casing leaves alone. */
  predicate IsLowerCase(s: string)
  {
    forall i :: 0 <= i < |s| ==> !('A' <= s[i] <= 'Z')
  }

  /** Case-insensitive prefix test against a lower-case pattern: `s.lowercased().hasPrefix(p)`. */
  predicate StartsWithIgnoringCase(s: string, p: string)
  {
    StartsWith(Lower(s), p)
  }

  /** A string that starts with a lower-case pattern also starts with it ignoring case. */
  lemma ExactPrefixIgnoringCase(s: string, p: string)
    requires IsLowerCase(p) && StartsWith(s, p)
    ensures StartsWithIgnoringCase(s, p)
  {
    assert forall i :: 0 <= i < |p| ==> Lower(s)[i] == LowerChar(p[i]) == p[i];
  }

  /** The members of Foundation's `CharacterSet.whitespacesAndNewlines`. */
  predicate IsWhitespace(c: char)
  {
    ('\t' <= c <= '\r') || c == ' ' || c == '\U{0085}' || c == '\U{00A0}' || c == '\U{1680}'
    || ('\U{2000}' <= c <= '\U{200A}') || c == '\U{2028}' || c == '\U{2029}'
    || c == '\U{202F}' || c == '\U{205F}' || c == '\U{3000}'
  }

  function TrimStart(s: string): string
  {
    if s != [] && IsWhitespace(s[0]) then TrimStart(s[1..]) else s
  }

  function TrimEnd(s: string): string
  {
    if s != [] && IsWhitespace(s[|s| - 1]) then TrimEnd(s[..|s| - 1]) else s
  }

  /** `trimmingCharacters(in: .whitespacesAndNewlines)`. */
  function Trim(s: string): string
  {
    TrimEnd(TrimStart(s))
  }

  /** Trimming the front removes exactly the leading whitespace. */
  lemma {:induction false} TrimStartRemovesLeadingBlanks(s: string)
    ensures var r := TrimStart(s);
      && |r| <= |s| && r == s[|s| - |r|..]
      && (r != [] ==> !IsWhitespace(r[0]))
      && (forall i :: 0 <= i < |s| - |r| ==> IsWhitespace(s[i]))
  {
    if s != [] && IsWhitespace(s[0]) {
      TrimStartRemovesLeadingBlanks(s[1..]);
      assert forall i :: 1 <= i < |s| ==> s[1..][i - 1] == s[i];
    }
  }

  /** Trimming the back removes exactly the trailing whitespace. */
  lemma {:induction false} TrimEndRemovesTrailingBlanks(s: string)
    ensures var r := TrimEnd(s);
      && |r| <= |s| && r == s[..|r|]
      && (r != [] ==> !IsWhitespace(r[|r| - 1]))
      && (forall i :: |r| <= i < |s| ==> IsWhitespace(s[i]))
  {
    if s != [] && IsWhitespace(s[|s| - 1]) {
      TrimEndRemovesTrailingBlanks(s[..|s| - 1]);
      assert forall i :: 0 <= i < |s| - 1 ==> s[..|s| - 1][i] == s[i];
    }
  }

  /** The trimmed string is a slice of the input that neither starts nor ends with whitespace,
      and everything cut off around it is whitespace. */
  lemma TrimIsBlankFreeSlice(s: string) returns (i: nat)
    ensures var r := Trim(s);
      && i + |r| <= |s| && r == s[i..i + |r|]
      && (forall k :: 0 <= k < i ==> IsWhitespace(s[k]))
      && (forall k :: i + |r| <= k < |s| ==> IsWhitespace(s[k]))
      && (r != [] ==> !IsWhitespace(r[0]) && !IsWhitespace(r[|r| - 1]))
  {
    var t := TrimStart(s);
    var r := TrimEnd(t);
    TrimStartRemovesLeadingBlanks(s);
    TrimEndRemovesTrailingBlanks(t);
    i := |s| - |t|;
    assert r == s[i..i + |r|];
    assert forall k :: i + |r| <= k < |s| ==> s[k] == t[k - i];
  }

  /** A string without outer whitespace is its own trim; in particular trimming is idempotent. */
  lemma TrimKeepsBlankFree(s: string)
    requires s != [] ==> !IsWhitespace(s[0]) && !IsWhitespace(s[|s| - 1])
    ensures Trim(s) == s
  {
  }

  lemma TrimIdempotent(s: string)
    ensures Trim(Trim(s)) == Trim(s)
  {
    var _ := TrimIsBlankFreeSlice(s);
    TrimKeepsBlankFree(Trim(s));
  }

  /** Swift's `split(separator:)` with its default of omitting empty pieces:
      `pending` holds the characters of the piece being read. */
  function SplitFrom(s: string, sep: char, pending: string): (r: seq<string>)
    requires sep !in pending
    ensures forall k :: 0 <= k < |r| ==> r[k] != [] && sep !in r[k]
    decreases |s|
  {
    if s == [] then
      (if pending == [] then [] else [pending])
    else if s[0] == sep then
      (if pending == [] then SplitFrom(s[1..], sep, []) else [pending] + SplitFrom(s[1..], sep, []))
    else
      SplitFrom(s[1..], sep, pending + [s[0]])
  }

  function Split(s: string, sep: char): (r: seq<string>)
    ensures forall k :: 0 <= k < |r| ==> r[k] != [] && sep !in r[k]
  {
    SplitFrom(s, sep, [])
  }

  lemma {:induction false} SplitFromWithoutSeparator(s: string, sep: char, pending: string)
    requires sep !in pending && sep !in s && pending + s != []
    ensures SplitFrom(s, sep, pending) == [pending + s]
    decreases |s|
  {
    if s == [] {
      assert pending + s == pending;
    } else {
      assert s[0] in s && s[0] != sep;
      assert pending + [s[0]] + s[1..] == pending + s;
      SplitFromWithoutSeparator(s[1..], sep, pending + [s[0]]);
    }
  }

  /** A non-empty string without the separator splits into itself alone. */
  lemma SplitWithoutSeparator(s: string, sep: char)
    requires sep !in s && s != []
    ensures Split(s, sep) == [s]
  {
    SplitFromWithoutSeparator(s, sep, []);
    assert [] + s == s;
  }

  /** `a + [sep] + b` with both halves free of the separator splits into exactly `a` and `b`. */
  lemma SplitPair(a: string, sep: char, b: string)
    requires a != [] && b != [] && sep !in a && sep !in b
    ensures Split(a + [sep] + b, sep) == [a, b]
  {
    SplitPairFrom(a, sep, b, []);
    assert [] + a == a;
  }

  lemma {:induction false} SplitPairFrom(a: string, sep: char, b: string, pending: string)
    requires b != [] && sep !in a && sep !in b && sep !in pending && pending + a != []
    ensures SplitFrom(a + [sep] + b, sep, pending) == [pending + a, b]
    decreases |a|
  {
    var s := a + [sep] + b;
    if a == [] {
      assert s[0] == sep && s[1..] == b && pending + a == pending;
      SplitFromWithoutSeparator(b, sep, []);
      assert [] + b == b;
    } else {
      assert a[0] in a && a[0] != sep;
      assert s[0] == a[0] && s[1..] == a[1..] + [sep] + b;
      assert pending + [a[0]] + a[1..] == pending + a;
      SplitPairFrom(a[1..], sep, b, pending + [a[0]]);
    }
  }

  // ----- decimal numbers -----

  function DigitChar(d: nat): (c: char)
    requires d < 10
    ensures '0' <= c <= '9'
  {
    ('0' as int + d) as char
  }

  function DigitValue(c: char): (d: nat)
    requires '0' <= c <= '9'
    ensures d < 10
  {
    c as int - '0' as int
  }

  predicate IsDigits(s: string)
  {
    forall i :: 0 <= i < |s| ==> '0' <= s[i] <= '9'
  }

  /** Decimal digits of a natural number, most significant first, without leading zeros. */
  function NatToString(n: nat): (r: string)
    ensures r != [] && IsDigits(r)
    ensures |r| > 1 ==> r[0] != '0'
  {
    if n < 10 then [DigitChar(n)] else NatToString(n / 10) + [DigitChar(n % 10)]
  }

  /** Swift's decimal rendering of an integer, as `"\(n)"` produces it. */
  function IntToString(n: int): (r: string)
    ensures r != []
  {
    if n < 0 then "-" + NatToString(-n) else NatToString(n)
  }

  function ParseDigits(s: string): nat
    requires IsDigits(s)
  {
    if s == [] then 0 else 10 * ParseDigits(s[..|s| - 1]) + DigitValue(s[|s| - 1])
  }

  /** Reads back what `IntToString` writes. */
  function ParseInt(s: string): int
  {
    if s != [] && s[0] == '-' && IsDigits(s[1..]) then -(ParseDigits(s[1..]) as int)
    else if IsDigits(s) then ParseDigits(s)
    else 0
  }

  lemma {:induction false} NatToStringRoundTrip(n: nat)
    ensures ParseDigits(NatToString(n)) == n
  {
    if n >= 10 {
      var s := NatToString(n);
      assert s[..|s| - 1] == NatToString(n / 10);
      NatToStringRoundTrip(n / 10);
    }
  }

  /** Rendering loses nothing: the decimal text of a status code determines the code. */
  lemma IntToStringRoundTrip(n: int)
    ensures ParseInt(IntToString(n)) == n
  {
    if n < 0 {
      var s := IntToString(n);
      assert s[1..] == NatToString(-n);
      NatToStringRoundTrip(-n);
    } else {
      NatToStringRoundTrip(n);
    }
  }

  lemma IntToStringInjective(m: int, n: int)
    requires IntToString(m) == IntToString(n)
    ensures m == n
  {
    IntToStringRoundTrip(m);
    IntToStringRoundTrip(n);
  }
}
