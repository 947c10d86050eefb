/**
 * The string operations of Go's `strings` and `fmt` packages that the modelled
 * code relies on, written over `seq<char>` (a Dafny char is a Unicode scalar
 * value, so a string's length is its rune count).
 */
module Text {
  import opened Wrappers

  /** Go's unicode.IsSpace: the ASCII white space plus U+0085, U+00A0 and the
      other runes of Unicode's White_Space property. */
  predicate IsSpace(c: char) {
    c == ' ' || c == '\t' || c == '\n' || c == '\U{000B}' || c == '\U{000C}' || c == '\r'
    || c == '\U{0085}' || c == '\U{00A0}' || c == '\U{1680}'
    || ('\U{2000}' <= c <= '\U{200A}')
    || c == '\U{2028}' || c == '\U{2029}' || c == '\U{202F}' || c == '\U{205F}' || c == '\U{3000}'
  }

  predicate NoSpace(s: string) {
    forall i :: 0 <= i < |s| ==> !IsSpace(s[i])
  }

  /** strings.TrimLeftFunc(s, unicode.IsSpace): drops the leading white space. */
  function TrimLeft(s: string): (r: string)
    ensures |r| <= |s|
    ensures r == [] || !IsSpace(r[0])
  {
    if s != [] && IsSpace(s[0]) then TrimLeft(s[1..]) else s
  }

  /** TrimLeft keeps a suffix of its input and drops only white space. */
  lemma {:induction false} TrimLeftDropsSpace(s: string)
    ensures TrimLeft(s) == s[|s| - |TrimLeft(s)|..]
    ensures forall i :: 0 <= i < |s| - |TrimLeft(s)| ==> IsSpace(s[i])
  {
    if s != [] && IsSpace(s[0]) {
      TrimLeftDropsSpace(s[1..]);
    }
  }

  /** strings.TrimRightFunc(s, unicode.IsSpace): drops the trailing white space. */
  function TrimRight(s: string): (r: string)
    ensures |r| <= |s|
    ensures r == [] || !IsSpace(r[|r| - 1])
  {
    if s != [] && IsSpace(s[|s| - 1]) then TrimRight(s[..|s| - 1]) else s
  }

  /** TrimRight keeps a prefix of its input and drops only white space. */
  lemma {:induction false} TrimRightDropsSpace(s: string)
    ensures TrimRight(s) == s[..|TrimRight(s)|]
    ensures forall i :: |TrimRight(s)| <= i < |s| ==> IsSpace(s[i])
  {
    if s != [] && IsSpace(s[|s| - 1]) {
      TrimRightDropsSpace(s[..|s| - 1]);
    }
  }

  /** strings.TrimSpace. */
  function TrimSpace(s: string): (r: string)
    ensures |r| <= |s|
    ensures r == [] || (!IsSpace(r[0]) && !IsSpace(r[|r| - 1]))
  {
    TrimRightDropsSpace(TrimLeft(s));
    TrimRight(TrimLeft(s))
  }

  /** TrimSpace keeps exactly the text between the leading and the trailing white
      space: the result is a slice of the input and only white space is dropped. */
  lemma {:induction false} TrimSpaceIsSlice(s: string)
    ensures var lo := |s| - |TrimLeft(s)|;
      var hi := lo + |TrimSpace(s)|;
      0 <= lo <= hi <= |s| && TrimSpace(s) == s[lo..hi]
      && (forall i :: 0 <= i < lo ==> IsSpace(s[i]))
      && (forall i :: hi <= i < |s| ==> IsSpace(s[i]))
  {
    var t := TrimLeft(s);
    var lo := |s| - |t|;
    TrimLeftDropsSpace(s);
    TrimRightDropsSpace(t);
    var hi := lo + |TrimRight(t)|;
    forall i | hi <= i < |s| ensures IsSpace(s[i]) {
      assert s[i] == t[i - lo];
    }
  }

  /** Trimming twice is trimming once. */
  lemma {:induction false} TrimSpaceIdempotent(s: string)
    ensures TrimSpace(TrimSpace(s)) == TrimSpace(s)
  {
    var r := TrimSpace(s);
    assert TrimLeft(r) == r;
    assert TrimRight(r) == r;
  }

  /** A string with no white space at either end is its own trim. */
  lemma TrimSpaceOfTrimmed(s: string)
    requires s == [] || (!IsSpace(s[0]) && !IsSpace(s[|s| - 1]))
    ensures TrimSpace(s) == s
  {
    assert TrimLeft(s) == s;
  }

  predicate AllSpace(s: string) {
    forall i :: 0 <= i < |s| ==> IsSpace(s[i])
  }

  /** White space in front of a string does not survive TrimLeft. */
  lemma {:induction false} TrimLeftSpacePrefix(p: string, s: string)
    requires AllSpace(p)
    ensures TrimLeft(p + s) == TrimLeft(s)
  {
    if p != [] {
      assert (p + s)[0] == p[0];
      assert (p + s)[1..] == p[1..] + s;
      TrimLeftSpacePrefix(p[1..], s);
    } else {
      assert p + s == s;
    }
  }

  /** White space behind a string does not survive TrimRight. */
  lemma {:induction false} TrimRightSpaceSuffix(t: string, q: string)
    requires AllSpace(q)
    ensures TrimRight(t + q) == TrimRight(t)
  {
    if q != [] {
      var u := t + q;
      assert u[|u| - 1] == q[|q| - 1];
      assert u[..|u| - 1] == t + q[..|q| - 1];
      TrimRightSpaceSuffix(t, q[..|q| - 1]);
    } else {
      assert t + q == t;
    }
  }

  /** TrimLeft only looks at the front: what follows can be appended before or
      after trimming. */
  lemma {:induction false} TrimLeftAppend(s: string, q: string)
    ensures TrimLeft(s + q) == TrimLeft(TrimLeft(s) + q)
  {
    if s != [] && IsSpace(s[0]) {
      assert (s + q)[1..] == s[1..] + q;
      TrimLeftAppend(s[1..], q);
    } else if s == [] {
      assert s + q == q;
    }
  }

  /** TrimSpace ignores any white space added around its input. */
  lemma {:induction false} TrimSpacePadded(p: string, s: string, q: string)
    requires AllSpace(p) && AllSpace(q)
    ensures TrimSpace(p + s + q) == TrimSpace(s)
  {
    assert p + s + q == p + (s + q);
    TrimLeftSpacePrefix(p, s + q);
    TrimLeftAppend(s, q);
    var t := TrimLeft(s);
    if t == [] {
      assert t + q == q;
      TrimLeftSpacePrefix(q, []);
      assert q + [] == q;
    } else {
      assert TrimLeft(t + q) == t + q;
      TrimRightSpaceSuffix(t, q);
    }
  }

  /** ASCII case folding of one rune (the letters A-Z). */
  function LowerChar(c: char): (r: char)
    ensures 'A' <= c <= 'Z' ==> r as int == c as int + 32
    ensures !('A' <= c <= 'Z') ==> r == c
  {
    if 'A' <= c <= 'Z' then (c as int + 32) as char else c
  }

  /** strings.ToLower, restricted to ASCII letters (see README). */
  function ToLower(s: string): (r: string)
    ensures |r| == |s|
    ensures forall i :: 0 <= i < |s| ==> r[i] == LowerChar(s[i])
  {
    if s == [] then [] else [LowerChar(s[0])] + ToLower(s[1..])
  }

  lemma ToLowerIdempotent(s: string)
    ensures ToLower(ToLower(s)) == ToLower(s)
  {
  }

  /** A string none of whose runes is an upper-case ASCII letter is its own lower-case form. */
  lemma ToLowerOfLower(s: string)
    requires forall i :: 0 <= i < |s| ==> !('A' <= s[i] <= 'Z')
    ensures ToLower(s) == s
  {
  }

  /** The longest prefix of `s` without white space. */
  function Word(s: string): (w: string)
    ensures |w| <= |s| && w == s[..|w|] && NoSpace(w)
    ensures |w| < |s| ==> IsSpace(s[|w|])
  {
    if s == [] || IsSpace(s[0]) then [] else [s[0]] + Word(s[1..])
  }

  /** strings.Fields: the maximal runs of non-white-space runes, in order. */
  function Fields(s: string): (r: seq<string>)
    ensures forall i :: 0 <= i < |r| ==> r[i] != [] && NoSpace(r[i])
    decreases |s|
  {
    var t := TrimLeft(s);
    if t == [] then []
    else
      var w := Word(t);
      [w] + Fields(t[|w|..])
  }

  /** A header made of one word, one space and a second word has exactly those
      two words as its fields. */
  lemma {:induction false} FieldsOfTwoWords(a: string, b: string)
    requires a != [] && b != [] && NoSpace(a) && NoSpace(b)
    ensures Fields(a + " " + b) == [a, b]
  {
    var t := " " + b;
    var s := a + t;
    assert a + " " + b == s;
    assert TrimLeft(s) == s by { assert s[0] == a[0]; }
    assert Word(s) == a by { WordOfNoSpacePrefix(a, t); }
    assert s[|a|..] == t;
    assert Fields(s) == [a] + Fields(t);
    FieldsOfOneWord(b);
  }

  /** A single word, with or without one leading space, has itself as its only field. */
  lemma {:induction false} FieldsOfOneWord(b: string)
    requires b != [] && NoSpace(b)
    ensures Fields(b) == [b] && Fields(" " + b) == [b]
  {
    assert TrimLeft(b) == b;
    WordOfNoSpacePrefix(b, []);
    assert b + [] == b;
    assert b[|b|..] == [];
    assert Fields(b) == [b] + Fields([]);
    var t := " " + b;
    assert TrimLeft(t) == TrimLeft(b) by { assert t[1..] == b; }
  }

  lemma {:induction false} WordOfNoSpacePrefix(a: string, rest: string)
    requires NoSpace(a)
    requires rest == [] || IsSpace(rest[0])
    ensures Word(a + rest) == a
  {
    if a != [] {
      assert (a + rest)[1..] == a[1..] + rest;
      WordOfNoSpacePrefix(a[1..], rest);
    } else {
      assert a + rest == rest;
    }
  }

  /** The index of the first occurrence of `c` in `s`, if any. */
  function IndexOf(s: string, c: char): (r: Option<nat>)
    ensures r.None? <==> c !in s
    ensures r.Some? ==> r.value < |s| && s[r.value] == c && c !in s[..r.value]
  {
    if s == [] then None
    else if s[0] == c then Some(0)
    else
      match IndexOf(s[1..], c)
      case None => None
      case Some(i) => assert s[1..][..i] == s[1..i + 1]; Some(i + 1)
  }

  /** strings.Split(s, sep) for a one-rune separator. */
  function Split(s: string, sep: char): (r: seq<string>)
    ensures |r| >= 1
    ensures forall i :: 0 <= i < |r| ==> sep !in r[i]
    decreases |s|
  {
    match IndexOf(s, sep)
    case None => [s]
    case Some(i) => [s[..i]] + Split(s[i + 1..], sep)
  }

  /** strings.Join(parts, sep) for a one-rune separator. */
  function Join(parts: seq<string>, sep: char): string
  {
    if |parts| <= 1 then (if parts == [] then [] else parts[0])
    else parts[0] + [sep] + Join(parts[1..], sep)
  }

  /** Splitting and joining back on the same separator gives the input back. */
  lemma {:induction false} JoinSplit(s: string, sep: char)
    ensures Join(Split(s, sep), sep) == s
    decreases |s|
  {
    match IndexOf(s, sep)
    case None =>
    case Some(i) =>
      var rest := s[i + 1..];
      JoinSplit(rest, sep);
      var tail := Split(rest, sep);
      var parts := Split(s, sep);
      assert parts == [s[..i]] + tail;
      assert |parts| > 1 && parts[0] == s[..i] && parts[1..] == tail;
      assert Join(parts, sep) == s[..i] + [sep] + Join(tail, sep);
      assert s == s[..i] + [sep] + rest;
  }

  /** strings.ReplaceAll(s, [c], ""): every occurrence of `c` removed. */
  function RemoveAll(s: string, c: char): (r: string)
    ensures c !in r && |r| <= |s|
    ensures c !in s ==> r == s
  {
    if s == [] then []
    else if s[0] == c then RemoveAll(s[1..], c)
    else [s[0]] + RemoveAll(s[1..], c)
  }

  function Pow2(n: nat): (p: nat)
    ensures p >= 1
  {
    if n == 0 then 1 else 2 * Pow2(n - 1)
  }

  function Pow10(n: nat): (p: nat)
    ensures p >= 1
  {
    if n == 0 then 1 else 10 * Pow10(n - 1)
  }

  predicate IsDigit(c: char) {
    '0' <= c <= '9'
  }

  /** The value of a string of decimal digits. */
  function DecimalValue(s: string): nat
    requires forall i :: 0 <= i < |s| ==> IsDigit(s[i])
  {
    if s == [] then 0
    else
      assert IsDigit(s[|s| - 1]);
      10 * DecimalValue(s[..|s| - 1]) + (s[|s| - 1] as int - '0' as int)
  }

  /** fmt.Sprintf("%0<width>d", n) for 0 <= n < 10^width: exactly `width` decimal
      digits, zero-padded on the left, whose value is n. */
  function ZeroPadded(n: nat, width: nat): (r: string)
    requires n < Pow10(width)
    ensures |r| == width
    ensures forall i :: 0 <= i < |r| ==> IsDigit(r[i])
    ensures DecimalValue(r) == n
  {
    if width == 0 then []
    else
      var front := ZeroPadded(n / 10, width - 1);
      var d := (n % 10 + '0' as int) as char;
      var r := front + [d];
      assert r[..|r| - 1] == front;
      r
  }

  /** Zero-padding is injective: different numbers give different texts. */
  lemma ZeroPaddedInjective(m: nat, n: nat, width: nat)
    requires m < Pow10(width) && n < Pow10(width)
    requires ZeroPadded(m, width) == ZeroPadded(n, width)
    ensures m == n
  {
  }

  /** strconv.Quote (the `%q` verb) for text whose non-ASCII runes are printable:
      the text between double quotes, with `"`, `\\` and the ASCII control runes escaped. */
  function Quote(s: string): (r: string)
    ensures |r| >= 2 && r[0] == '"' && r[|r| - 1] == '"'
  {
    "\"" + QuoteChars(s) + "\""
  }

  function QuoteChars(s: string): string {
    if s == [] then [] else QuoteRune(s[0]) + QuoteChars(s[1..])
  }

  const LowerHex: string := "0123456789abcdef"

  function QuoteRune(c: char): string {
    if c == '"' then "\\\"" else if c == '\\' then "\\\\"
    else if c == '\U{0007}' then "\\a" else if c == '\U{0008}' then "\\b"
    else if c == '\U{000C}' then "\\f" else if c == '\n' then "\\n"
    else if c == '\r' then "\\r" else if c == '\t' then "\\t"
    else if c == '\U{000B}' then "\\v"
    else if c < ' ' || c == '\U{007F}' then "\\x" + [LowerHex[c as int / 16], LowerHex[c as int % 16]]
    else [c]
  }
}
