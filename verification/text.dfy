/** The string operations the dashboard applies to user input and server
    data: ASCII case folding (`toLowerCase` / `toUpperCase`), substring
    search (`includes`), the first piece of `split`, `join`, and the
    decimal rendering of ids inside URLs. */
module Text {

  // ---------------------------------------------------------------------
  // Case folding (ASCII letters only; locale rules are not modelled)
  // ---------------------------------------------------------------------

  predicate IsUpperAscii(c: char) { 'A' <= c <= 'Z' }

  predicate IsLowerAscii(c: char) { 'a' <= c <= 'z' }

  function LowerChar(c: char): char {
    if IsUpperAscii(c) then (c as int + 32) as char else c
  }

  function UpperChar(c: char): char {
    if IsLowerAscii(c) then (c as int - 32) as char else c
  }

  /** `s.toLowerCase()`, restricted to ASCII letters. */
  function Lower(s: string): (r: string)
    ensures |r| == |s|
    ensures forall i :: 0 <= i < |s| ==> r[i] == LowerChar(s[i])
  {
    seq(|s|, i requires 0 <= i < |s| => LowerChar(s[i]))
  }

  /** `s.toUpperCase()`, restricted to ASCII letters. */
  function Upper(s: string): (r: string)
    ensures |r| == |s|
    ensures forall i :: 0 <= i < |s| ==> r[i] == UpperChar(s[i])
  {
    seq(|s|, i requires 0 <= i < |s| => UpperChar(s[i]))
  }

  /** Lower-casing leaves no upper-case letter behind, changes nothing
      else than letters, and a second application changes nothing. */
  lemma LowerNormalises(s: string)
    ensures forall i :: 0 <= i < |s| ==> !IsUpperAscii(Lower(s)[i])
    ensures forall i :: 0 <= i < |s| ==> IsUpperAscii(s[i]) || Lower(s)[i] == s[i]
    ensures Lower(Lower(s)) == Lower(s)
  {
  }

  /** Upper-casing leaves no lower-case letter behind and is idempotent. */
  lemma UpperNormalises(s: string)
    ensures forall i :: 0 <= i < |s| ==> !IsLowerAscii(Upper(s)[i])
    ensures forall i :: 0 <= i < |s| ==> IsLowerAscii(s[i]) || Upper(s)[i] == s[i]
    ensures Upper(Upper(s)) == Upper(s)
  {
  }

  /** Lower-casing distributes over concatenation. */
  lemma LowerConcat(s: string, t: string)
    ensures Lower(s + t) == Lower(s) + Lower(t)
  {
  }

  // ---------------------------------------------------------------------
  // Substring search
  // ---------------------------------------------------------------------

  /** `t` occurs in `s` starting at some position. */
  ghost predicate OccursIn(t: string, s: string) {
    exists i {:trigger s[i..]} :: 0 <= i <= |s| && t <= s[i..]
  }

  /** JavaScript `s.includes(t)`: true exactly when `t` occurs in `s`;
      the empty string occurs in every string. */
  function Includes(s: string, t: string): (b: bool)
    ensures b <==> OccursIn(t, s)
    decreases |s|
  {
    assert s[0..] == s;
    if t <= s then true
    else if |s| == 0 then false
    else
      var rest := Includes(s[1..], t);
      OccursInTail(t, s);
      rest
  }

  /** When `t` is not a prefix of the non-empty `s`, it occurs in `s`
      exactly when it occurs in `s` without its first character. */
  lemma OccursInTail(t: string, s: string)
    requires |s| > 0 && !(t <= s)
    ensures OccursIn(t, s) <==> OccursIn(t, s[1..])
  {
    if OccursIn(t, s[1..]) {
      var i :| 0 <= i <= |s[1..]| && t <= s[1..][i..];
      assert s[1..][i..] == s[i + 1..];
    }
    if OccursIn(t, s) {
      var i :| 0 <= i <= |s| && t <= s[i..];
      assert s[0..] == s;
      assert i != 0;
      assert s[i..] == s[1..][i - 1..];
    }
  }

  /** A string that contains `t + u` contains `t`. */
  lemma OccursInPrefix(t: string, u: string, s: string)
    requires OccursIn(t + u, s)
    ensures OccursIn(t, s)
  {
    var i :| 0 <= i <= |s| && t + u <= s[i..];
    assert t <= s[i..];
  }

  /** The empty string occurs in every string. */
  lemma EmptyOccurs(s: string)
    ensures OccursIn("", s)
  {
    assert "" <= s[0..];
  }

  // ---------------------------------------------------------------------
  // split / join
  // ---------------------------------------------------------------------

  /** JavaScript `s.split(c)[0]`: the longest prefix of `s` that does not
      contain `c`; it stops exactly at the first `c`, if there is one. */
  function BeforeFirst(s: string, c: char): (r: string)
    ensures r <= s
    ensures c !in r
    ensures |r| < |s| ==> s[|r|] == c
  {
    if |s| == 0 || s[0] == c then ""
    else [s[0]] + BeforeFirst(s[1..], c)
  }

  /** The three facts above pin the result down: any prefix of `s` without
      `c` that stops at a `c` or at the end is `BeforeFirst(s, c)`. */
  lemma {:induction false} BeforeFirstUnique(s: string, c: char, p: string)
    requires p <= s && c !in p
    requires |p| < |s| ==> s[|p|] == c
    ensures p == BeforeFirst(s, c)
  {
    if |p| > 0 {
      assert p[0] == s[0] && p[0] in p;
      BeforeFirstUnique(s[1..], c, p[1..]);
      assert p == [p[0]] + p[1..];
    }
  }

  /** Cutting twice at the same character cuts nothing more. */
  lemma BeforeFirstIdempotent(s: string, c: char)
    ensures BeforeFirst(BeforeFirst(s, c), c) == BeforeFirst(s, c)
  {
    var r := BeforeFirst(s, c);
    BeforeFirstUnique(r, c, r);
  }

  /** If `p` has no `c`, the first `c` of `p + [c] + t` is the one after `p`. */
  lemma BeforeFirstOfJoined(p: string, c: char, t: string)
    requires c !in p
    ensures BeforeFirst(p + [c] + t, c) == p
  {
    BeforeFirstUnique(p + [c] + t, c, p);
  }

  /** JavaScript `parts.join(sep)` for a one-character separator. */
  function Join(parts: seq<string>, sep: char): string {
    if |parts| == 0 then ""
    else if |parts| == 1 then parts[0]
    else parts[0] + [sep] + Join(parts[1..], sep)
  }

  /** JavaScript `s.split(sep)` for a one-character separator: the pieces
      between consecutive separators, always at least one. */
  function Split(s: string, sep: char): (r: seq<string>)
    ensures |r| > 0
    decreases |s|
  {
    var head := BeforeFirst(s, sep);
    if |head| == |s| then [s]
    else [head] + Split(s[|head| + 1..], sep)
  }

  /** Joining pieces that do not contain the separator and splitting the
      result again gives back the pieces. */
  lemma {:induction false} SplitJoin(parts: seq<string>, sep: char)
    requires |parts| > 0
    requires forall i :: 0 <= i < |parts| ==> sep !in parts[i]
    ensures Split(Join(parts, sep), sep) == parts
    decreases |parts|
  {
    if |parts| == 1 {
      assert Join(parts, sep) == parts[0];
      assert BeforeFirst(parts[0], sep) == parts[0] by {
        BeforeFirstUnique(parts[0], sep, parts[0]);
      }
    } else {
      var tail := Join(parts[1..], sep);
      var s := parts[0] + [sep] + tail;
      assert Join(parts, sep) == s;
      BeforeFirstOfJoined(parts[0], sep, tail);
      assert s[|parts[0]| + 1..] == tail;
      SplitJoin(parts[1..], sep);
      assert [parts[0]] + parts[1..] == parts;
    }
  }

  // ---------------------------------------------------------------------
  // Decimal numerals (template literals `${id}` for ids)
  // ---------------------------------------------------------------------

  predicate IsDigit(c: char) { '0' <= c <= '9' }

  predicate IsDigits(s: string) {
    forall i :: 0 <= i < |s| ==> IsDigit(s[i])
  }

  function DigitChar(d: nat): (c: char)
    requires d < 10
  {
    ('0' as int + d) as char
  }

  function DigitValue(c: char): nat
    requires IsDigit(c)
  {
    c as int - '0' as int
  }

  /** The decimal rendering of a natural number, as `${n}` produces it. */
  function NatToString(n: nat): (r: string)
    ensures |r| > 0 && IsDigits(r)
  {
    if n < 10 then [DigitChar(n)]
    else NatToString(n / 10) + [DigitChar(n % 10)]
  }

  function ParseNat(s: string): nat
    requires IsDigits(s)
  {
    if |s| == 0 then 0
    else ParseNat(s[..|s| - 1]) * 10 + DigitValue(s[|s| - 1])
  }

  /** Reading back the decimal rendering of `n` gives `n`: the rendering
      loses nothing, so distinct ids yield distinct strings. */
  lemma {:induction false} ParseNatToString(n: nat)
    ensures ParseNat(NatToString(n)) == n
  {
    var s := NatToString(n);
    if n >= 10 {
      ParseNatToString(n / 10);
      assert s[..|s| - 1] == NatToString(n / 10);
    }
  }
}
