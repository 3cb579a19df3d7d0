/** Character-level helpers shared by the model: decimal numbers as the
    Python fixture script prints them and as `istream >>` reads them, line
    splitting as `std::getline` does it, whitespace-separated tokens,
    lexicographic string order (`std::string::operator<`) and substring
    search (`std::string::find`). */
module Text {

  // ---------------------------------------------------------------------
  // Characters

  predicate IsDigit(c: char) { '0' <= c <= '9' }

  /** The characters `isspace` accepts in the "C" locale. */
  predicate IsSpace(c: char) {
    c == ' ' || c == '\t' || c == '\n' || c == '\r' || c as int == 11 || c as int == 12
  }

  predicate AllDigits(s: string) { forall i :: 0 <= i < |s| ==> IsDigit(s[i]) }

  /** A token as `operator>>` on `std::string` reads it: non-empty, no whitespace. */
  predicate IsToken(s: string) { |s| > 0 && forall i :: 0 <= i < |s| ==> !IsSpace(s[i]) }

  function DigitValue(c: char): (d: nat)
    requires IsDigit(c)
    ensures d < 10
  {
    c as int - '0' as int
  }

  function DigitChar(d: nat): (c: char)
    requires d < 10
    ensures IsDigit(c) && DigitValue(c) == d
  {
    ('0' as int + d) as char
  }

  // ---------------------------------------------------------------------
  // Decimal numbers

  /** Decimal representation of a natural number, no leading zeros. */
  function NatToString(n: nat): (s: string)
    ensures |s| > 0 && AllDigits(s)
    ensures |s| > 1 ==> s[0] != '0'
    decreases n
  {
    if n < 10 then [DigitChar(n)] else NatToString(n / 10) + [DigitChar(n % 10)]
  }

  /** Decimal representation of an integer, as Python's `str` on an int. */
  function IntToString(i: int): (s: string)
    ensures |s| > 0
    ensures i >= 0 ==> s == NatToString(i)
    ensures i < 0 ==> s[0] == '-'
  {
    if i < 0 then "-" + NatToString(-i) else NatToString(i)
  }

  /** The value of a string of decimal digits. */
  function DigitsValue(s: string): nat
    requires AllDigits(s)
  {
    if s == [] then 0 else DigitsValue(s[..|s| - 1]) * 10 + DigitValue(s[|s| - 1])
  }

  lemma {:induction false} DigitsRoundTrip(n: nat)
    ensures DigitsValue(NatToString(n)) == n
    decreases n
  {
    var s := NatToString(n);
    if n >= 10 {
      DigitsRoundTrip(n / 10);
      assert s[..|s| - 1] == NatToString(n / 10);
    }
  }

  // ---------------------------------------------------------------------
  // Lines, as `while (std::getline(stream, line))` produces them

  /** Index of the first '\n' in `s`, or `|s|` when there is none. */
  function LineEnd(s: string): (e: nat)
    ensures e <= |s|
    ensures forall i :: 0 <= i < e ==> s[i] != '\n'
    ensures e < |s| ==> s[e] == '\n'
  {
    if s == [] || s[0] == '\n' then 0 else 1 + LineEnd(s[1..])
  }

  /** One `std::getline` on a non-empty stream: the line without its '\n',
      and what is left of the stream. */
  function GetLine(s: string): (r: (string, string))
    requires s != []
    ensures '\n' !in r.0
    ensures |r.1| < |s|
    ensures s == if LineEnd(s) < |s| then r.0 + "\n" + r.1 else r.0
  {
    var e := LineEnd(s);
    (s[..e], if e < |s| then s[e + 1..] else [])
  }

  /** All lines `getline` yields: a final line without '\n' counts, the empty
      remainder after a final '\n' does not. */
  function Lines(s: string): (ls: seq<string>)
    ensures forall k :: 0 <= k < |ls| ==> '\n' !in ls[k]
    decreases |s|
  {
    if s == [] then [] else [GetLine(s).0] + Lines(GetLine(s).1)
  }

  /** Joining lines each terminated by '\n' and splitting again gives them back. */
  lemma {:induction false} LinesOfJoined(ls: seq<string>)
    requires forall k :: 0 <= k < |ls| ==> '\n' !in ls[k]
    ensures Lines(JoinLines(ls)) == ls
    decreases |ls|
  {
    if ls != [] {
      var l := ls[0];
      var rest := JoinLines(ls[1..]);
      assert JoinLines(ls) == l + "\n" + rest;
      GetLineOfJoined(l, rest);
      LinesOfJoined(ls[1..]);
      assert ls == [l] + ls[1..];
    }
  }

  /** The first line of `l \n rest` is `l`, and `rest` follows it. */
  lemma GetLineOfJoined(l: string, rest: string)
    requires '\n' !in l
    ensures GetLine(l + "\n" + rest) == (l, rest)
    ensures Lines(l + "\n" + rest) == [l] + Lines(rest)
  {
    var s := l + "\n" + rest;
    LineEndAt(l, rest);
    assert s[..|l|] == l;
    assert s[|l| + 1..] == rest;
  }

  lemma {:induction false} LineEndAt(l: string, rest: string)
    requires '\n' !in l
    ensures LineEnd(l + "\n" + rest) == |l|
    decreases |l|
  {
    if l != [] {
      assert (l + "\n" + rest)[1..] == l[1..] + "\n" + rest;
      LineEndAt(l[1..], rest);
    }
  }

  /** Each line followed by '\n'. */
  function JoinLines(ls: seq<string>): string
  {
    if ls == [] then [] else ls[0] + "\n" + JoinLines(ls[1..])
  }

  // ---------------------------------------------------------------------
  // Formatted extraction, as `istream >> unsigned` and `istream >> string`

  function SkipSpaces(s: string): (r: string)
    ensures |r| <= |s| && r == s[|s| - |r|..]
    ensures r != [] ==> !IsSpace(r[0])
  {
    if s != [] && IsSpace(s[0]) then SkipSpaces(s[1..]) else s
  }

  /** Length of the longest prefix of `s` made of decimal digits. */
  function DigitRun(s: string): (n: nat)
    ensures n <= |s| && AllDigits(s[..n])
    ensures n < |s| ==> !IsDigit(s[n])
  {
    if s != [] && IsDigit(s[0]) then 1 + DigitRun(s[1..]) else 0
  }

  /** Length of the longest prefix of `s` made of non-whitespace characters. */
  function TokenRun(s: string): (n: nat)
    ensures n <= |s|
    ensures forall i :: 0 <= i < n ==> !IsSpace(s[i])
    ensures n < |s| ==> IsSpace(s[n])
  {
    if s != [] && !IsSpace(s[0]) then 1 + TokenRun(s[1..]) else 0
  }

  /** `>> number`: leading whitespace skipped, then the longest run of
      digits; the value and the unread rest. */
  function ExtractNumber(s: string): (r: (nat, string))
  {
    var t := SkipSpaces(s);
    var n := DigitRun(t);
    (DigitsValue(t[..n]), t[n..])
  }

  /** `>> token`: leading whitespace skipped, then the longest run of
      non-whitespace characters; the token and the unread rest. */
  function ExtractToken(s: string): (r: (string, string))
  {
    var t := SkipSpaces(s);
    var n := TokenRun(t);
    (t[..n], t[n..])
  }

  lemma ExtractNumberOfString(n: nat, rest: string)
    requires rest == [] || !IsDigit(rest[0])
    ensures ExtractNumber(NatToString(n) + rest) == (n, rest)
  {
    var d := NatToString(n);
    assert SkipSpaces(d + rest) == d + rest;
    DigitRunOf(d, rest);
    assert (d + rest)[..|d|] == d;
    DigitsRoundTrip(n);
  }

  lemma {:induction false} DigitRunOf(d: string, rest: string)
    requires AllDigits(d)
    requires rest == [] || !IsDigit(rest[0])
    ensures DigitRun(d + rest) == |d|
    decreases |d|
  {
    if d != [] {
      assert (d + rest)[1..] == d[1..] + rest;
      DigitRunOf(d[1..], rest);
    }
  }

  lemma {:induction false} TokenRunOf(k: string)
    requires forall i :: 0 <= i < |k| ==> !IsSpace(k[i])
    ensures TokenRun(k) == |k|
    decreases |k|
  {
    if k != [] {
      TokenRunOf(k[1..]);
    }
  }

  lemma ExtractTokenOfSpaced(k: string)
    requires IsToken(k)
    ensures ExtractToken(" " + k) == (k, [])
  {
    SkipOneSpace(k);
    TokenRunOf(k);
    WholeCut(k);
  }

  lemma SkipOneSpace(k: string)
    requires IsToken(k)
    ensures SkipSpaces(" " + k) == k
  {
    assert (" " + k)[1..] == k;
  }

  lemma WholeCut(k: string)
    ensures k[..|k|] == k && k[|k|..] == []
  {
  }

  /** Concatenation regrouped; stated on its own to keep larger proofs small. */
  lemma AppendAssociates<T>(a: seq<T>, b: seq<T>, c: seq<T>)
    ensures a + (b + c) == (a + b) + c
  {
  }

  // ---------------------------------------------------------------------
  // Lexicographic order, as `std::string::operator<=`

  predicate LessEq(a: string, b: string)
  {
    if a == [] then true
    else if b == [] then false
    else if a[0] != b[0] then a[0] < b[0]
    else LessEq(a[1..], b[1..])
  }

  lemma {:induction false} LessEqTotal(a: string, b: string)
    ensures LessEq(a, b) || LessEq(b, a)
    decreases |a|
  {
    if a != [] && b != [] && a[0] == b[0] {
      LessEqTotal(a[1..], b[1..]);
    }
  }

  lemma {:induction false} LessEqAntisymmetric(a: string, b: string)
    requires LessEq(a, b) && LessEq(b, a)
    ensures a == b
    decreases |a|
  {
    if a != [] && b != [] {
      LessEqAntisymmetric(a[1..], b[1..]);
      assert a == [a[0]] + a[1..] && b == [b[0]] + b[1..];
    }
  }

  lemma {:induction false} LessEqTransitive(a: string, b: string, c: string)
    requires LessEq(a, b) && LessEq(b, c)
    ensures LessEq(a, c)
    decreases |a|
  {
    if a != [] && b != [] && c != [] && a[0] == b[0] && b[0] == c[0] {
      LessEqTransitive(a[1..], b[1..], c[1..]);
    }
  }

  predicate Sorted(s: seq<string>)
  {
    forall i, j :: 0 <= i < j < |s| ==> LessEq(s[i], s[j])
  }

  /** `a < b` on `std::string`. */
  predicate Before(a: string, b: string)
  {
    LessEq(a, b) && a != b
  }

  /** Ascending without repeats, as the keys of a `std::map` iterate. */
  predicate StrictlySorted(s: seq<string>)
  {
    forall i, j :: 0 <= i < j < |s| ==> Before(s[i], s[j])
  }

  // ---------------------------------------------------------------------
  // Substring search, as `s.find(sub) != npos`

  predicate IsPrefix(p: string, s: string) { |p| <= |s| && s[..|p|] == p }

  /** Whether `sub` occurs in `s` (the empty string occurs everywhere). */
  predicate Contains(s: string, sub: string)
    decreases |s|
  {
    IsPrefix(sub, s) || (s != [] && Contains(s[1..], sub))
  }

  /** `sub` occurs in `s` starting at index `i`. */
  predicate OccursAt(s: string, sub: string, i: int)
  {
    0 <= i <= |s| - |sub| && s[i..i + |sub|] == sub
  }

  /** `sub` occurs somewhere in `s`. */
  ghost predicate Occurs(s: string, sub: string)
  {
    exists i :: OccursAt(s, sub, i)
  }

  lemma {:induction false} ContainsAt(s: string, sub: string)
    ensures Contains(s, sub) <==> exists i :: OccursAt(s, sub, i)
    decreases |s|
  {
    if IsPrefix(sub, s) {
      assert OccursAt(s, sub, 0);
    }
    if s != [] {
      ContainsAt(s[1..], sub);
      if Contains(s[1..], sub) {
        var i :| OccursAt(s[1..], sub, i);
        assert s[i + 1..i + 1 + |sub|] == s[1..][i..i + |sub|];
        assert OccursAt(s, sub, i + 1);
      }
      if exists i :: OccursAt(s, sub, i) {
        var i :| OccursAt(s, sub, i);
        if i > 0 {
          assert s[1..][i - 1..i - 1 + |sub|] == s[i..i + |sub|];
          assert OccursAt(s[1..], sub, i - 1);
        }
      }
    } else {
      if exists i :: OccursAt(s, sub, i) {
        var i :| OccursAt(s, sub, i);
        assert IsPrefix(sub, s);
      }
    }
  }
}
