/** The Python `str` built-ins the core relies on: `isspace`, `strip`,
    `split()` without a separator, `" ".join`, `lower`, `upper`,
    `startswith`/`endswith`, the `in` substring test and `str(int)`. */
module Text {

  /** Python's `str.isspace` for one character: the ASCII controls
      tab..carriage return, the four separators 0x1C-0x1F, space, and the
      Unicode white space of categories Zs, Zl and Zp plus U+0085. */
  predicate IsSpace(c: char) {
    || ('\t' <= c <= '\r')
    || ('\U{1C}' <= c <= '\U{1F}')
    || c == ' '
    || c == '\U{85}'
    || c == '\U{A0}'
    || c == '\U{1680}'
    || ('\U{2000}' <= c <= '\U{200A}')
    || c == '\U{2028}'
    || c == '\U{2029}'
    || c == '\U{202F}'
    || c == '\U{205F}'
    || c == '\U{3000}'
  }

  /** Every character of `s` is white space (Python: `not s.strip()`). */
  predicate Blank(s: string) {
    forall i :: 0 <= i < |s| ==> IsSpace(s[i])
  }

  /** A word as `str.split()` produces it: non-empty, no white space. */
  predicate IsWord(w: string) {
    w != [] && forall i :: 0 <= i < |w| ==> !IsSpace(w[i])
  }

  predicate AllWords(ws: seq<string>) {
    forall i :: 0 <= i < |ws| ==> IsWord(ws[i])
  }

  function TrimStart(s: string): (r: string)
    ensures |r| <= |s| && r == s[|s| - |r|..]
    ensures r != [] ==> !IsSpace(r[0])
    ensures forall i :: 0 <= i < |s| - |r| ==> IsSpace(s[i])
  {
    if s != [] && IsSpace(s[0]) then TrimStart(s[1..]) else s
  }

  function TrimEnd(s: string): (r: string)
    ensures |r| <= |s| && r == s[..|r|]
    ensures r != [] ==> !IsSpace(r[|r| - 1])
    ensures forall i :: |r| <= i < |s| ==> IsSpace(s[i])
  {
    if s != [] && IsSpace(s[|s| - 1]) then TrimEnd(s[..|s| - 1]) else s
  }

  /** `str.strip()`: the longest slice of `s` that neither starts nor ends
      with white space; only white space is cut away on either side. */
  function Strip(s: string): (r: string)
    ensures r != [] ==> !IsSpace(r[0]) && !IsSpace(r[|r| - 1])
    ensures r == [] <==> Blank(s)
    ensures !Blank(s) ==> !IsSpace(s[0]) && !IsSpace(s[|s| - 1]) ==> r == s
  {
    var a := TrimStart(s);
    var r := TrimEnd(a);
    assert a != [] ==> a[0] == s[|s| - |a|];
    r
  }

  /** Length of the run of non-space characters at the front of `s`. */
  function SpanWord(s: string): (n: nat)
    ensures n <= |s|
    ensures forall i :: 0 <= i < n ==> !IsSpace(s[i])
    ensures n < |s| ==> IsSpace(s[n])
  {
    if s == [] || IsSpace(s[0]) then 0 else 1 + SpanWord(s[1..])
  }

  /** `str.split()` with no separator: the maximal runs of non-space
      characters, in order. */
  function Words(s: string): (ws: seq<string>)
    ensures AllWords(ws)
    decreases |s|
  {
    if s == [] then []
    else if IsSpace(s[0]) then Words(s[1..])
    else
      var n := SpanWord(s);
      [s[..n]] + Words(s[n..])
  }

  /** White space in `s` occurs only as single ' ' characters between two
      non-space characters. */
  predicate SingleSpaced(s: string) {
    forall i :: 0 <= i < |s| && IsSpace(s[i]) ==>
      s[i] == ' ' && 0 < i < |s| - 1 && !IsSpace(s[i - 1]) && !IsSpace(s[i + 1])
  }

  /** `" ".join(ws)`. Joining words gives a single-spaced text that starts
      and ends with a word character. */
  function Join(ws: seq<string>): (r: string)
    ensures AllWords(ws) ==> SingleSpaced(r)
    ensures AllWords(ws) && ws != [] ==> r != [] && !IsSpace(r[0]) && !IsSpace(r[|r| - 1])
  {
    if ws == [] then ""
    else if |ws| == 1 then ws[0]
    else
      var rest := Join(ws[1..]);
      var r := ws[0] + " " + rest;
      assert AllWords(ws) ==> SingleSpaced(r) by {
        if AllWords(ws) {
          assert AllWords(ws[1..]) by {
            forall i | 0 <= i < |ws[1..]| ensures IsWord(ws[1..][i]) { assert ws[1..][i] == ws[i + 1]; }
          }
          forall i | 0 <= i < |r| && IsSpace(r[i])
            ensures r[i] == ' ' && 0 < i < |r| - 1 && !IsSpace(r[i - 1]) && !IsSpace(r[i + 1])
          {
            if i > |ws[0]| {
              assert r[i] == rest[i - |ws[0]| - 1];
              if i - 1 > |ws[0]| { assert r[i - 1] == rest[i - |ws[0]| - 2]; }
              assert r[i + 1] == rest[i - |ws[0]|];
            } else if i == |ws[0]| {
              assert r[i - 1] == ws[0][|ws[0]| - 1];
              assert r[i + 1] == rest[0];
            }
          }
        }
      }
      r
  }

  /** `split` undoes `join` on words: the words of a joined text are the
      words that were joined. */
  lemma {:induction false} WordsOfJoin(ws: seq<string>)
    requires AllWords(ws)
    ensures Words(Join(ws)) == ws
  {
    if ws == [] {
    } else {
      var w := ws[0];
      assert IsWord(w);
      if |ws| == 1 {
        assert SpanWord(w) == |w|;
        assert w[..|w|] == w && w[|w|..] == [];
      } else {
        var rest := ws[1..];
        assert AllWords(rest) by {
          forall i | 0 <= i < |rest| ensures IsWord(rest[i]) { assert rest[i] == ws[i + 1]; }
        }
        var s := Join(ws);
        assert s == w + " " + Join(rest);
        var n := SpanWord(s);
        assert s[|w|] == ' ';
        assert n == |w|;
        assert s[..n] == w;
        assert s[n..] == " " + Join(rest);
        assert (" " + Join(rest))[1..] == Join(rest);
        WordsOfJoin(rest);
      }
    }
  }

  /** Python's `str.lower` on the characters it changes within Latin-1:
      'A'..'Z' and the Latin-1 capitals U+00C0..U+00DE except U+00D7. */
  function LowerChar(c: char): char {
    if 'A' <= c <= 'Z' || ('\U{C0}' <= c <= '\U{DE}' && c != '\U{D7}') then
      (c as int + 32) as char
    else c
  }

  /** Python's `str.upper` on 'a'..'z' and U+00E0..U+00FE except U+00F7. */
  function UpperChar(c: char): char {
    if 'a' <= c <= 'z' || ('\U{E0}' <= c <= '\U{FE}' && c != '\U{F7}') then
      (c as int - 32) as char
    else c
  }

  /** No character of `s` is changed by lower-casing. */
  predicate Lowered(s: string) {
    forall i :: 0 <= i < |s| ==> LowerChar(s[i]) == s[i]
  }

  function Lower(s: string): (r: string)
    ensures |r| == |s|
    ensures forall i :: 0 <= i < |s| ==> r[i] == LowerChar(s[i])
    ensures Lowered(r)
  {
    seq(|s|, i requires 0 <= i < |s| => LowerChar(s[i]))
  }

  function Upper(s: string): (r: string)
    ensures |r| == |s|
    ensures forall i :: 0 <= i < |s| ==> r[i] == UpperChar(s[i])
  {
    seq(|s|, i requires 0 <= i < |s| => UpperChar(s[i]))
  }

  lemma LowerOfLowered(s: string)
    requires Lowered(s)
    ensures Lower(s) == s
  {
  }

  /** Words cut from a lower-cased text are lower-cased. */
  lemma {:induction false} WordsLowered(s: string)
    requires Lowered(s)
    ensures forall i :: 0 <= i < |Words(s)| ==> Lowered(Words(s)[i])
    decreases |s|
  {
    if s == [] {
    } else if IsSpace(s[0]) {
      WordsLowered(s[1..]);
    } else {
      var n := SpanWord(s);
      WordsLowered(s[n..]);
      assert Words(s) == [s[..n]] + Words(s[n..]);
    }
  }

  /** Joining lower-cased words gives a lower-cased text. */
  lemma {:induction false} JoinLowered(ws: seq<string>)
    requires forall i :: 0 <= i < |ws| ==> Lowered(ws[i])
    ensures Lowered(Join(ws))
  {
    if |ws| > 1 {
      JoinLowered(ws[1..]);
      var s := Join(ws);
      var rest := Join(ws[1..]);
      assert s == ws[0] + " " + rest;
      forall i | 0 <= i < |s| ensures LowerChar(s[i]) == s[i] {
        if i < |ws[0]| {
          assert s[i] == ws[0][i];
        } else if i > |ws[0]| {
          assert s[i] == rest[i - |ws[0]| - 1];
        }
      }
    }
  }

  predicate StartsWith(s: string, prefix: string) {
    prefix <= s
  }

  predicate EndsWith(s: string, suffix: string) {
    |suffix| <= |s| && s[|s| - |suffix|..] == suffix
  }

  /** Python's `sub in s` for strings: `sub` occurs at some position. */
  predicate Contains(s: string, sub: string) {
    sub <= s || (s != [] && Contains(s[1..], sub))
  }

  function DigitChar(d: nat): char
    requires d < 10
  {
    "0123456789"[d]
  }

  function DigitValue(c: char): nat {
    if '0' <= c <= '9' then c as int - '0' as int else 0
  }

  predicate IsDigit(c: char) {
    '0' <= c <= '9'
  }

  /** `str(n)` for a non-negative integer: decimal digits, no leading zero. */
  function NatToString(n: nat): (s: string)
    ensures s != [] && forall i :: 0 <= i < |s| ==> IsDigit(s[i])
    ensures s[0] == '0' ==> n == 0
  {
    if n < 10 then [DigitChar(n)] else NatToString(n / 10) + [DigitChar(n % 10)]
  }

  /** Reads back the decimal digits written by `NatToString`. */
  function ParseNat(s: string): nat {
    if s == [] then 0 else 10 * ParseNat(s[..|s| - 1]) + DigitValue(s[|s| - 1])
  }

  lemma {:induction false} ParseNatToString(n: nat)
    ensures ParseNat(NatToString(n)) == n
  {
    var s := NatToString(n);
    if n < 10 {
      assert s[..|s| - 1] == [];
    } else {
      ParseNatToString(n / 10);
      assert s[..|s| - 1] == NatToString(n / 10);
      assert DigitValue(s[|s| - 1]) == n % 10;
    }
  }

  /** `str(i)` for any integer: a '-' sign before the digits of `|i|`. */
  function IntToString(i: int): string {
    if i < 0 then "-" + NatToString(-i) else NatToString(i)
  }
}
