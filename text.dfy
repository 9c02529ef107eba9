/** The Python string operations the scrapers rely on, over `string`
    (a sequence of Unicode scalar values). */
module Text {

  /** Python's `str.isspace()` for one character. */
  predicate IsSpace(c: char) {
    || c == ' '
    || '\t' <= c <= '\r'
    || '\U{1c}' <= c <= '\U{1f}'
    || c == '\U{85}' || c == '\U{a0}' || c == '\U{1680}'
    || '\U{2000}' <= c <= '\U{200a}'
    || c == '\U{2028}' || c == '\U{2029}' || c == '\U{202f}' || c == '\U{205f}' || c == '\U{3000}'
  }

  /** `s` without its leading whitespace. */
  function TrimStart(s: string): (r: string)
    ensures |r| <= |s|
  {
    if s != [] && IsSpace(s[0]) then TrimStart(s[1..]) else s
  }

  /** What `TrimStart` removes is a whitespace-only head, and what it keeps
      starts with a non-space character. */
  lemma {:induction false} TrimStartSpec(s: string)
    ensures var r := TrimStart(s);
      && r == s[|s| - |r|..]
      && (r == [] || !IsSpace(r[0]))
      && forall i :: 0 <= i < |s| - |r| ==> IsSpace(s[i])
  {
    if s != [] && IsSpace(s[0]) {
      TrimStartSpec(s[1..]);
    }
  }

  /** `s` without its trailing whitespace. */
  function TrimEnd(s: string): (r: string)
    ensures |r| <= |s|
  {
    if s != [] && IsSpace(s[|s| - 1]) then TrimEnd(s[..|s| - 1]) else s
  }

  /** What `TrimEnd` removes is a whitespace-only tail, and what it keeps ends
      with a non-space character. */
  lemma {:induction false} TrimEndSpec(s: string)
    ensures var r := TrimEnd(s);
      && r == s[..|r|]
      && (r == [] || !IsSpace(r[|r| - 1]))
      && forall i :: |r| <= i < |s| ==> IsSpace(s[i])
  {
    if s != [] && IsSpace(s[|s| - 1]) {
      TrimEndSpec(s[..|s| - 1]);
    }
  }

  /** Python's `str.strip()` with no argument. */
  function PyStrip(s: string): string {
    TrimEnd(TrimStart(s))
  }

  /** `PyStrip(s)` is the run of `s` between a whitespace-only head and a
      whitespace-only tail, and begins and ends with a non-space character. */
  lemma PyStripSpec(s: string)
    ensures var r, a := PyStrip(s), |s| - |TrimStart(s)|;
      && (r == [] || (!IsSpace(r[0]) && !IsSpace(r[|r| - 1])))
      && a + |r| <= |s| && s[a..a + |r|] == r
      && (forall i :: 0 <= i < a ==> IsSpace(s[i]))
      && (forall i :: a + |r| <= i < |s| ==> IsSpace(s[i]))
  {
    TrimStartSpec(s);
    PyStripInside(s);
    PyStripTail(s);
  }

  /** Helper: the kept run sits right after the head and has no space at
      either end. */
  lemma PyStripInside(s: string)
    ensures var r, a := PyStrip(s), |s| - |TrimStart(s)|;
      && (r == [] || (!IsSpace(r[0]) && !IsSpace(r[|r| - 1])))
      && a + |r| <= |s| && s[a..a + |r|] == r
  {
    var t := TrimStart(s);
    var r := TrimEnd(t);
    var a := |s| - |t|;
    TrimStartSpec(s);
    TrimEndSpec(t);
    assert s[a..a + |r|] == t[..|r|];
    if r != [] {
      assert r[0] == t[0];
    }
  }

  /** Helper: everything after the kept run is whitespace. */
  lemma PyStripTail(s: string)
    ensures var r, a := PyStrip(s), |s| - |TrimStart(s)|;
      forall i :: a + |r| <= i < |s| ==> IsSpace(s[i])
  {
    var t := TrimStart(s);
    var r := TrimEnd(t);
    var a := |s| - |t|;
    TrimStartSpec(s);
    TrimEndSpec(t);
    assert t == s[a..];
    forall i | a + |r| <= i < |s| ensures IsSpace(s[i]) {
      assert s[i] == t[i - a];
    }
  }

  /** `s` with every `c` deleted: Python's `s.replace(c, '')`. */
  function Delete(s: string, c: char): (r: string)
    ensures |r| <= |s|
    ensures forall i :: 0 <= i < |r| ==> r[i] != c
  {
    if s == [] then [] else (if s[0] == c then [] else [s[0]]) + Delete(s[1..], c)
  }

  /** Deleting never brings in a character that was not there. */
  lemma {:induction false} DeleteFrom(s: string, c: char)
    ensures forall i :: 0 <= i < |Delete(s, c)| ==> Delete(s, c)[i] in s
  {
    if s != [] {
      DeleteFrom(s[1..], c);
      var r := Delete(s, c);
      var t := Delete(s[1..], c);
      forall i | 0 <= i < |r| ensures r[i] in s {
        if s[0] != c && i == 0 {
        } else {
          var k := if s[0] == c then i else i - 1;
          assert r[i] == t[k];
          assert t[k] in s[1..];
        }
      }
    }
  }

  lemma {:induction false} DeleteConcat(a: string, b: string, c: char)
    ensures Delete(a + b, c) == Delete(a, c) + Delete(b, c)
  {
    if a == [] {
      assert a + b == b;
    } else {
      assert (a + b)[1..] == a[1..] + b;
      DeleteConcat(a[1..], b, c);
    }
  }

  /** Deleting one character never brings back another. */
  lemma DeleteKeepsAbsence(s: string, c: char, x: char)
    requires forall i :: 0 <= i < |s| ==> s[i] != x
    ensures forall i :: 0 <= i < |Delete(s, c)| ==> Delete(s, c)[i] != x
  {
    var r := Delete(s, c);
    DeleteFrom(s, c);
    forall i | 0 <= i < |r| ensures r[i] != x {
      assert r[i] in s;
    }
  }

  lemma {:induction false} DeleteAbsent(s: string, c: char)
    requires forall i :: 0 <= i < |s| ==> s[i] != c
    ensures Delete(s, c) == s
  {
    if s != [] {
      DeleteAbsent(s[1..], c);
    }
  }

  /** Deleting a character that is not at either end keeps both ends. */
  lemma DeleteKeepsEnds(s: string, c: char)
    requires s != [] && s[0] != c && s[|s| - 1] != c
    ensures var r := Delete(s, c); r != [] && r[0] == s[0] && r[|r| - 1] == s[|s| - 1]
  {
    var n := |s|;
    assert s == s[..n - 1] + [s[n - 1]];
    DeleteConcat(s[..n - 1], [s[n - 1]], c);
    assert Delete([s[n - 1]], c) == [s[n - 1]];
  }

  /** The `strip` helper of the dictionary scrapers:
      `s.strip().replace('\r', '').replace('\n', '').replace('\t', '')`. */
  function Strip(s: string): string {
    Delete(Delete(Delete(PyStrip(s), '\r'), '\n'), '\t')
  }

  /** `Strip` leaves no carriage return, newline or tab anywhere. */
  lemma StripNoBreaks(s: string)
    ensures forall i :: 0 <= i < |Strip(s)| ==> Strip(s)[i] !in "\r\n\t"
  {
    var d1 := Delete(PyStrip(s), '\r');
    var d2 := Delete(d1, '\n');
    DeleteKeepsAbsence(d1, '\n', '\r');
    DeleteKeepsAbsence(d2, '\t', '\r');
    DeleteKeepsAbsence(d2, '\t', '\n');
    var r := Delete(d2, '\t');
    assert r == Strip(s);
    forall i | 0 <= i < |r| ensures r[i] !in "\r\n\t" {
      assert r[i] != '\r' && r[i] != '\n' && r[i] != '\t';
    }
  }

  /** `Strip` leaves no whitespace at either end. */
  lemma StripEnds(s: string)
    ensures Strip(s) != [] ==> !IsSpace(Strip(s)[0]) && !IsSpace(Strip(s)[|Strip(s)| - 1])
  {
    var p := PyStrip(s);
    var d1 := Delete(p, '\r');
    var d2 := Delete(d1, '\n');
    if p != [] {
      PyStripSpec(s);
      assert !IsSpace(p[0]) && !IsSpace(p[|p| - 1]);
      DeleteKeepsEnds(p, '\r');
      DeleteKeepsEnds(d1, '\n');
      DeleteKeepsEnds(d2, '\t');
    }
  }

  /** Stripping twice is stripping once. */
  lemma StripIdempotent(s: string)
    ensures Strip(Strip(s)) == Strip(s)
  {
    var r := Strip(s);
    StripNoBreaks(s);
    StripEnds(s);
    assert TrimStart(r) == r;
    assert TrimEnd(r) == r;
    DeleteAbsent(r, '\r');
    DeleteAbsent(r, '\n');
    DeleteAbsent(r, '\t');
  }

  /** Python's `s.startswith(prefix)`. */
  predicate StartsWith(s: string, prefix: string) {
    |prefix| <= |s| && s[..|prefix|] == prefix
  }

  /** Python's `s.endswith(suffix)`. */
  predicate EndsWith(s: string, suffix: string) {
    |suffix| <= |s| && s[|s| - |suffix|..] == suffix
  }

  /** Python's `s.startswith(prefixes)` with a tuple of prefixes. */
  predicate StartsWithAny(s: string, prefixes: seq<string>) {
    exists i :: 0 <= i < |prefixes| && StartsWith(s, prefixes[i])
  }

  /** `re.search(pattern, s)` for a pattern without metacharacters: `pattern`
      occurs somewhere in `s`. */
  predicate Contains(s: string, pattern: string) {
    exists i :: 0 <= i <= |s| - |pattern| && OccursAt(s, pattern, i)
  }

  predicate OccursAt(s: string, pattern: string, i: nat)
    requires i + |pattern| <= |s|
  {
    s[i..i + |pattern|] == pattern
  }

  predicate IsDigit(c: char) {
    '0' <= c <= '9'
  }

  /** Python's `str.isdigit()` on ASCII: non-empty and digits only. */
  predicate IsDigits(s: string) {
    |s| > 0 && forall i :: 0 <= i < |s| ==> IsDigit(s[i])
  }

  function Pow10(k: nat): (p: nat)
    ensures p >= 1
  {
    if k == 0 then 1 else 10 * Pow10(k - 1)
  }

  /** Python's `int(s)` on a string of digits. */
  function DigitsValue(s: string): (n: nat)
    requires forall i :: 0 <= i < |s| ==> IsDigit(s[i])
    ensures n < Pow10(|s|)
  {
    if s == [] then 0
    else
      var d := s[|s| - 1] as int - '0' as int;
      assert IsDigit(s[|s| - 1]);
      var v := DigitsValue(s[..|s| - 1]);
      assert 10 * v <= 10 * (Pow10(|s| - 1) - 1);
      10 * v + d
  }

  /** Leading zeros do not change the value, so "01" and "1" read as the same
      integer. */
  lemma {:induction false} DigitsValueLeadingZero(s: string)
    requires forall i :: 0 <= i < |s| ==> IsDigit(s[i])
    ensures DigitsValue("0" + s) == DigitsValue(s)
  {
    if s != [] {
      var t := "0" + s;
      assert t[..|t| - 1] == "0" + s[..|s| - 1];
      DigitsValueLeadingZero(s[..|s| - 1]);
    }
  }

  /** The digits of a natural number, without leading zeros ("0" for 0). */
  function ShowNat(n: nat): (s: string)
    ensures forall i :: 0 <= i < |s| ==> IsDigit(s[i])
    ensures |s| > 0
  {
    if n < 10 then [('0' as int + n) as char]
    else ShowNat(n / 10) + [('0' as int + n % 10) as char]
  }

  /** Reading back the digits of `n` gives `n`. */
  lemma {:induction false} DigitsValueShowNat(n: nat)
    ensures DigitsValue(ShowNat(n)) == n
  {
    var s := ShowNat(n);
    if n >= 10 {
      assert s[..|s| - 1] == ShowNat(n / 10);
      DigitsValueShowNat(n / 10);
    }
  }

  function LowerChar(c: char): char {
    if 'A' <= c <= 'Z' then (c as int + 32) as char else c
  }

  /** Python's `str.lower()` on the ASCII letters. */
  function ToLower(s: string): (r: string)
    ensures |r| == |s|
    ensures forall i :: 0 <= i < |r| ==> !('A' <= r[i] <= 'Z')
    ensures forall i :: 0 <= i < |r| ==> ('a' <= r[i] <= 'z') == ('A' <= s[i] <= 'Z' || 'a' <= s[i] <= 'z')
    ensures forall i :: 0 <= i < |s| ==>
      if 'A' <= s[i] <= 'Z' then r[i] as int == s[i] as int + 32 else r[i] == s[i]
  {
    seq(|s|, i requires 0 <= i < |s| => LowerChar(s[i]))
  }
}
