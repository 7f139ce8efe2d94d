/** The JavaScript string operations the storefront relies on: `String.prototype.trim`,
    the `\s` class of regular expressions, `split` on one character, `join`, and the
    decimal rendering of an integral number. */
module JsText {

  /** ECMAScript WhiteSpace and LineTerminator code points: exactly what `trim` strips
      and what the regular-expression class `\s` matches. */
  predicate IsSpace(c: char) {
    || c == '\t' || c == '\n' || c == '\U{000B}' || c == '\U{000C}' || c == '\r' || c == ' '
    || c == '\U{00A0}' || c == '\U{1680}' || ('\U{2000}' <= c <= '\U{200A}')
    || c == '\U{2028}' || c == '\U{2029}' || c == '\U{202F}' || c == '\U{205F}'
    || c == '\U{3000}' || c == '\U{FEFF}'
  }

  predicate AllSpace(s: string) {
    forall k :: 0 <= k < |s| ==> IsSpace(s[k])
  }

  /** Neither end of `r` is white space. */
  predicate IsTrimmed(r: string) {
    r == [] || (!IsSpace(r[0]) && !IsSpace(r[|r| - 1]))
  }

  /** `r` is `s` with some white space cut from the front and some from the back. */
  ghost predicate StripOf(s: string, r: string) {
    exists i :: StripAt(s, r, i)
  }

  /** `r` sits at offset `i` of `s`, with only white space before and after it. */
  ghost predicate StripAt(s: string, r: string, i: int) {
    0 <= i <= |s| - |r| && s[i..i + |r|] == r && AllSpace(s[..i]) && AllSpace(s[i + |r|..])
  }

  function TrimStart(s: string): (r: string)
    ensures |r| <= |s| && r == s[|s| - |r|..]
    ensures AllSpace(s[..|s| - |r|])
    ensures r == [] || !IsSpace(r[0])
  {
    if |s| > 0 && IsSpace(s[0]) then
      var r := TrimStart(s[1..]);
      assert s[1..][|s| - 1 - |r|..] == s[|s| - |r|..];
      var cut := s[..|s| - |r|];
      assert AllSpace(cut) by {
        forall k | 0 <= k < |cut| ensures IsSpace(cut[k]) {
          if k > 0 {
            assert cut[k] == s[1..][..|s| - 1 - |r|][k - 1];
          }
        }
      }
      r
    else
      assert s[..0] == [];
      s
  }

  function TrimEnd(s: string): (r: string)
    ensures |r| <= |s| && r == s[..|r|]
    ensures AllSpace(s[|r|..])
    ensures r == [] || !IsSpace(r[|r| - 1])
  {
    if |s| > 0 && IsSpace(s[|s| - 1]) then
      var r := TrimEnd(s[..|s| - 1]);
      assert s[|r|..] == s[..|s| - 1][|r|..] + [s[|s| - 1]];
      r
    else s
  }

  /** Cutting white space from the front of `s` (leaving `t`) and then from the back of
      `t` (leaving `r`) leaves a strip of `s` made of its own characters. */
  lemma StripTwice(s: string, t: string, r: string)
    requires |t| <= |s| && t == s[|s| - |t|..] && AllSpace(s[..|s| - |t|])
    requires |r| <= |t| && r == t[..|r|] && AllSpace(t[|r|..])
    ensures StripAt(s, r, |s| - |t|)
    ensures forall k :: 0 <= k < |r| ==> r[k] == s[|s| - |t| + k]
  {
    var i := |s| - |t|;
    assert s[i..i + |r|] == r;
    assert s[i + |r|..] == t[|r|..];
  }

  /** `String.prototype.trim`. */
  function Trim(s: string): (r: string)
    ensures IsTrimmed(r)
    ensures StripOf(s, r)
    ensures r == [] <==> AllSpace(s)
    ensures forall k :: 0 <= k < |r| ==> r[k] in s
  {
    var t := TrimStart(s);
    var r := TrimEnd(t);
    StripTwice(s, t, r);
    assert StripAt(s, r, |s| - |t|);
    if r == [] then
      EmptyStrip(s, |s| - |t|);
      r
    else
      r
  }

  /** Only one position can be the first non-space character. */
  lemma FirstNonSpace(s: string, i: int, j: int)
    requires 0 <= i < |s| && AllSpace(s[..i]) && !IsSpace(s[i])
    requires 0 <= j < |s| && AllSpace(s[..j]) && !IsSpace(s[j])
    ensures i == j
  {
  }

  /** Only one position can end at the last non-space character. */
  lemma LastNonSpace(s: string, e: int, f: int)
    requires 0 < e <= |s| && AllSpace(s[e..]) && !IsSpace(s[e - 1])
    requires 0 < f <= |s| && AllSpace(s[f..]) && !IsSpace(s[f - 1])
    ensures e == f
  {
  }

  /** White space before and after an empty strip is all of `s`. */
  lemma EmptyStrip(s: string, i: int)
    requires StripAt(s, [], i)
    ensures AllSpace(s)
  {
    assert s == s[..i] + s[i..];
    forall k | 0 <= k < |s| ensures IsSpace(s[k]) {
      if k < i { assert s[..i][k] == s[k]; } else { assert s[i..][k - i] == s[k]; }
    }
  }

  /** Two strips of `s` with no space at either end are the same strip. */
  lemma SameStrip(s: string, r: string, i: int, t: string, j: int)
    requires StripAt(s, r, i) && StripAt(s, t, j)
    requires r != [] && t != [] && IsTrimmed(r) && IsTrimmed(t)
    ensures r == t
  {
    assert s[i] == r[0] && s[j] == t[0];
    FirstNonSpace(s, i, j);
    assert s[i + |r| - 1] == r[|r| - 1] && s[j + |t| - 1] == t[|t| - 1];
    LastNonSpace(s, i + |r|, j + |t|);
  }

  /** Trimming is characterised by what it keeps: the one strip of `s` with no space at either end. */
  lemma TrimUnique(s: string, r: string)
    requires StripOf(s, r) && IsTrimmed(r)
    ensures r == Trim(s)
  {
    var i :| StripAt(s, r, i);
    var t := Trim(s);
    var j :| StripAt(s, t, j);
    if r == [] {
      EmptyStrip(s, i);
    } else if t == [] {
      assert false;
    } else {
      SameStrip(s, r, i, t, j);
    }
  }

  /** Trimming an already trimmed string changes nothing. */
  lemma TrimTrimmed(s: string)
    requires IsTrimmed(s)
    ensures Trim(s) == s
  {
    assert s[0..0 + |s|] == s;
    assert s[..0] == [] && s[|s|..] == [];
    assert StripAt(s, s, 0);
    TrimUnique(s, s);
  }

  /** Trimming removes any white space around a trimmed string and nothing more. */
  lemma TrimAround(w1: string, e: string, w2: string)
    requires AllSpace(w1) && AllSpace(w2) && IsTrimmed(e)
    ensures Trim(w1 + e + w2) == e
  {
    var s := w1 + e + w2;
    var i := |w1|;
    assert s[..i] == w1;
    assert s[i..i + |e|] == e;
    assert s[i + |e|..] == w2;
    assert StripAt(s, e, i);
    TrimUnique(s, e);
  }

  /** Trimming removes a leading space from a trimmed string and nothing more. */
  lemma TrimLeadingSpace(r: string)
    requires IsTrimmed(r)
    ensures Trim([' '] + r) == r
  {
    var s := [' '] + r;
    assert s[1..1 + |r|] == r;
    assert s[..1] == [' '] && s[1 + |r|..] == [];
    assert StripAt(s, r, 1);
    TrimUnique(s, r);
  }

  /** `parts.join(sep)`. */
  function Join(parts: seq<string>, sep: string): string
  {
    if |parts| == 0 then ""
    else if |parts| == 1 then parts[0]
    else parts[0] + sep + Join(parts[1..], sep)
  }

  /** `s.split(sep)` for a one-character separator: the pieces between separators,
      including empty ones, and never fewer than one. */
  function Split(s: string, sep: char): (parts: seq<string>)
    ensures |parts| >= 1
    ensures forall i :: 0 <= i < |parts| ==> sep !in parts[i]
  {
    if |s| == 0 then [""]
    else
      var rest := Split(s[1..], sep);
      if s[0] == sep then [""] + rest
      else [[s[0]] + rest[0]] + rest[1..]
  }

  /** A join of a list that starts with `p` is `p`, the separator and the join of the rest. */
  lemma JoinCons(p: string, rest: seq<string>, sep: string)
    requires |rest| >= 1
    ensures Join([p] + rest, sep) == p + sep + Join(rest, sep)
  {
    assert ([p] + rest)[1..] == rest;
  }

  /** The join of two pieces. */
  lemma JoinPair(a: string, b: string, sep: string)
    ensures Join([a, b], sep) == a + sep + b
  {
    assert [a, b][1..] == [b];
  }

  /** The join of three pieces. */
  lemma JoinTriple(a: string, w: string, b: string, sep: string)
    ensures Join([a, w, b], sep) == a + sep + w + sep + b
  {
    assert [a, w, b][1..] == [w, b];
    JoinPair(w, b, sep);
  }

  /** Joining the pieces of a split with the separator gives the string back. */
  lemma {:induction false} JoinSplit(s: string, sep: char)
    ensures Join(Split(s, sep), [sep]) == s
  {
    if |s| > 0 {
      var rest := Split(s[1..], sep);
      JoinSplit(s[1..], sep);
      if s[0] == sep {
        JoinCons("", rest, [sep]);
      } else {
        var parts := [[s[0]] + rest[0]] + rest[1..];
        if |rest| == 1 {
          assert parts == [[s[0]] + rest[0]];
        } else {
          JoinCons(rest[0], rest[1..], [sep]);
          assert [rest[0]] + rest[1..] == rest;
          JoinCons([s[0]] + rest[0], rest[1..], [sep]);
        }
      }
      assert s == [s[0]] + s[1..];
    }
  }

  lemma SplitPlain(p: string, sep: char)
    requires sep !in p
    ensures Split(p, sep) == [p]
  {
    if |p| > 0 {
      SplitPlain(p[1..], sep);
      assert [p[0]] + p[1..] == p;
    }
  }

  lemma {:induction false} SplitCons(p: string, sep: char, t: string)
    requires sep !in p
    ensures Split(p + [sep] + t, sep) == [p] + Split(t, sep)
  {
    var s := p + [sep] + t;
    if |p| == 0 {
      assert s[0] == sep && s[1..] == t;
    } else {
      assert s[0] == p[0] && s[0] != sep;
      assert s[1..] == p[1..] + [sep] + t;
      SplitCons(p[1..], sep, t);
      var rest := Split(s[1..], sep);
      assert rest[0] == p[1..] && rest[1..] == Split(t, sep);
      assert [p[0]] + p[1..] == p;
    }
  }

  /** Splitting a join of separator-free pieces gives the pieces back. */
  lemma {:induction false} SplitJoin(parts: seq<string>, sep: char)
    requires |parts| >= 1
    requires forall i :: 0 <= i < |parts| ==> sep !in parts[i]
    ensures Split(Join(parts, [sep]), sep) == parts
  {
    if |parts| == 1 {
      SplitPlain(parts[0], sep);
    } else {
      SplitJoin(parts[1..], sep);
      SplitCons(parts[0], sep, Join(parts[1..], [sep]));
      assert [parts[0]] + parts[1..] == parts;
    }
  }

  /** The decimal digit for `d`. */
  function Digit(d: nat): char
    requires d < 10
  {
    "0123456789"[d]
  }

  predicate IsDigit(c: char) {
    '0' as int <= c as int <= '9' as int
  }

  /** The numeric value of a string of decimal digits. */
  function DigitsValue(s: string): nat
    requires forall k :: 0 <= k < |s| ==> IsDigit(s[k])
  {
    if |s| == 0 then 0
    else
      var c := s[|s| - 1];
      assert IsDigit(c);
      10 * DigitsValue(s[..|s| - 1]) + (c as int - '0' as int)
  }

  /** `String(n)` for a non-negative integral number below 10^21. */
  function NatText(n: nat): (r: string)
    ensures |r| >= 1
    ensures forall k :: 0 <= k < |r| ==> IsDigit(r[k])
    ensures |r| > 1 ==> r[0] != '0'
  {
    if n < 10 then [Digit(n)] else NatText(n / 10) + [Digit(n % 10)]
  }

  /** Reading the digits of `NatText(n)` back gives `n`. */
  lemma {:induction false} NatTextValue(n: nat)
    ensures DigitsValue(NatText(n)) == n
  {
    var r := NatText(n);
    if n < 10 {
      assert r[..0] == [];
    } else {
      NatTextValue(n / 10);
      assert r[..|r| - 1] == NatText(n / 10);
    }
  }

  /** `String(n)` for an integral number of magnitude below 10^21. */
  function IntText(n: int): (r: string)
    ensures |r| >= 1
    ensures n < 0 <==> r[0] == '-'
  {
    if n < 0 then "-" + NatText(-n) else NatText(n)
  }
}
