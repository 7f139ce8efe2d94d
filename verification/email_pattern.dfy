/** The storefront's email check: `/\S+@\S+\.\S+/.test(s)`, an unanchored search.
    The regular expression's meaning is stated as a ghost predicate over positions, and a
    single left-to-right scan is proved to decide it. */
module EmailPattern {
  import opened JsText

  /** The pattern matches with its `@` at `p` and its `.` at `q`: a non-space character
      before the `@`, a non-empty run of non-space characters between the two, and a
      non-space character after the `.`. Longer `\S+` runs only extend these. */
  ghost predicate MatchAt(s: string, p: int, q: int) {
    && 1 <= p && p + 2 <= q && q + 1 < |s|
    && s[p] == '@' && s[q] == '.'
    && !IsSpace(s[p - 1]) && !IsSpace(s[q + 1])
    && forall k :: p < k < q ==> !IsSpace(s[k])
  }

  /** `/\S+@\S+\.\S+/.test(s)`. */
  ghost predicate Matches(s: string) {
    exists p, q :: MatchAt(s, p, q)
  }

  /** A match lies entirely within the first `n` characters. */
  ghost predicate MatchedBy(s: string, n: int) {
    exists p, q :: MatchAt(s, p, q) && q + 1 < n
  }

  /** `@` at `p` has a non-space character before it and only non-space characters from it up to `i`. */
  ghost predicate AtOk(s: string, i: int, p: int) {
    && 1 <= p < i <= |s|
    && s[p] == '@' && !IsSpace(s[p - 1])
    && forall k :: p < k < i ==> !IsSpace(s[k])
  }

  /** The scan's states, after reading a prefix:
      0 nothing usable (start, or just after white space);
      1 inside a non-space run with no usable `@` yet;
      2 a usable `@` was the last character read;
      3 a usable `@` with at least one non-space character after it;
      4 as 3, and the last character read is a `.` that can close the middle run;
      5 a match has been seen. */
  function Step(st: nat, c: char): nat {
    if st == 5 then 5
    else if IsSpace(c) then 0
    else if st == 0 then 1
    else if st == 1 then (if c == '@' then 2 else 1)
    else if st == 2 then 3
    else if st == 3 then (if c == '.' then 4 else 3)
    else 5
  }

  /** What each state says about the first `i` characters of `s`. */
  ghost predicate Inv(s: string, i: int, st: nat) {
    && 0 <= i <= |s|
    && st <= 5
    && (st == 5 <==> MatchedBy(s, i))
    && (st == 0 ==> i == 0 || IsSpace(s[i - 1]))
    && (st == 1 ==> i >= 1 && !IsSpace(s[i - 1]) && forall p :: !AtOk(s, i, p))
    && (st == 2 ==> AtOk(s, i, i - 1) && forall p :: AtOk(s, i, p) ==> p == i - 1)
    && (st == 3 ==> (exists p :: AtOk(s, i, p) && p <= i - 2) && !Closing(s, i))
    && (st == 4 ==> Closing(s, i))
  }

  /** The last character read is a `.` that ends a non-empty run after a usable `@`. */
  ghost predicate Closing(s: string, i: int) {
    1 <= i <= |s| && s[i - 1] == '.' && exists p :: AtOk(s, i, p) && p <= i - 3
  }

  lemma AtOkExtend(s: string, i: int, p: int)
    requires 0 <= i < |s| && !IsSpace(s[i])
    ensures p < i ==> (AtOk(s, i + 1, p) <==> AtOk(s, i, p))
  {
  }

  lemma AtOkAfterSpace(s: string, i: int, p: int)
    requires 0 <= i < |s| && IsSpace(s[i])
    ensures !AtOk(s, i + 1, p)
  {
  }

  /** A match ending with the character at `i` is exactly a `Closing` prefix of length `i`. */
  lemma NewMatch(s: string, i: int)
    requires 0 <= i < |s|
    ensures MatchedBy(s, i + 1) <==> MatchedBy(s, i) || (Closing(s, i) && !IsSpace(s[i]))
  {
    if MatchedBy(s, i + 1) && !MatchedBy(s, i) {
      var p, q :| MatchAt(s, p, q) && q + 1 < i + 1;
      assert q == i - 1;
      assert AtOk(s, i, p);
    }
    if Closing(s, i) && !IsSpace(s[i]) {
      var p :| AtOk(s, i, p) && p <= i - 3;
      assert MatchAt(s, p, i - 1);
    }
  }

  lemma StepSpace(s: string, i: int, st: nat)
    requires Inv(s, i, st) && i < |s| && st != 5 && IsSpace(s[i])
    ensures Inv(s, i + 1, Step(st, s[i]))
  {
    NewMatch(s, i);
    var j := i + 1;
    forall p ensures !AtOk(s, j, p) { AtOkAfterSpace(s, i, p); }
  }

  lemma StepFrom0(s: string, i: int)
    requires Inv(s, i, 0) && i < |s| && !IsSpace(s[i])
    ensures Inv(s, i + 1, 1)
  {
    NewMatch(s, i);
    var j := i + 1;
    assert forall p :: !AtOk(s, j, p);
  }

  lemma StepFrom1(s: string, i: int)
    requires Inv(s, i, 1) && i < |s| && !IsSpace(s[i])
    ensures Inv(s, i + 1, Step(1, s[i]))
  {
    NewMatch(s, i);
    var j := i + 1;
    forall p | p < i ensures !AtOk(s, j, p) { AtOkExtend(s, i, p); }
  }

  lemma StepFrom2(s: string, i: int)
    requires Inv(s, i, 2) && i < |s| && !IsSpace(s[i])
    ensures Inv(s, i + 1, 3)
  {
    NewMatch(s, i);
    AtOkExtend(s, i, i - 1);
    assert AtOk(s, i + 1, i - 1);
    if Closing(s, i + 1) {
      var p :| AtOk(s, i + 1, p) && p <= i - 2;
      AtOkExtend(s, i, p);
    }
  }

  lemma StepFrom3(s: string, i: int)
    requires Inv(s, i, 3) && i < |s| && !IsSpace(s[i])
    ensures Inv(s, i + 1, Step(3, s[i]))
  {
    NewMatch(s, i);
    var p :| AtOk(s, i, p) && p <= i - 2;
    AtOkExtend(s, i, p);
    if s[i] == '.' {
      assert Closing(s, i + 1);
    } else {
      assert !Closing(s, i + 1);
    }
  }

  lemma StepFrom4(s: string, i: int)
    requires Inv(s, i, 4) && i < |s| && !IsSpace(s[i])
    ensures Inv(s, i + 1, 5)
  {
    NewMatch(s, i);
  }

  /** Reading one more character keeps each state's meaning. */
  lemma StepKeepsInv(s: string, i: int, st: nat)
    requires Inv(s, i, st) && i < |s| && st != 5
    ensures Inv(s, i + 1, Step(st, s[i]))
  {
    if IsSpace(s[i]) {
      StepSpace(s, i, st);
    } else if st == 0 {
      StepFrom0(s, i);
    } else if st == 1 {
      StepFrom1(s, i);
    } else if st == 2 {
      StepFrom2(s, i);
    } else if st == 3 {
      StepFrom3(s, i);
    } else {
      StepFrom4(s, i);
    }
  }

  /** Decides `/\S+@\S+\.\S+/.test(s)` in one pass, stopping at the first match. */
  method Test(s: string) returns (b: bool)
    ensures b <==> Matches(s)
  {
    var st: nat := 0;
    var i := 0;
    while i < |s| && st != 5
      invariant Inv(s, i, st)
    {
      StepKeepsInv(s, i, st);
      st := Step(st, s[i]);
      i := i + 1;
    }
    b := st == 5;
  }

  /** A string without `@` never matches. */
  lemma NoAtNoMatch(s: string)
    requires '@' !in s
    ensures !Matches(s)
  {
  }

  /** A string without `.` never matches. */
  lemma NoDotNoMatch(s: string)
    requires '.' !in s
    ensures !Matches(s)
  {
  }

  /** Sample inputs: plain addresses match, and so does text around one, since the
      search is unanchored; a word without `@`, or a space inside the domain, does not. */
  lemma Examples()
    ensures Matches("a@b.c")
    ensures Matches("jo@mail.example.com")
    ensures Matches("write to x@y.z today")
    ensures !Matches("not-an-email")
    ensures !Matches("a@b. c")
  {
    assert MatchAt("a@b.c", 1, 3);
    assert MatchAt("jo@mail.example.com", 2, 7);
    assert MatchAt("write to x@y.z today", 10, 12);
    NoAtNoMatch("not-an-email");
  }
}
