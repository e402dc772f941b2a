/**
  The scanner the parser reads its input with: an NSScanner over an ASCII
  string with `charactersToBeSkipped` set to nil, so nothing is ever skipped
  silently. Each primitive is a function of the text and a position, and the
  `Scanner` class holds the text and the current position (`scanLocation`).
  As NSScanner does by default, string matches ignore (ASCII) case, while
  character-set scans compare characters exactly.
 */
module Scanning {
  import opened Options
  import opened Decimal

  function UpperAscii(c: char): char {
    if 'a' <= c <= 'z' then (c as int - 32) as char else c
  }

  predicate SameIgnoringCase(a: char, b: char) {
    UpperAscii(a) == UpperAscii(b)
  }

  /** `t` occurs at position `i` of `s`, up to case. */
  predicate MatchesAt(s: seq<char>, i: nat, t: seq<char>) {
    i + |t| <= |s| && forall k :: 0 <= k < |t| ==> SameIgnoringCase(s[i + k], t[k])
  }

  /** The length of the run of digits that starts at `i`. */
  function DigitRun(s: seq<char>, i: nat): (n: nat)
    requires i <= |s|
    ensures i + n <= |s|
    decreases |s| - i
  {
    if i < |s| && IsDigit(s[i]) then 1 + DigitRun(s, i + 1) else 0
  }

  /** The run is all digits, and it ends at the end or at a non-digit. */
  lemma {:induction false} DigitRunSpans(s: seq<char>, i: nat)
    requires i <= |s|
    ensures forall k :: i <= k < i + DigitRun(s, i) ==> IsDigit(s[k])
    ensures i + DigitRun(s, i) == |s| || !IsDigit(s[i + DigitRun(s, i)])
    decreases |s| - i
  {
    if i < |s| && IsDigit(s[i]) {
      DigitRunSpans(s, i + 1);
    }
  }

  /** The length of the run of characters from `cs` that starts at `i`. */
  function CharacterRun(s: seq<char>, i: nat, cs: set<char>): (n: nat)
    requires i <= |s|
    ensures i + n <= |s|
    decreases |s| - i
  {
    if i < |s| && s[i] in cs then 1 + CharacterRun(s, i + 1, cs) else 0
  }

  /** The run is all set characters, and it ends at the end or at a character outside the set. */
  lemma {:induction false} CharacterRunSpans(s: seq<char>, i: nat, cs: set<char>)
    requires i <= |s|
    ensures forall k :: i <= k < i + CharacterRun(s, i, cs) ==> s[k] in cs
    ensures i + CharacterRun(s, i, cs) == |s| || s[i + CharacterRun(s, i, cs)] !in cs
    decreases |s| - i
  {
    if i < |s| && s[i] in cs {
      CharacterRunSpans(s, i + 1, cs);
    }
  }

  /**
    `scanInteger`: an optional `+` or `-` and then at least one digit; the
    value read and the position after it, or nothing (position unchanged).
   */
  function IntegerAt(s: seq<char>, i: nat): (r: Option<(int, nat)>)
    requires i <= |s|
    ensures r.Some? ==> i < r.value.1 <= |s|
  {
    var signed := i < |s| && (s[i] == '+' || s[i] == '-');
    var start := if signed then i + 1 else i;
    var n := DigitRun(s, start);
    if n == 0 then None
    else
      var digits := s[start..start + n];
      assert AllDigits(digits) by {
        DigitRunSpans(s, start);
        forall k | 0 <= k < |digits| ensures IsDigit(digits[k]) {
          assert digits[k] == s[start + k];
        }
      }
      var v: int := DigitsValue(digits);
      var value: int := if signed && s[i] == '-' then -v else v;
      Some((value, start + n))
  }

  /** `scanString`: the position after `t` when `t` is next (up to case). */
  function StringAt(s: seq<char>, i: nat, t: seq<char>): (r: Option<nat>)
    requires i <= |s|
    ensures r.Some? <==> MatchesAt(s, i, t)
    ensures r.Some? ==> r.value == i + |t| <= |s|
  {
    if MatchesAt(s, i, t) then Some(i + |t|) else None
  }

  /** `scanCharactersFromSet`: the run of one or more characters from `cs` next, and the position after it. */
  function CharactersAt(s: seq<char>, i: nat, cs: set<char>): (r: Option<(seq<char>, nat)>)
    requires i <= |s|
    ensures r.Some? ==> i < r.value.1 <= |s| && r.value.0 == s[i..r.value.1]
    ensures r.None? <==> i == |s| || s[i] !in cs
  {
    var n := CharacterRun(s, i, cs);
    if n == 0 then None else Some((s[i..i + n], i + n))
  }

  /** The run `scanCharactersFromSet` takes is the longest one: all set characters, and no set character follows. */
  lemma CharactersAtLongest(s: seq<char>, i: nat, cs: set<char>)
    requires i <= |s|
    ensures var r := CharactersAt(s, i, cs);
      && (r.Some? ==> forall c :: c in r.value.0 ==> c in cs)
      && (r.Some? ==> r.value.1 == |s| || s[r.value.1] !in cs)
  {
    CharacterRunSpans(s, i, cs);
    var r := CharactersAt(s, i, cs);
    if r.Some? {
      forall c | c in r.value.0
        ensures c in cs
      {
        var k :| 0 <= k < |r.value.0| && r.value.0[k] == c;
        assert c == s[i + k];
      }
    }
  }

  /** `scanUpToString`: the first position at or after `i` where `t` occurs, or the end. */
  function UpToStringAt(s: seq<char>, i: nat, t: seq<char>): (j: nat)
    requires i <= |s|
    ensures i <= j <= |s|
    decreases |s| - i
  {
    if i == |s| || MatchesAt(s, i, t) then i else UpToStringAt(s, i + 1, t)
  }

  /** `scanUpToString` stops at the first match, or at the end when there is none. */
  lemma {:induction false} UpToStringAtFirst(s: seq<char>, i: nat, t: seq<char>)
    requires i <= |s|
    ensures forall k :: i <= k < UpToStringAt(s, i, t) ==> !MatchesAt(s, k, t)
    ensures UpToStringAt(s, i, t) < |s| ==> MatchesAt(s, UpToStringAt(s, i, t), t)
    decreases |s| - i
  {
    if !(i == |s| || MatchesAt(s, i, t)) {
      UpToStringAtFirst(s, i + 1, t);
    }
  }

  /** `scanUpToCharactersFromSet`: the first position at or after `i` holding a character of `cs`, or the end. */
  function UpToCharactersAt(s: seq<char>, i: nat, cs: set<char>): (j: nat)
    requires i <= |s|
    ensures i <= j <= |s|
    decreases |s| - i
  {
    if i == |s| || s[i] in cs then i else UpToCharactersAt(s, i + 1, cs)
  }

  /** `scanUpToCharactersFromSet` stops at the first set character, or at the end when there is none. */
  lemma {:induction false} UpToCharactersAtFirst(s: seq<char>, i: nat, cs: set<char>)
    requires i <= |s|
    ensures forall k :: i <= k < UpToCharactersAt(s, i, cs) ==> s[k] !in cs
    ensures UpToCharactersAt(s, i, cs) < |s| ==> s[UpToCharactersAt(s, i, cs)] in cs
    decreases |s| - i
  {
    if !(i == |s| || s[i] in cs) {
      UpToCharactersAtFirst(s, i + 1, cs);
    }
  }

  // ---------------------------------------------------------------------------
  // Reading known fields

  /** At `i` stand exactly `n >= 1` digits spelling `v`, and no further digit follows. */
  predicate DigitsAt(s: seq<char>, i: nat, n: nat, v: int) {
    && n >= 1 && i + n <= |s|
    && AllDigits(s[i..i + n]) && DigitsValue(s[i..i + n]) == v
    && (i + n == |s| || !IsDigit(s[i + n]))
  }

  /** `scanInteger` reads a whole unsigned digit field and stops right after it. */
  lemma IntegerAtDigits(s: seq<char>, i: nat, n: nat, v: int)
    requires DigitsAt(s, i, n, v)
    ensures IntegerAt(s, i) == Some((v, i + n))
  {
    DigitRunSpans(s, i);
    assert s[i] == s[i..i + n][0];
    forall k | i <= k < i + n
      ensures IsDigit(s[k])
    {
      assert s[k] == s[i..i + n][k - i];
    }
  }

  /** One, two or four digits, each followed by a non-digit or the end. */
  lemma DigitsAtOne(s: seq<char>, i: nat)
    requires i + 1 <= |s| && IsDigit(s[i]) && (i + 1 == |s| || !IsDigit(s[i + 1]))
    ensures DigitsAt(s, i, 1, DigitValue(s[i]))
  {
    assert s[i..i + 1] == [s[i]];
    assert [s[i]][..0] == [];
  }

  lemma DigitsAtTwo(s: seq<char>, i: nat)
    requires i + 2 <= |s| && IsDigit(s[i]) && IsDigit(s[i + 1]) && (i + 2 == |s| || !IsDigit(s[i + 2]))
    ensures DigitsAt(s, i, 2, DigitValue(s[i]) * 10 + DigitValue(s[i + 1]))
  {
    var t := s[i..i + 2];
    assert t[..1] == [s[i]] && [s[i]][..0] == [];
    assert DigitsValue(t[..1]) == DigitValue(s[i]);
    assert DigitsValue(t) == DigitsValue(t[..1]) * 10 + DigitValue(s[i + 1]);
  }

  lemma DigitsAtFour(s: seq<char>, i: nat)
    requires i + 4 <= |s| && IsDigit(s[i]) && IsDigit(s[i + 1]) && IsDigit(s[i + 2]) && IsDigit(s[i + 3])
    requires i + 4 == |s| || !IsDigit(s[i + 4])
    ensures DigitsAt(s, i, 4, ((DigitValue(s[i]) * 10 + DigitValue(s[i + 1])) * 10 + DigitValue(s[i + 2])) * 10 + DigitValue(s[i + 3]))
  {
    var t := s[i..i + 4];
    var a, b, c := t[..3], t[..2], t[..1];
    assert a[..2] == b && b[..1] == c && c[..0] == [];
    assert DigitsValue(c) == DigitValue(s[i]);
    assert DigitsValue(b) == DigitsValue(c) * 10 + DigitValue(s[i + 1]);
    assert DigitsValue(a) == DigitsValue(b) * 10 + DigitValue(s[i + 2]);
    assert DigitsValue(t) == DigitsValue(a) * 10 + DigitValue(s[i + 3]);
  }

  /** `scanInteger` finds nothing where neither a digit nor a sign followed by a digit stands. */
  lemma IntegerAtNothing(s: seq<char>, i: nat)
    requires i <= |s|
    requires i == |s| || (!IsDigit(s[i]) && s[i] != '+' && s[i] != '-')
    ensures IntegerAt(s, i).None?
  {
  }

  /** A one-character string is next exactly when that character is, up to case. */
  lemma MatchesOne(s: seq<char>, i: nat, c: char)
    ensures MatchesAt(s, i, [c]) <==> i < |s| && SameIgnoringCase(s[i], c)
  {
    if i < |s| && !SameIgnoringCase(s[i], c) {
      assert !SameIgnoringCase(s[i + 0], [c][0]);
    }
  }

  /** `scanUpToCharactersFromSet` stops at the first character of the set. */
  lemma UpToFirstOf(s: seq<char>, p: nat, q: nat, cs: set<char>)
    requires p <= q < |s| && s[q] in cs
    requires forall k :: p <= k < q ==> s[k] !in cs
    ensures UpToCharactersAt(s, p, cs) == q
  {
    UpToCharactersAtFirst(s, p, cs);
  }

  /** `scanCharactersFromSet` takes the whole run of set characters and no more. */
  lemma CharactersAtRun(s: seq<char>, q: nat, r: nat, cs: set<char>)
    requires q + r <= |s| && r >= 1
    requires forall k :: q <= k < q + r ==> s[k] in cs
    requires q + r == |s| || s[q + r] !in cs
    ensures CharactersAt(s, q, cs) == Some((s[q..q + r], q + r))
  {
    CharacterRunSpans(s, q, cs);
    assert s[q] in cs;
  }

  /** Only `z` and `Z` match `Z` up to case. */
  lemma NoLetterZ(s: seq<char>, p: nat)
    requires p <= |s| && 'Z' !in s[p..] && 'z' !in s[p..]
    ensures forall k :: p <= k < |s| ==> !SameIgnoringCase(s[k], 'Z')
  {
    forall k | p <= k < |s|
      ensures !SameIgnoringCase(s[k], 'Z')
    {
      assert s[k] == s[p..][k - p];
    }
  }

  /** The integer `scanInteger` reads is the value of the digits it passes over, negated after a `-`. */
  lemma IntegerAtReads(s: seq<char>, i: nat)
    requires i <= |s|
    ensures var signed := i < |s| && (s[i] == '+' || s[i] == '-');
      var start := if signed then i + 1 else i;
      && (IntegerAt(s, i).Some? <==> start < |s| && IsDigit(s[start]))
      && (IntegerAt(s, i).Some? ==>
            var (v, j) := IntegerAt(s, i).value;
            && AllDigits(s[start..j]) && (j == |s| || !IsDigit(s[j]))
            && v == (if signed && s[i] == '-' then -(DigitsValue(s[start..j]) as int) else DigitsValue(s[start..j])))
  {
    var signed := i < |s| && (s[i] == '+' || s[i] == '-');
    var start := if signed then i + 1 else i;
    var n := DigitRun(s, start);
    DigitRunSpans(s, start);
    if n > 0 {
      var digits := s[start..start + n];
      forall k | 0 <= k < |digits|
        ensures IsDigit(digits[k])
      {
        assert digits[k] == s[start + k];
      }
    }
  }

  /** An NSScanner: the text and the current scan location. */
  class Scanner {
    const text: seq<char>
    var pos: nat

    ghost predicate Valid()
      reads this
    {
      pos <= |text|
    }

    constructor (s: seq<char>)
      ensures text == s && pos == 0 && Valid()
    {
      text := s;
      pos := 0;
    }

    method ScanInteger() returns (found: bool, value: int)
      requires Valid()
      modifies this
      ensures Valid()
      ensures found == IntegerAt(text, old(pos)).Some?
      ensures found ==> (value, pos) == IntegerAt(text, old(pos)).value
      ensures !found ==> pos == old(pos)
    {
      var r := IntegerAt(text, pos);
      if r.Some? {
        found, value, pos := true, r.value.0, r.value.1;
      } else {
        found, value := false, 0;
      }
    }

    method ScanString(t: seq<char>) returns (found: bool)
      requires Valid()
      modifies this
      ensures Valid()
      ensures found == StringAt(text, old(pos), t).Some?
      ensures pos == if found then StringAt(text, old(pos), t).value else old(pos)
    {
      var r := StringAt(text, pos, t);
      found := r.Some?;
      if found {
        pos := r.value;
      }
    }

    method ScanCharactersFromSet(cs: set<char>) returns (found: bool, run: seq<char>)
      requires Valid()
      modifies this
      ensures Valid()
      ensures found == CharactersAt(text, old(pos), cs).Some?
      ensures found ==> (run, pos) == CharactersAt(text, old(pos), cs).value
      ensures !found ==> pos == old(pos)
    {
      var r := CharactersAt(text, pos, cs);
      if r.Some? {
        found, run, pos := true, r.value.0, r.value.1;
      } else {
        found, run := false, [];
      }
    }

    method ScanUpToString(t: seq<char>) returns (found: bool)
      requires Valid()
      modifies this
      ensures Valid()
      ensures pos == UpToStringAt(text, old(pos), t)
      ensures found == (pos > old(pos))
    {
      var j := UpToStringAt(text, pos, t);
      found := j > pos;
      pos := j;
    }

    method ScanUpToCharactersFromSet(cs: set<char>) returns (found: bool)
      requires Valid()
      modifies this
      ensures Valid()
      ensures pos == UpToCharactersAt(text, old(pos), cs)
      ensures found == (pos > old(pos))
    {
      var j := UpToCharactersAt(text, pos, cs);
      found := j > pos;
      pos := j;
    }
  }
}
