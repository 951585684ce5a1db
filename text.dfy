/** The JavaScript string operations the handlers and pages rely on: truthiness of an
    optional string, `trim`, `toLowerCase`, `indexOf`/`includes`, the last segment of
    `split(c)`, and the decimal printing of a whole number in a template literal. */
module Text {
  import opened Wrappers

  // ---------------------------------------------------------------------------
  // Truthiness

  /** `!!x` for a string-or-undefined: present and not the empty string. */
  predicate Truthy(o: Option<string>) {
    o.Some? && o.value != ""
  }

  /** `x || d` for a string-or-undefined. */
  function OrElse(o: Option<string>, d: string): (r: string)
    ensures Truthy(o) ==> r == o.value
    ensures !Truthy(o) ==> r == d
  {
    if Truthy(o) then o.value else d
  }

  // ---------------------------------------------------------------------------
  // Whitespace and trim

  /** The ECMAScript WhiteSpace and LineTerminator code points: exactly what
      `String.prototype.trim` strips and what `\s` matches in a regular expression. */
  predicate IsSpace(c: char) {
    || c == '\t' || c == '\n' || c == '\U{000B}' || c == '\U{000C}' || c == '\r' || c == ' '
    || c == '\U{00A0}' || c == '\U{1680}' || ('\U{2000}' <= c <= '\U{200A}')
    || c == '\U{2028}' || c == '\U{2029}' || c == '\U{202F}' || c == '\U{205F}'
    || c == '\U{3000}' || c == '\U{FEFF}'
  }

  predicate AllSpace(s: string) {
    forall i :: 0 <= i < |s| ==> IsSpace(s[i])
  }

  predicate NoSpace(s: string) {
    forall i :: 0 <= i < |s| ==> !IsSpace(s[i])
  }

  /** Neither end of s is whitespace. */
  predicate IsTrimmed(s: string) {
    s == [] || (!IsSpace(s[0]) && !IsSpace(s[|s| - 1]))
  }

  /** `trimStart`: drop the leading whitespace. */
  function TrimStart(s: string): (r: string)
    ensures |r| <= |s| && r == s[|s| - |r|..]
    ensures AllSpace(s[..|s| - |r|])
    ensures r == [] || !IsSpace(r[0])
  {
    if |s| > 0 && IsSpace(s[0]) then
      var r := TrimStart(s[1..]);
      assert s[..|s| - |r|] == [s[0]] + s[1..][..|s| - 1 - |r|];
      r
    else s
  }

  /** `trimEnd`: drop the trailing whitespace. */
  function TrimEnd(s: string): (r: string)
    ensures |r| <= |s| && r == s[..|r|]
    ensures AllSpace(s[|r|..])
    ensures r == [] || !IsSpace(r[|r| - 1])
  {
    if |s| > 0 && IsSpace(s[|s| - 1]) then
      var r := TrimEnd(s[..|s| - 1]);
      assert s[|r|..] == s[..|s| - 1][|r|..] + [s[|s| - 1]];
      r
    else s
  }

  /** `trim`: drop whitespace at both ends. */
  function Trim(s: string): (r: string)
    ensures IsTrimmed(r)
    ensures |r| <= |s|
  {
    TrimEnd(TrimStart(s))
  }

  lemma {:induction false} TrimStartSkips(a: string, t: string)
    requires AllSpace(a)
    requires t == [] || !IsSpace(t[0])
    ensures TrimStart(a + t) == t
  {
    if a != [] {
      assert (a + t)[1..] == a[1..] + t;
      TrimStartSkips(a[1..], t);
    } else {
      assert a + t == t;
    }
  }

  lemma {:induction false} TrimEndSkips(t: string, b: string)
    requires AllSpace(b)
    requires t == [] || !IsSpace(t[|t| - 1])
    ensures TrimEnd(t + b) == t
  {
    if b != [] {
      assert (t + b)[..|t + b| - 1] == t + b[..|b| - 1];
      TrimEndSkips(t, b[..|b| - 1]);
    } else {
      assert t + b == t;
    }
  }

  /** `trim` is characterised by its result alone: whenever s is whitespace, then a
      trimmed middle, then whitespace, `trim` returns that middle. */
  lemma TrimOfPadded(a: string, m: string, b: string)
    requires AllSpace(a) && AllSpace(b) && IsTrimmed(m)
    ensures Trim(a + m + b) == m
  {
    if m == [] {
      assert a + m + b == a + b;
      assert AllSpace(a + b);
      TrimStartSkips(a + b, []);
      assert a + b + [] == a + b;
      TrimEndSkips([], []);
    } else {
      assert a + m + b == a + (m + b);
      TrimStartSkips(a, m + b);
      TrimEndSkips(m, b);
    }
  }

  /** A string without whitespace is left unchanged by `trim`. */
  lemma TrimNoSpace(s: string)
    requires NoSpace(s)
    ensures Trim(s) == s
  {
    assert [] + s + [] == s;
    TrimOfPadded([], s, []);
  }

  /** A string made only of whitespace trims to the empty string. */
  lemma TrimAllSpace(s: string)
    requires AllSpace(s)
    ensures Trim(s) == ""
  {
    assert s + [] + [] == s;
    TrimOfPadded(s, [], []);
  }

  /** `trim` leaves a string with no whitespace at either end as it is. */
  lemma TrimOfTrimmed(t: string)
    requires IsTrimmed(t)
    ensures Trim(t) == t
  {
    assert TrimStart(t) == t;
    assert TrimEnd(t) == t;
  }

  /** `trim` is idempotent. */
  lemma TrimIdempotent(s: string)
    ensures Trim(Trim(s)) == Trim(s)
  {
    TrimOfTrimmed(Trim(s));
  }

  // ---------------------------------------------------------------------------
  // Lower case

  /** `toLowerCase` on one character, for the ASCII letters A-Z. */
  function LowerChar(c: char): char {
    if 'A' <= c <= 'Z' then (c as int + 32) as char else c
  }

  /** `toLowerCase`, ASCII case mapping only. */
  function ToLower(s: string): (r: string)
    ensures |r| == |s|
    ensures forall i :: 0 <= i < |s| ==> r[i] == LowerChar(s[i])
  {
    seq(|s|, i requires 0 <= i < |s| => LowerChar(s[i]))
  }

  lemma ToLowerAppend(s: string, t: string)
    ensures ToLower(s + t) == ToLower(s) + ToLower(t)
  {
  }

  /** Lower-casing changes only the letters A-Z, none of which is whitespace. */
  lemma LowerCharKeepsSpace(c: char)
    ensures IsSpace(LowerChar(c)) <==> IsSpace(c)
  {
  }

  /** One step of `trimStart`: a leading space is dropped, anything else stops it. */
  lemma TrimStartStep(s: string)
    requires |s| > 0
    ensures IsSpace(s[0]) ==> TrimStart(s) == TrimStart(s[1..])
    ensures !IsSpace(s[0]) ==> TrimStart(s) == s
  {
  }

  /** One step of `trimEnd`. */
  lemma TrimEndStep(s: string)
    requires |s| > 0
    ensures IsSpace(s[|s| - 1]) ==> TrimEnd(s) == TrimEnd(s[..|s| - 1])
    ensures !IsSpace(s[|s| - 1]) ==> TrimEnd(s) == s
  {
  }

  lemma {:induction false} TrimStartToLower(s: string)
    ensures TrimStart(ToLower(s)) == ToLower(TrimStart(s))
  {
    var u := ToLower(s);
    if |s| > 0 {
      LowerCharKeepsSpace(s[0]);
      assert IsSpace(u[0]) <==> IsSpace(s[0]);
      if IsSpace(s[0]) {
        assert u[1..] == ToLower(s[1..]);
        TrimStartToLower(s[1..]);
        TrimStartStep(u);
        TrimStartStep(s);
      } else {
        TrimStartStep(u);
        TrimStartStep(s);
      }
    }
  }

  lemma {:induction false} TrimEndToLower(s: string)
    ensures TrimEnd(ToLower(s)) == ToLower(TrimEnd(s))
  {
    var u := ToLower(s);
    if |s| > 0 {
      LowerCharKeepsSpace(s[|s| - 1]);
      assert IsSpace(u[|u| - 1]) <==> IsSpace(s[|s| - 1]);
      if IsSpace(s[|s| - 1]) {
        assert u[..|u| - 1] == ToLower(s[..|s| - 1]);
        TrimEndToLower(s[..|s| - 1]);
        TrimEndStep(u);
        TrimEndStep(s);
      } else {
        TrimEndStep(u);
        TrimEndStep(s);
      }
    }
  }

  /** Lower-casing leaves whitespace where it was, so it commutes with `trim`:
      `s.trim().toLowerCase()` and `s.toLowerCase().trim()` are the same string. */
  lemma TrimToLowerCommute(s: string)
    ensures Trim(ToLower(s)) == ToLower(Trim(s))
  {
    TrimStartToLower(s);
    TrimEndToLower(TrimStart(s));
  }

  // ---------------------------------------------------------------------------
  // Searching

  /** pat occurs in s starting at index k. */
  predicate OccursAt(s: string, pat: string, k: int) {
    0 <= k && k + |pat| <= |s| && s[k..k + |pat|] == pat
  }

  /** `s.indexOf(pat, from)`: the first index at or after from at which pat occurs. */
  function IndexFrom(s: string, pat: string, from: nat): (r: Option<nat>)
    ensures r.Some? ==> from <= r.value && OccursAt(s, pat, r.value)
    ensures r.Some? ==> forall k :: from <= k < r.value ==> !OccursAt(s, pat, k)
    ensures r.None? ==> forall k :: from <= k ==> !OccursAt(s, pat, k)
    decreases |s| - from
  {
    if from + |pat| > |s| then None
    else if s[from..from + |pat|] == pat then Some(from)
    else IndexFrom(s, pat, from + 1)
  }

  /** `s.indexOf(pat)`: the first index at which pat occurs, if any. */
  function IndexOf(s: string, pat: string): (r: Option<nat>)
    ensures r.Some? ==> OccursAt(s, pat, r.value)
    ensures r.Some? ==> forall k :: 0 <= k < r.value ==> !OccursAt(s, pat, k)
    ensures r.None? ==> forall k :: !OccursAt(s, pat, k)
  {
    IndexFrom(s, pat, 0)
  }

  /** `s.includes(pat)`. */
  predicate Contains(s: string, pat: string) {
    IndexOf(s, pat).Some?
  }

  /** `includes` holds exactly when pat occurs somewhere in s. */
  lemma ContainsIffOccurs(s: string, pat: string)
    ensures Contains(s, pat) <==> exists k :: OccursAt(s, pat, k)
  {
    var r := IndexOf(s, pat);
    if r.Some? {
      assert OccursAt(s, pat, r.value);
    }
  }

  /** An occurrence inside a slice is an occurrence in the whole string. */
  lemma OccursInSlice(s: string, pat: string, a: nat, b: nat, k: nat)
    requires a <= b <= |s| && OccursAt(s[a..b], pat, k)
    ensures OccursAt(s, pat, a + k)
  {
    var t := s[a..b];
    forall i | 0 <= i < |pat| ensures s[a + k + i] == pat[i] {
      assert t[k..k + |pat|][i] == t[k + i] == s[a + k + i];
    }
    assert s[a + k..a + k + |pat|] == pat;
  }

  /** A slice of s that holds no start of an occurrence in s holds no occurrence. */
  lemma NoOccurrenceInSlice(s: string, pat: string, a: nat, b: nat)
    requires pat != [] && a <= b <= |s|
    requires forall k :: a <= k < b ==> !OccursAt(s, pat, k)
    ensures !Contains(s[a..b], pat)
  {
    forall k | OccursAt(s[a..b], pat, k) ensures false {
      OccursInSlice(s, pat, a, b, k);
    }
    ContainsIffOccurs(s[a..b], pat);
  }

  /** `s.split(pat)[1]` when pat occurs: the text after the first occurrence, up to the
      next occurrence (searched for from the end of the first) or the end. */
  function SecondPiece(s: string, pat: string): (r: string)
    requires Contains(s, pat)
    ensures |r| <= |s|
  {
    var start := IndexOf(s, pat).value + |pat|;
    match IndexFrom(s, pat, start)
    case None => s[start..]
    case Some(e) => s[start..e]
  }

  /** The second piece starts right after the first occurrence, ends at the next one (or
      at the end of s) and holds no occurrence of its own. */
  lemma SecondPieceBetween(s: string, pat: string)
    requires pat != [] && Contains(s, pat)
    ensures var start := IndexOf(s, pat).value + |pat|;
            start + |SecondPiece(s, pat)| <= |s| && SecondPiece(s, pat) == s[start..start + |SecondPiece(s, pat)|]
    ensures !Contains(SecondPiece(s, pat), pat)
    ensures SecondPieceEnd(s, pat, IndexOf(s, pat).value + |pat| + |SecondPiece(s, pat)|)
  {
    var start := IndexOf(s, pat).value + |pat|;
    var end := PieceEnd(s, pat, start);
    SecondPieceSpan(s, pat, start, end);
    NoOccurrenceInSlice(s, pat, start, end);
  }

  /** Where the piece that starts at start ends: the next occurrence, or the end of s. */
  function PieceEnd(s: string, pat: string, start: nat): (end: nat)
    requires start <= |s|
    ensures start <= end <= |s|
    ensures forall k :: start <= k < end ==> !OccursAt(s, pat, k)
    ensures SecondPieceEnd(s, pat, end)
  {
    match IndexFrom(s, pat, start)
    case None => |s|
    case Some(e) => e
  }

  /** The second piece is the slice from the end of the first occurrence to PieceEnd. */
  lemma SecondPieceSpan(s: string, pat: string, start: nat, end: nat)
    requires Contains(s, pat) && start == IndexOf(s, pat).value + |pat|
    requires start <= |s| && end == PieceEnd(s, pat, start)
    ensures SecondPiece(s, pat) == s[start..end]
  {
  }

  /** The second piece of a split ends at the end of s or where pat occurs again. */
  predicate SecondPieceEnd(s: string, pat: string, e: int) {
    e == |s| || OccursAt(s, pat, e)
  }

  /** `s.split(c).pop()`: the text after the last c, or all of s when c does not occur. */
  function AfterLast(s: string, c: char): (r: string)
    ensures |r| <= |s| && r == s[|s| - |r|..]
    ensures c !in r
    ensures |r| < |s| ==> s[|s| - |r| - 1] == c
  {
    if s == [] then []
    else if s[|s| - 1] == c then []
    else
      var r' := AfterLast(s[..|s| - 1], c);
      assert s[..|s| - 1][|s| - 1 - |r'|..] + [s[|s| - 1]] == s[|s| - 1 - |r'|..];
      r' + [s[|s| - 1]]
  }

  /** When c does not occur, the last segment is the whole string. */
  lemma AfterLastAbsent(s: string, c: char)
    requires c !in s
    ensures AfterLast(s, c) == s
  {
  }

  /** When s ends with `c` + t and t has no c, the last segment is t. */
  lemma AfterLastOf(p: string, c: char, t: string)
    requires c !in t
    ensures AfterLast(p + [c] + t, c) == t
  {
    var s := p + [c] + t;
    assert s[|s| - |t| - 1] == c;
    assert s[|s| - |t|..] == t;
  }

  // ---------------------------------------------------------------------------
  // Decimal numbers (a whole number in a template literal)

  predicate IsDigit(c: char) {
    '0' <= c <= '9'
  }

  function DigitChar(d: nat): (c: char)
    requires d < 10
    ensures IsDigit(c)
  {
    ('0' as int + d) as char
  }

  function DigitValue(c: char): (d: nat)
    requires IsDigit(c)
    ensures d < 10 && DigitChar(d) == c
  {
    c as int - '0' as int
  }

  /** The shortest decimal spelling of n. */
  function NatToString(n: nat): (r: string)
    ensures |r| >= 1
    ensures forall i :: 0 <= i < |r| ==> IsDigit(r[i])
    ensures |r| > 1 ==> r[0] != '0'
  {
    if n < 10 then [DigitChar(n)] else NatToString(n / 10) + [DigitChar(n % 10)]
  }

  /** `${n}` for a whole number, with a leading '-' when negative. */
  function IntToString(n: int): (r: string)
    ensures |r| >= 1
    ensures (r[0] == '-') <==> n < 0
    ensures forall i :: (if r[0] == '-' then 1 else 0) <= i < |r| ==> IsDigit(r[i])
  {
    if n < 0 then "-" + NatToString(-n) else NatToString(n)
  }

  /** Reads a run of decimal digits back as a number. */
  function ParseNat(s: string): nat
    requires forall i :: 0 <= i < |s| ==> IsDigit(s[i])
  {
    if s == [] then 0 else ParseNat(s[..|s| - 1]) * 10 + DigitValue(s[|s| - 1])
  }

  /** Reads `${n}` back as the integer n, undoing IntToString. */
  function ParseInt(s: string): int
    requires |s| >= 1
    requires forall i :: (if s[0] == '-' then 1 else 0) <= i < |s| ==> IsDigit(s[i])
  {
    if s[0] == '-' then -(ParseNat(s[1..]) as int) else ParseNat(s)
  }

  lemma {:induction false} NatToStringRoundTrip(n: nat)
    ensures ParseNat(NatToString(n)) == n
  {
    if n >= 10 {
      var p := NatToString(n / 10);
      var s := p + [DigitChar(n % 10)];
      assert s[..|s| - 1] == p;
      NatToStringRoundTrip(n / 10);
    }
  }

  /** Printing a whole number and reading it back gives the number. */
  lemma IntToStringRoundTrip(n: int)
    ensures ParseInt(IntToString(n)) == n
  {
    if n < 0 {
      var s := IntToString(n);
      assert s[1..] == NatToString(-n);
      NatToStringRoundTrip(-n);
    } else {
      NatToStringRoundTrip(n);
    }
  }

  /** Distinct numbers print differently. */
  lemma IntToStringInjective(m: int, n: int)
    requires IntToString(m) == IntToString(n)
    ensures m == n
  {
    IntToStringRoundTrip(m);
    IntToStringRoundTrip(n);
  }
}
