/** The few JavaScript string operations the chat code relies on:
    `indexOf`/`includes`, `toLowerCase`, `trim`, `Array.prototype.join`
    over strings and the decimal rendering of integers. */
module JsText {
  import opened Wrappers

  /** `p` occurs in `s` starting at index `i`. */
  predicate OccursAt(p: string, s: string, i: nat)
  {
    i + |p| <= |s| && s[i..i + |p|] == p
  }

  /** The first index at or after `from` where `p` occurs in `s`. */
  function IndexFrom(s: string, p: string, from: nat): (r: Option<nat>)
    requires from <= |s|
    ensures r.Some? ==> from <= r.value && OccursAt(p, s, r.value)
    ensures r.Some? ==> forall j :: from <= j < r.value ==> !OccursAt(p, s, j)
    ensures r.None? ==> forall j :: from <= j <= |s| ==> !OccursAt(p, s, j)
    decreases |s| - from
  {
    if OccursAt(p, s, from) then Some(from)
    else if from == |s| then None
    else IndexFrom(s, p, from + 1)
  }

  /** `s.indexOf(p)`, with "not found" as `None`. */
  function IndexOf(s: string, p: string): (r: Option<nat>)
    ensures r.Some? ==> OccursAt(p, s, r.value) && forall j :: 0 <= j < r.value ==> !OccursAt(p, s, j)
    ensures r.None? ==> forall j :: 0 <= j <= |s| ==> !OccursAt(p, s, j)
  {
    IndexFrom(s, p, 0)
  }

  /** `s.includes(p)`: plain substring containment, no word boundaries. */
  function Contains(s: string, p: string): (r: bool)
    ensures r <==> exists i :: 0 <= i <= |s| && OccursAt(p, s, i)
  {
    IndexOf(s, p).Some?
  }

  lemma ContainsInfix(a: string, p: string, b: string)
    ensures Contains(a + p + b, p)
  {
    var s := a + p + b;
    assert s[|a|..|a| + |p|] == p;
    assert OccursAt(p, s, |a|);
  }

  /** A string that contains `p` still contains it inside a longer one. */
  lemma ContainsExtend(s: string, p: string, a: string, b: string)
    requires Contains(s, p)
    ensures Contains(a + s + b, p)
  {
    var i :| 0 <= i <= |s| && OccursAt(p, s, i);
    var t := a + s + b;
    assert t[|a| + i..|a| + i + |p|] == s[i..i + |p|];
    assert OccursAt(p, t, |a| + i);
  }

  /** What the tail of a string contains, the string contains. */
  lemma ContainsTail(s: string, p: string)
    requires s != []
    ensures Contains(s[1..], p) ==> Contains(s, p)
  {
    if Contains(s[1..], p) {
      ContainsExtend(s[1..], p, [s[0]], []);
      assert [s[0]] + s[1..] + [] == s;
    }
  }

  /** An occurrence of `p + q` is also an occurrence of `p`. */
  lemma ContainsPrefixOfPattern(s: string, p: string, q: string)
    requires Contains(s, p + q)
    ensures Contains(s, p)
  {
    var i :| 0 <= i <= |s| && OccursAt(p + q, s, i);
    assert s[i..i + |p|] == (p + q)[..|p|];
    assert OccursAt(p, s, i);
  }

  /** Regrouping a concatenation of four strings. */
  lemma RegroupTail(a: string, b: string, c: string, d: string)
    ensures a + b + c + d == a + (b + c + d)
  {
  }

  /** Regrouping a concatenation of five strings. */
  lemma RegroupFive(a: string, b: string, c: string, d: string, e: string)
    ensures a + b + c + d + e == a + (b + c + d + e)
  {
  }

  /** Splitting off the first character of the left operand. */
  lemma ConsAssoc(a: string, x: string)
    requires a != []
    ensures [a[0]] + (a[1..] + x) == a + x
  {
    assert a == [a[0]] + a[1..];
  }

  lemma PrefixOfConcat(x: string, y: string)
    ensures (x + y)[..|x|] == x
  {
  }

  lemma SuffixOfConcat(x: string, y: string)
    ensures (x + y)[|x|..] == y
  {
  }

  /** Positions known to hold no occurrence can be skipped. */
  lemma {:induction false} IndexFromSkip(s: string, p: string, from: nat, until: nat)
    requires from <= until <= |s|
    requires forall j :: from <= j < until ==> !OccursAt(p, s, j)
    ensures IndexFrom(s, p, from) == IndexFrom(s, p, until)
    decreases until
  {
    if from < until {
      IndexFromSkip(s, p, from, until - 1);
    }
  }

  /** Searching `a + t` from inside `t` is searching `t`, shifted by `|a|`. */
  lemma {:induction false} IndexFromShift(a: string, t: string, p: string, k: nat)
    requires k <= |t|
    ensures IndexFrom(a + t, p, |a| + k)
            == if IndexFrom(t, p, k).Some? then Some(|a| + IndexFrom(t, p, k).value) else None
    decreases |t| - k
  {
    var s := a + t;
    assert OccursAt(p, s, |a| + k) <==> OccursAt(p, t, k) by {
      if |a| + k + |p| <= |s| {
        assert s[|a| + k..|a| + k + |p|] == t[k..k + |p|];
      }
    }
    if !OccursAt(p, t, k) && k < |t| {
      IndexFromShift(a, t, p, k + 1);
    }
  }

  /** Text appended after an occurrence does not change where the first
      occurrence is. */
  lemma {:induction false} IndexFromExtend(t: string, b: string, p: string, k: nat)
    requires k <= |t| && IndexFrom(t, p, k).Some?
    ensures IndexFrom(t + b, p, k) == IndexFrom(t, p, k)
    decreases |t| - k
  {
    var s := t + b;
    if OccursAt(p, t, k) {
      assert s[k..k + |p|] == t[k..k + |p|];
    } else {
      var e := IndexFrom(t, p, k).value;
      assert k < e && e + |p| <= |t|;
      assert s[k..k + |p|] == t[k..k + |p|];
      IndexFromExtend(t, b, p, k + 1);
    }
  }

  /** `toLowerCase` on one character, for the ASCII letters. */
  function LowerChar(c: char): char
  {
    if 'A' <= c <= 'Z' then (c as int + 32) as char else c
  }

  /** `toLowerCase`, character by character. */
  function ToLower(s: string): (r: string)
    ensures |r| == |s|
    ensures forall i :: 0 <= i < |s| ==> r[i] == LowerChar(s[i])
  {
    if s == [] then [] else [LowerChar(s[0])] + ToLower(s[1..])
  }

  /** The characters `String.prototype.trim` removes: ECMAScript's
      WhiteSpace and LineTerminator productions. */
  predicate IsJsWhitespace(c: char)
  {
    c == '\t' || c == '\n' || c == '\U{000B}' || c == '\U{000C}' || c == '\r' || c == ' '
    || c == '\U{00A0}' || c == '\U{1680}' || ('\U{2000}' <= c <= '\U{200A}')
    || c == '\U{2028}' || c == '\U{2029}' || c == '\U{202F}' || c == '\U{205F}'
    || c == '\U{3000}' || c == '\U{FEFF}'
  }

  predicate AllWhitespace(s: string)
  {
    forall i :: 0 <= i < |s| ==> IsJsWhitespace(s[i])
  }

  function TrimStart(s: string): (r: string)
    ensures |r| <= |s| && r == s[|s| - |r|..]
    ensures AllWhitespace(s[..|s| - |r|])
    ensures r == [] || !IsJsWhitespace(r[0])
  {
    if s != [] && IsJsWhitespace(s[0]) then TrimStart(s[1..]) else s
  }

  function TrimEnd(s: string): (r: string)
    ensures |r| <= |s| && r == s[..|r|]
    ensures AllWhitespace(s[|r|..])
    ensures r == [] || !IsJsWhitespace(r[|r| - 1])
  {
    if s != [] && IsJsWhitespace(s[|s| - 1]) then TrimEnd(s[..|s| - 1]) else s
  }

  /** `s.trim()`: whitespace cut off at both ends. */
  function Trim(s: string): string
  {
    TrimEnd(TrimStart(s))
  }

  /** What `trim` leaves neither starts nor ends with whitespace. */
  lemma TrimEndsNotWhitespace(s: string)
    ensures Trim(s) == [] || (!IsJsWhitespace(Trim(s)[0]) && !IsJsWhitespace(Trim(s)[|Trim(s)| - 1]))
  {
    CutBothEnds(s, TrimStart(s), Trim(s));
  }

  /** `trim` gives an infix of `s`, with only whitespace cut off on either
      side. */
  lemma TrimIsInfix(s: string)
    ensures exists i :: 0 <= i <= |s| - |Trim(s)| && Trim(s) == s[i..i + |Trim(s)|]
                        && AllWhitespace(s[..i]) && AllWhitespace(s[i + |Trim(s)|..])
  {
    CutBothEnds(s, TrimStart(s), Trim(s));
  }

  /** Cutting whitespace off the front of `s`, giving `t`, and then off the
      back of `t`, giving `r`, leaves `r` as an infix of `s`. */
  lemma CutBothEnds(s: string, t: string, r: string)
    requires |t| <= |s| && t == s[|s| - |t|..] && AllWhitespace(s[..|s| - |t|])
    requires t == [] || !IsJsWhitespace(t[0])
    requires |r| <= |t| && r == t[..|r|] && AllWhitespace(t[|r|..])
    requires r == [] || !IsJsWhitespace(r[|r| - 1])
    ensures r == [] || (!IsJsWhitespace(r[0]) && !IsJsWhitespace(r[|r| - 1]))
    ensures exists i :: 0 <= i <= |s| - |r| && r == s[i..i + |r|]
                        && AllWhitespace(s[..i]) && AllWhitespace(s[i + |r|..])
  {
    var i := |s| - |t|;
    assert r == s[i..i + |r|];
    assert s[i + |r|..] == t[|r|..];
    assert r != [] ==> r[0] == t[0];
  }

  /** Text that has no whitespace at either end is left alone by `trim`. */
  lemma TrimKeepsTrimmed(s: string)
    requires s == [] || (!IsJsWhitespace(s[0]) && !IsJsWhitespace(s[|s| - 1]))
    ensures Trim(s) == s
  {
  }

  function DigitChar(d: nat): char
    requires d < 10
  {
    "0123456789"[d]
  }

  /** The decimal numeral of `n`, as `String(n)` renders it. */
  function NatToString(n: nat): (r: string)
    ensures |r| >= 1
    ensures forall i :: 0 <= i < |r| ==> '0' <= r[i] <= '9'
    ensures r[0] == '0' <==> n == 0
  {
    if n < 10 then [DigitChar(n)] else NatToString(n / 10) + [DigitChar(n % 10)]
  }

  function IntToString(n: int): string
  {
    if n < 0 then "-" + NatToString(-n) else NatToString(n)
  }

  /** The value of a string of decimal digits. */
  function DecimalValue(s: string): nat
    requires forall i :: 0 <= i < |s| ==> '0' <= s[i] <= '9'
  {
    if s == [] then 0 else 10 * DecimalValue(s[..|s| - 1]) + (s[|s| - 1] as int - '0' as int)
  }

  /** Reading back a rendered numeral gives the number again. */
  lemma {:induction false} NatToStringRoundTrip(n: nat)
    ensures DecimalValue(NatToString(n)) == n
  {
    if n >= 10 {
      var q, d := n / 10, n % 10;
      NatToStringRoundTrip(q);
      var s := NatToString(n);
      assert s == NatToString(q) + [DigitChar(d)];
      assert s[..|s| - 1] == NatToString(q);
      assert DigitChar(d) as int - '0' as int == d;
      assert DecimalValue(s) == 10 * q + d;
    } else {
      assert DigitChar(n) as int - '0' as int == n;
    }
  }

  /** `parts.join(sep)` over strings. */
  function JoinWith(sep: string, parts: seq<string>): (r: string)
  {
    if |parts| == 0 then ""
    else if |parts| == 1 then parts[0]
    else parts[0] + sep + JoinWith(sep, parts[1..])
  }

  /** Joining with a trailing element appends the separator and that element. */
  lemma {:induction false} JoinWithSnoc(sep: string, parts: seq<string>, last: string)
    requires parts != []
    ensures JoinWith(sep, parts + [last]) == JoinWith(sep, parts) + sep + last
  {
    if |parts| > 1 {
      assert (parts + [last])[1..] == parts[1..] + [last];
      JoinWithSnoc(sep, parts[1..], last);
    }
  }

  /** Joining with the empty separator is plain concatenation. */
  lemma {:induction false} JoinEmptySepAppend(parts: seq<string>, more: seq<string>)
    ensures JoinWith("", parts + more) == JoinWith("", parts) + JoinWith("", more)
  {
    if parts == [] {
      assert parts + more == more;
    } else if |parts| == 1 {
      if more != [] {
        assert (parts + more)[1..] == more;
      }
    } else {
      assert (parts + more)[1..] == parts[1..] + more;
      JoinEmptySepAppend(parts[1..], more);
    }
  }
}
