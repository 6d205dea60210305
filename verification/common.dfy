/**
 * Shared vocabulary of the model: optional values, the whitespace and
 * lower-casing rules that Python's `str.strip`/`str.lower` and JavaScript's
 * `String.prototype.trim` apply to the ASCII range, comma splitting, order-keeping
 * filters, and the decimal conversions behind JavaScript's `String(n)` and
 * `Number(s)`.
 */
module Common {

  datatype Option<T> = None | Some(value: T)

  /** What a list request returned: the list, or the message of the error it threw. */
  datatype Fetched<T> = Fetched(value: T) | FetchFailed(message: string)

  /** A check that either passes or fails with an error value. */
  datatype Outcome<E> = Pass | Fail(error: E)

  /** The status values of a campaign join request, as the backend stores and sends them. */
  datatype RequestStatus = Pending | Accepted | Rejected

  // ---------------------------------------------------------------------------
  // Whitespace and trimming
  // ---------------------------------------------------------------------------

  /** Space, tab, line feed, carriage return, vertical tab and form feed. */
  predicate IsWhitespace(c: char) {
    c == ' ' || c == '\t' || c == '\n' || c == '\r' || c == '\U{0B}' || c == '\U{0C}'
  }

  predicate AllWhitespace(s: string) {
    forall i :: 0 <= i < |s| ==> IsWhitespace(s[i])
  }

  /** Neither end of `s` is whitespace (the empty string counts as trimmed). */
  predicate IsTrimmed(s: string) {
    s == [] || (!IsWhitespace(s[0]) && !IsWhitespace(s[|s| - 1]))
  }

  /** Drops leading whitespace. */
  function TrimStart(s: string): (r: string)
    ensures |r| <= |s|
    ensures r == [] || !IsWhitespace(r[0])
  {
    if s != [] && IsWhitespace(s[0]) then TrimStart(s[1..]) else s
  }

  /** What `TrimStart` drops is a whitespace-only prefix: the result is the rest. */
  lemma {:induction false} TrimStartIsSuffix(s: string)
    ensures |TrimStart(s)| <= |s| && TrimStart(s) == s[|s| - |TrimStart(s)|..]
    ensures AllWhitespace(s[..|s| - |TrimStart(s)|])
  {
    if s != [] && IsWhitespace(s[0]) {
      TrimStartIsSuffix(s[1..]);
      var k := |s| - |TrimStart(s)|;
      assert s[..k] == [s[0]] + s[1..][..k - 1];
      assert s[k..] == s[1..][k - 1..];
    }
  }

  /** Drops trailing whitespace. */
  function TrimEnd(s: string): (r: string)
    ensures |r| <= |s|
    ensures r == [] || !IsWhitespace(r[|r| - 1])
  {
    if s != [] && IsWhitespace(s[|s| - 1]) then TrimEnd(s[..|s| - 1]) else s
  }

  /** What `TrimEnd` drops is a whitespace-only suffix: the result is the rest. */
  lemma {:induction false} TrimEndIsPrefix(s: string)
    ensures |TrimEnd(s)| <= |s| && TrimEnd(s) == s[..|TrimEnd(s)|]
    ensures AllWhitespace(s[|TrimEnd(s)|..])
  {
    if s != [] && IsWhitespace(s[|s| - 1]) {
      var s' := s[..|s| - 1];
      TrimEndIsPrefix(s');
      var k := |TrimEnd(s)|;
      assert s[..k] == s'[..k];
      assert s[k..] == s'[k..] + [s[|s| - 1]];
    }
  }

  /** `str.strip()` / `String.prototype.trim()` over the whitespace above. */
  function Trim(s: string): (r: string)
    ensures |r| <= |s|
    ensures IsTrimmed(r)
  {
    var t := TrimStart(s);
    TrimEndIsPrefix(t);
    var r := TrimEnd(t);
    assert r != [] ==> r[0] == t[0];
    r
  }

  lemma TrimStartOfWhitespace(s: string)
    requires AllWhitespace(s)
    ensures TrimStart(s) == []
  {
  }

  /** A string trims to nothing exactly when it is all whitespace. */
  lemma {:induction false} TrimEmptyIffWhitespace(s: string)
    ensures Trim(s) == [] <==> AllWhitespace(s)
  {
    var t := TrimStart(s);
    if AllWhitespace(s) {
      TrimStartOfWhitespace(s);
    } else {
      TrimStartIsSuffix(s);
      var k :| 0 <= k < |s| && !IsWhitespace(s[k]);
      assert |s| - |t| <= k;
      assert t != [] && !IsWhitespace(t[0]);
      var r := TrimEnd(t);
      TrimEndIsPrefix(t);
      assert r != [] by {
        assert AllWhitespace(t[|r|..]);
      }
    }
  }

  /** A trimmed string is its own trim. */
  lemma TrimOfTrimmed(s: string)
    requires IsTrimmed(s)
    ensures Trim(s) == s
  {
    if s != [] {
      assert TrimStart(s) == s;
      assert TrimEnd(s) == s;
    }
  }

  lemma {:induction false} TrimStartAfterWhitespace(p: string, x: string)
    requires AllWhitespace(p)
    ensures TrimStart(p + x) == TrimStart(x)
    decreases |p|
  {
    if p != [] {
      var s := p + x;
      assert s[0] == p[0] && s[1..] == p[1..] + x;
      assert IsWhitespace(s[0]);
      assert TrimStart(s) == TrimStart(s[1..]);
      TrimStartAfterWhitespace(p[1..], x);
    } else {
      assert p + x == x;
    }
  }

  lemma {:induction false} TrimEndBeforeWhitespace(x: string, q: string)
    requires AllWhitespace(q)
    ensures TrimEnd(x + q) == TrimEnd(x)
    decreases |q|
  {
    if q != [] {
      var s := x + q;
      assert s[|s| - 1] == q[|q| - 1] && s[..|s| - 1] == x + q[..|q| - 1];
      assert IsWhitespace(s[|s| - 1]);
      assert TrimEnd(s) == TrimEnd(s[..|s| - 1]);
      TrimEndBeforeWhitespace(x, q[..|q| - 1]);
    } else {
      assert x + q == x;
    }
  }

  lemma {:induction false} TrimStartKeepsTail(s: string, q: string)
    requires !AllWhitespace(s)
    ensures TrimStart(s + q) == TrimStart(s) + q
    decreases |s|
  {
    if IsWhitespace(s[0]) {
      assert (s + q)[1..] == s[1..] + q;
      assert !AllWhitespace(s[1..]) by {
        var k :| 0 <= k < |s| && !IsWhitespace(s[k]);
        assert s[1..][k - 1] == s[k];
      }
      TrimStartKeepsTail(s[1..], q);
    }
  }

  /** Surrounding whitespace never changes the trimmed text. */
  lemma TrimIgnoresPadding(p: string, s: string, q: string)
    requires AllWhitespace(p) && AllWhitespace(q)
    ensures Trim(p + s + q) == Trim(s)
  {
    assert p + s + q == p + (s + q);
    TrimStartAfterWhitespace(p, s + q);
    if AllWhitespace(s) {
      assert AllWhitespace(s + q);
      TrimStartOfWhitespace(s + q);
      TrimStartOfWhitespace(s);
    } else {
      TrimStartKeepsTail(s, q);
      TrimEndBeforeWhitespace(TrimStart(s), q);
    }
  }

  // ---------------------------------------------------------------------------
  // Lower-casing
  // ---------------------------------------------------------------------------

  function LowerChar(c: char): char {
    if 'A' <= c <= 'Z' then (c as int + 32) as char else c
  }

  /** `str.lower()` restricted to ASCII letters; other characters are kept. */
  function Lower(s: string): (r: string)
    ensures |r| == |s|
    ensures forall i :: 0 <= i < |s| ==> r[i] == LowerChar(s[i])
  {
    seq(|s|, i requires 0 <= i < |s| => LowerChar(s[i]))
  }

  // ---------------------------------------------------------------------------
  // Joining with a separator, and splitting on one separator character
  // ---------------------------------------------------------------------------

  /** `parts.join(sep)` / `sep.join(parts)`. */
  function Join(parts: seq<string>, sep: string): string {
    if |parts| == 0 then ""
    else if |parts| == 1 then parts[0]
    else parts[0] + sep + Join(parts[1..], sep)
  }

  /** A join with a non-empty separator is empty exactly when there is at most one part and it is empty. */
  lemma {:induction false} JoinEmpty(parts: seq<string>, sep: string)
    requires sep != ""
    ensures Join(parts, sep) == "" <==> |parts| == 0 || (|parts| == 1 && parts[0] == "")
  {
    if |parts| > 1 {
      assert |Join(parts, sep)| >= |sep|;
    }
  }

  /**
   * Python's `s.split(sep)` for a one-character separator: the maximal pieces
   * between separators, empty pieces included; `""` splits into `[""]`.
   */
  function Split(s: string, sep: char): (parts: seq<string>)
    ensures |parts| >= 1
    ensures forall k :: 0 <= k < |parts| ==> sep !in parts[k]
    ensures Join(parts, [sep]) == s
  {
    if s == [] then [""]
    else
      var rest := Split(s[1..], sep);
      if s[0] == sep then
        assert s == [sep] + s[1..];
        [""] + rest
      else
        var parts := [[s[0]] + rest[0]] + rest[1..];
        assert parts[1..] == rest[1..];
        assert s == [s[0]] + s[1..];
        parts
  }

  /** Splitting a join of separator-free pieces gives the pieces back. */
  lemma {:induction false} SplitJoin(parts: seq<string>, sep: char)
    requires |parts| >= 1
    requires forall k :: 0 <= k < |parts| ==> sep !in parts[k]
    ensures Split(Join(parts, [sep]), sep) == parts
    decreases |parts|, |parts[0]|
  {
    var p := parts[0];
    if p == [] {
      if |parts| > 1 {
        var tail := Join(parts[1..], [sep]);
        assert Join(parts, [sep]) == [sep] + tail;
        assert ([sep] + tail)[1..] == tail;
        SplitJoin(parts[1..], sep);
        assert parts == [""] + parts[1..];
      }
    } else {
      var rest := [p[1..]] + parts[1..];
      var j := Join(parts, [sep]);
      assert j == [p[0]] + Join(rest, [sep]) by {
        if |parts| == 1 {
          assert p == [p[0]] + p[1..];
        } else {
          assert rest[1..] == parts[1..];
          assert p == [p[0]] + p[1..];
        }
      }
      assert j[1..] == Join(rest, [sep]);
      assert sep !in p[1..] by {
        forall c | c in p[1..] ensures c != sep {
          assert c in p;
        }
      }
      SplitJoin(rest, sep);
      assert Split(j, sep) == [[p[0]] + p[1..]] + parts[1..];
      assert [p[0]] + p[1..] == p;
      assert parts == [p] + parts[1..];
    }
  }

  // ---------------------------------------------------------------------------
  // Order-keeping filter and counting
  // ---------------------------------------------------------------------------

  /** `Array.prototype.filter` / a Python comprehension with an `if`: keeps order. */
  function Filter<T>(s: seq<T>, keep: T -> bool): (r: seq<T>)
    ensures |r| <= |s|
  {
    if s == [] then [] else (if keep(s[0]) then [s[0]] else []) + Filter(s[1..], keep)
  }

  /** A filter keeps exactly the elements that pass `keep`, and only those. */
  lemma {:induction false} FilterMembers<T>(s: seq<T>, keep: T -> bool)
    ensures forall i :: 0 <= i < |Filter(s, keep)| ==> Filter(s, keep)[i] in s && keep(Filter(s, keep)[i])
    ensures forall i :: 0 <= i < |s| && keep(s[i]) ==> s[i] in Filter(s, keep)
  {
    if s != [] {
      FilterMembers(s[1..], keep);
      var r := Filter(s, keep);
      var tail := Filter(s[1..], keep);
      assert r == (if keep(s[0]) then [s[0]] else []) + tail;
      forall i | 0 <= i < |r| ensures r[i] in s && keep(r[i]) {
        if !(keep(s[0]) && i == 0) {
          var j := if keep(s[0]) then i - 1 else i;
          assert r[i] == tail[j];
          assert tail[j] in s[1..];
        }
      }
      forall i | 0 <= i < |s| && keep(s[i]) ensures s[i] in r {
        if i > 0 {
          assert s[i] == s[1..][i - 1];
        }
      }
    }
  }

  /** Nothing passes the filter when no element passes `keep`. */
  lemma {:induction false} NotInFilter<T>(s: seq<T>, keep: T -> bool)
    requires forall i :: 0 <= i < |s| ==> !keep(s[i])
    ensures Filter(s, keep) == []
  {
    if s != [] {
      assert !keep(s[0]);
      assert forall i :: 0 <= i < |s[1..]| ==> !keep(s[1..][i]) by {
        forall i | 0 <= i < |s[1..]| ensures !keep(s[1..][i]) {
          assert s[1..][i] == s[i + 1];
        }
      }
      NotInFilter(s[1..], keep);
    }
  }

  /** Number of elements satisfying `p` (`sum(1 for x in s if p(x))`). */
  function Count<T>(s: seq<T>, p: T -> bool): (n: nat)
    ensures n <= |s|
  {
    if s == [] then 0 else (if p(s[0]) then 1 else 0) + Count(s[1..], p)
  }

  lemma {:induction false} CountIsFilterLength<T>(s: seq<T>, p: T -> bool)
    ensures Count(s, p) == |Filter(s, p)|
  {
    if s != [] {
      CountIsFilterLength(s[1..], p);
    }
  }

  /** A filter whose complement is counted covers the rest of the sequence. */
  lemma {:induction false} FilterCountComplement<T>(s: seq<T>, keep: T -> bool, drop: T -> bool)
    requires forall x :: keep(x) <==> !drop(x)
    ensures |Filter(s, keep)| + Count(s, drop) == |s|
  {
    if s != [] {
      FilterCountComplement(s[1..], keep, drop);
    }
  }

  /** Filtering a concatenation filters each part. */
  lemma {:induction false} FilterConcat<T>(a: seq<T>, b: seq<T>, keep: T -> bool)
    ensures Filter(a + b, keep) == Filter(a, keep) + Filter(b, keep)
  {
    if a == [] {
      assert a + b == b;
    } else {
      var head := if keep(a[0]) then [a[0]] else [];
      assert (a + b)[0] == a[0];
      assert (a + b)[1..] == a[1..] + b;
      assert Filter(a + b, keep) == head + Filter(a[1..] + b, keep);
      FilterConcat(a[1..], b, keep);
      assert Filter(a, keep) == head + Filter(a[1..], keep);
    }
  }

  /** Filtering a sequence extended by one element. */
  lemma {:induction false} FilterAppendOne<T>(s: seq<T>, x: T, keep: T -> bool)
    ensures Filter(s + [x], keep) == Filter(s, keep) + (if keep(x) then [x] else [])
  {
    if s == [] {
      assert [] + [x] == [x];
    } else {
      var head := if keep(s[0]) then [s[0]] else [];
      var last := if keep(x) then [x] else [];
      assert (s + [x])[0] == s[0];
      assert (s + [x])[1..] == s[1..] + [x];
      FilterAppendOne(s[1..], x, keep);
      assert Filter(s + [x], keep) == head + (Filter(s[1..], keep) + last);
      assert Filter(s, keep) == head + Filter(s[1..], keep);
    }
  }

  /** A filter keeps every copy of an element that passes and no copy of one that fails. */
  lemma {:induction false} FilterMultiplicity<T>(s: seq<T>, keep: T -> bool, x: T)
    ensures multiset(Filter(s, keep))[x] == if keep(x) then multiset(s)[x] else 0
  {
    if s != [] {
      FilterMultiplicity(s[1..], keep, x);
      assert s == [s[0]] + s[1..];
    }
  }

  /** Three filters whose tests split every element one way share out the sequence. */
  lemma FilterPartition<T>(s: seq<T>, p: T -> bool, q: T -> bool, r: T -> bool)
    requires forall x :: (p(x) || q(x) || r(x)) && !(p(x) && q(x)) && !(p(x) && r(x)) && !(q(x) && r(x))
    ensures multiset(Filter(s, p)) + multiset(Filter(s, q)) + multiset(Filter(s, r)) == multiset(s)
    ensures |Filter(s, p)| + |Filter(s, q)| + |Filter(s, r)| == |s|
  {
    var a, b, c := multiset(Filter(s, p)), multiset(Filter(s, q)), multiset(Filter(s, r));
    forall x
      ensures a[x] + b[x] + c[x] == multiset(s)[x]
    {
      FilterMultiplicity(s, p, x);
      FilterMultiplicity(s, q, x);
      FilterMultiplicity(s, r, x);
    }
    MultisetSum(a, b, c, multiset(s));
  }

  lemma MultisetSum<T>(a: multiset<T>, b: multiset<T>, c: multiset<T>, d: multiset<T>)
    requires forall x :: a[x] + b[x] + c[x] == d[x]
    ensures a + b + c == d
  {
  }

  /** `a` is `b` with some elements left out and the rest in their order. */
  ghost predicate IsSubsequence<T>(a: seq<T>, b: seq<T>)
    decreases |b|
  {
    if a == [] then true
    else if b == [] then false
    else (a[0] == b[0] && IsSubsequence(a[1..], b[1..])) || IsSubsequence(a, b[1..])
  }

  /** Filtering keeps the order of what it keeps. */
  lemma {:induction false} FilterIsSubsequence<T>(s: seq<T>, keep: T -> bool)
    ensures IsSubsequence(Filter(s, keep), s)
  {
    if s != [] {
      FilterIsSubsequence(s[1..], keep);
      if keep(s[0]) {
        assert Filter(s, keep) == [s[0]] + Filter(s[1..], keep);
        assert Filter(s, keep)[1..] == Filter(s[1..], keep);
      } else {
        assert Filter(s, keep) == Filter(s[1..], keep);
      }
    }
  }

  /** A map over a sequence (`[f(x) for x in s]`). */
  function MapSeq<T, U>(s: seq<T>, f: T -> U): (r: seq<U>)
    ensures |r| == |s|
    ensures forall i :: 0 <= i < |s| ==> r[i] == f(s[i])
  {
    seq(|s|, i requires 0 <= i < |s| => f(s[i]))
  }

  // ---------------------------------------------------------------------------
  // Decimal numbers as JavaScript's `String(n)` and `Number(s)` see them
  // ---------------------------------------------------------------------------

  predicate IsDigit(c: char) { '0' <= c <= '9' }

  predicate AllDigits(s: string) {
    forall i :: 0 <= i < |s| ==> IsDigit(s[i])
  }

  function DigitChar(d: nat): (c: char)
    requires d < 10
    ensures IsDigit(c) && c as int - '0' as int == d
  {
    ('0' as int + d) as char
  }

  /** The value of a string of decimal digits (leading zeros allowed). */
  function DigitsValue(s: string): nat
    requires AllDigits(s)
  {
    if s == [] then 0 else DigitsValue(s[..|s| - 1]) * 10 + (s[|s| - 1] as int - '0' as int)
  }

  /** `String(n)` for a non-negative integer: shortest decimal form. */
  function NatToString(n: nat): (s: string)
    ensures s != [] && AllDigits(s)
    ensures s[0] == '0' ==> n == 0
  {
    if n < 10 then [DigitChar(n)] else NatToString(n / 10) + [DigitChar(n % 10)]
  }

  lemma {:induction false} NatToStringValue(n: nat)
    ensures DigitsValue(NatToString(n)) == n
  {
    if n >= 10 {
      NatToStringValue(n / 10);
      var s := NatToString(n);
      assert s[..|s| - 1] == NatToString(n / 10);
    }
  }

  /** `String(n)` for any integer. */
  function IntToString(n: int): (s: string)
    ensures s != [] && IsTrimmed(s)
  {
    if n >= 0 then NatToString(n) else "-" + NatToString(-n)
  }

  /**
   * JavaScript's number value, restricted to the integers; `NaN` stands for
   * every non-integer outcome of `Number(s)`.
   */
  datatype JsNumber = NaN | Num(value: int)

  /** JavaScript truthiness of a number: `0` and `NaN` are falsy. */
  predicate NumberTruthy(n: JsNumber) { n.Num? && n.value != 0 }

  /**
   * `Number(s)` for integer literals: surrounding whitespace is ignored, a blank
   * string is 0, an optional sign may precede the digits; anything else is NaN.
   */
  function ParseNumber(s: string): (n: JsNumber)
    ensures Trim(s) == [] ==> n == Num(0)
  {
    var t := Trim(s);
    if t == [] then Num(0)
    else if AllDigits(t) then Num(DigitsValue(t))
    else if |t| >= 2 && t[0] == '-' && AllDigits(t[1..]) then Num(0 - DigitsValue(t[1..]))
    else if |t| >= 2 && t[0] == '+' && AllDigits(t[1..]) then Num(DigitsValue(t[1..]))
    else NaN
  }

  /** `Number(String(n)) == n` for every integer. */
  lemma NumberOfIntToString(n: int)
    ensures ParseNumber(IntToString(n)) == Num(n)
  {
    if n >= 0 {
      NumberOfNatToString(n);
    } else {
      NumberOfNegative(-n);
    }
  }

  lemma NumberOfNatToString(n: nat)
    ensures ParseNumber(NatToString(n)) == Num(n)
  {
    var s := NatToString(n);
    TrimOfTrimmed(s);
    NatToStringValue(n);
  }

  lemma NumberOfNegative(m: nat)
    requires m > 0
    ensures ParseNumber("-" + NatToString(m)) == Num(-(m as int))
  {
    var d := NatToString(m);
    var s := ['-'] + d;
    assert s == "-" + d;
    assert IsTrimmed(s);
    TrimOfTrimmed(s);
    NatToStringValue(m);
    assert s[1..] == d;
    assert !IsDigit(s[0]);
    NumberOfSigned(s);
  }

  lemma NumberOfSigned(s: string)
    requires |s| >= 2 && s[0] == '-' && AllDigits(s[1..]) && Trim(s) == s
    ensures ParseNumber(s) == Num(-(DigitsValue(s[1..]) as int))
  {
    assert !IsDigit(s[0]);
    assert !AllDigits(s);
  }

  /** `n || 1` on a number: the falsy numbers, NaN and zero, become one. */
  function NumberOrOne(n: JsNumber): (r: int)
    ensures r != 0
    ensures NumberTruthy(n) ==> r == n.value
    ensures !NumberTruthy(n) ==> r == 1
  {
    if NumberTruthy(n) then n.value else 1
  }

  /** JavaScript truthiness of an optional id (`null` and `0` are falsy). */
  predicate IdTruthy(id: Option<int>) { id.Some? && id.value != 0 }
}
