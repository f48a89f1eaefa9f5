/** Values shared by every part of the model: optional values, the failures the
    backend SDK reports, and the few JavaScript string and number operations the
    front-end relies on (`split`, `join`, `trim`, `indexOf`/`replace`, ASCII case
    mapping, `toString` and `parseInt` of integers). */
module Common {

  datatype Option<+T> = None | Some(value: T)

  /** A rejected SDK call or a thrown exception. `isError` says whether the thrown
      value is an `Error` instance: handlers written as
      `err instanceof Error ? err.message : fallback` show `message` only then. */
  datatype Failure = Failure(message: string, isError: bool)

  /** How an awaited call settles: resolved with a value, or rejected. */
  datatype Result<+T> = Ok(value: T) | Err(failure: Failure)

  /** How an awaited call without a value settles. */
  datatype Outcome = Done | Threw(failure: Failure)

  /** The text a catch block stores for a failure. */
  function ErrorText(f: Failure, fallback: string): string
  {
    if f.isError then f.message else fallback
  }

  // ---------------------------------------------------------------------------
  // Array.prototype.filter

  /** `s.filter(keep)`: the elements that satisfy `keep`, in their original order. */
  function Filter<T>(s: seq<T>, keep: T -> bool): (r: seq<T>)
    ensures |r| <= |s|
    decreases |s|
  {
    if s == [] then []
    else (if keep(s[0]) then [s[0]] else []) + Filter(s[1..], keep)
  }

  /** An element survives the filter exactly when it was there and satisfies `keep`. */
  lemma {:induction false} FilterMember<T>(s: seq<T>, keep: T -> bool, x: T)
    ensures x in Filter(s, keep) <==> x in s && keep(x)
    decreases |s|
  {
    if s != [] {
      FilterMember(s[1..], keep, x);
      assert s == [s[0]] + s[1..];
    }
  }

  /** Filtering distributes over concatenation, so it keeps relative order. */
  lemma {:induction false} FilterConcat<T>(a: seq<T>, b: seq<T>, keep: T -> bool)
    ensures Filter(a + b, keep) == Filter(a, keep) + Filter(b, keep)
    decreases |a|
  {
    if a == [] {
      assert a + b == b;
    } else {
      var head := if keep(a[0]) then [a[0]] else [];
      calc {
        Filter(a + b, keep);
        { assert (a + b)[1..] == a[1..] + b; assert (a + b)[0] == a[0]; }
        head + Filter(a[1..] + b, keep);
        { FilterConcat(a[1..], b, keep); }
        head + (Filter(a[1..], keep) + Filter(b, keep));
        (head + Filter(a[1..], keep)) + Filter(b, keep);
      }
    }
  }

  /** A filter that keeps every element is the identity. */
  lemma {:induction false} FilterKeepsAll<T>(s: seq<T>, keep: T -> bool)
    requires forall i :: 0 <= i < |s| ==> keep(s[i])
    ensures Filter(s, keep) == s
    decreases |s|
  {
    if s != [] {
      FilterKeepsAll(s[1..], keep);
      assert s == [s[0]] + s[1..];
    }
  }

  lemma {:induction false} FilterDropsAll<T>(s: seq<T>, keep: T -> bool)
    requires forall i :: 0 <= i < |s| ==> !keep(s[i])
    ensures Filter(s, keep) == []
    decreases |s|
  {
    if s != [] {
      FilterDropsAll(s[1..], keep);
    }
  }

  /** Two complementary filters split a sequence: together they hold every
      element exactly as often as it occurs. */
  lemma {:induction false} FilterPartition<T>(s: seq<T>, keep: T -> bool, drop: T -> bool)
    requires forall x :: drop(x) == !keep(x)
    ensures multiset(Filter(s, keep)) + multiset(Filter(s, drop)) == multiset(s)
    decreases |s|
  {
    if s != [] {
      FilterPartition(s[1..], keep, drop);
      assert s == [s[0]] + s[1..];
    }
  }

  /** The head of a filter is the first element that satisfies `keep`. */
  lemma {:induction false} FilterFirst<T>(s: seq<T>, keep: T -> bool, k: nat)
    requires k < |s| && keep(s[k])
    requires forall j :: 0 <= j < k ==> !keep(s[j])
    ensures Filter(s, keep) != [] && Filter(s, keep)[0] == s[k]
    decreases k
  {
    if k > 0 {
      FilterFirst(s[1..], keep, k - 1);
    }
  }

  predicate NoDup<T(==)>(s: seq<T>)
  {
    forall i, j :: 0 <= i < j < |s| ==> s[i] != s[j]
  }

  /** Filtering a duplicate-free sequence leaves it duplicate-free. */
  lemma {:induction false} FilterNoDup<T>(s: seq<T>, keep: T -> bool)
    requires NoDup(s)
    ensures NoDup(Filter(s, keep))
    decreases |s|
  {
    if s != [] {
      assert NoDup(s[1..]) by {
        forall i, j | 0 <= i < j < |s[1..]| ensures s[1..][i] != s[1..][j] {
          assert s[1..][i] == s[i + 1] && s[1..][j] == s[j + 1];
        }
      }
      FilterNoDup(s[1..], keep);
      FilterMember(s[1..], keep, s[0]);
      var rest := Filter(s[1..], keep);
      if keep(s[0]) {
        assert s[0] !in s[1..] by {
          forall k | 0 <= k < |s[1..]| ensures s[1..][k] != s[0] {
            assert s[1..][k] == s[k + 1];
          }
        }
        var r := [s[0]] + rest;
        forall i, j | 0 <= i < j < |r| ensures r[i] != r[j] {
          if i == 0 {
            assert r[j] == rest[j - 1] && r[j] in rest;
          } else {
            assert r[i] == rest[i - 1] && r[j] == rest[j - 1];
          }
        }
      } else {
        assert Filter(s, keep) == rest;
      }
    }
  }

  /** How many elements of `s` satisfy `p`. */
  function Count<T>(s: seq<T>, p: T -> bool): nat
    decreases |s|
  {
    if s == [] then 0 else (if p(s[0]) then 1 else 0) + Count(s[1..], p)
  }

  /** Filtering keeps exactly the counted elements. */
  lemma {:induction false} FilterLength<T>(s: seq<T>, keep: T -> bool)
    ensures |Filter(s, keep)| == Count(s, keep)
    decreases |s|
  {
    if s != [] {
      FilterLength(s[1..], keep);
    }
  }

  /** An element present but not kept makes the count fall short of the length. */
  lemma {:induction false} CountMissesOne<T>(s: seq<T>, keep: T -> bool, x: T)
    requires x in s && !keep(x)
    ensures Count(s, keep) < |s|
    decreases |s|
  {
    if s[0] != x {
      CountMissesOne(s[1..], keep, x);
    } else {
      CountAtMost(s[1..], keep);
    }
  }

  /** The count never exceeds the length. */
  lemma {:induction false} CountAtMost<T>(s: seq<T>, keep: T -> bool)
    ensures Count(s, keep) <= |s|
    decreases |s|
  {
    if s != [] {
      CountAtMost(s[1..], keep);
    }
  }

  // ---------------------------------------------------------------------------
  // String.prototype.split with a one-character separator, and Array.prototype.join

  /** `s.split(sep)`: the maximal separator-free fields, in order. */
  function Split(s: string, sep: char): (parts: seq<string>)
    ensures |parts| >= 1
    ensures forall i :: 0 <= i < |parts| ==> sep !in parts[i]
    decreases |s|
  {
    if s == [] then [""]
    else
      var rest := Split(s[1..], sep);
      if s[0] == sep then [""] + rest
      else [[s[0]] + rest[0]] + rest[1..]
  }

  /** `parts.join(sep)`. */
  function Join(parts: seq<string>, sep: string): string
    decreases |parts|
  {
    if |parts| == 0 then ""
    else if |parts| == 1 then parts[0]
    else parts[0] + sep + Join(parts[1..], sep)
  }

  /** Joining the fields of a split with the same separator gives back the string. */
  lemma {:induction false} JoinSplit(s: string, sep: char)
    ensures Join(Split(s, sep), [sep]) == s
    decreases |s|
  {
    if s != [] {
      var rest := Split(s[1..], sep);
      JoinSplit(s[1..], sep);
      assert s == [s[0]] + s[1..];
      if s[0] == sep {
        var parts := [""] + rest;
        assert parts[1..] == rest;
        assert Join(parts, [sep]) == "" + [sep] + Join(rest, [sep]);
      } else {
        var parts := [[s[0]] + rest[0]] + rest[1..];
        if |rest| == 1 {
          assert Join(parts, [sep]) == [s[0]] + rest[0];
        } else {
          assert parts[1..] == rest[1..];
          assert Join(rest, [sep]) == rest[0] + [sep] + Join(rest[1..], [sep]);
          assert Join(parts, [sep]) == [s[0]] + rest[0] + [sep] + Join(rest[1..], [sep]);
        }
      }
    }
  }

  /** Joining a list that ends in `b` puts the separator between the rest and `b`. */
  lemma {:induction false} JoinSnoc(parts: seq<string>, sep: string, b: string)
    requires |parts| >= 1
    ensures Join(parts + [b], sep) == Join(parts, sep) + sep + b
    decreases |parts|
  {
    if |parts| > 1 {
      assert (parts + [b])[1..] == parts[1..] + [b];
      JoinSnoc(parts[1..], sep, b);
    }
  }

  /** Splitting a join of separator-free fields gives the fields back. */
  lemma {:induction false} SplitJoin(parts: seq<string>, sep: char)
    requires |parts| >= 1 && forall i :: 0 <= i < |parts| ==> sep !in parts[i]
    ensures Split(Join(parts, [sep]), sep) == parts
    decreases |parts|
  {
    if |parts| == 1 {
      SplitNoSep(parts[0], sep);
    } else {
      SplitJoin(parts[1..], sep);
      SplitFirst(parts[0], sep, Join(parts[1..], [sep]));
      assert parts == [parts[0]] + parts[1..];
    }
  }

  /** A separator-free string splits into itself. */
  lemma {:induction false} SplitNoSep(a: string, sep: char)
    requires sep !in a
    ensures Split(a, sep) == [a]
    decreases |a|
  {
    if a != [] {
      SplitNoSep(a[1..], sep);
      assert [a[0]] + a[1..] == a;
    }
  }

  /** Splitting at the first separator: the first field is everything before it. */
  lemma {:induction false} SplitFirst(a: string, sep: char, b: string)
    requires sep !in a
    ensures Split(a + [sep] + b, sep) == [a] + Split(b, sep)
    decreases |a|
  {
    var s := a + [sep] + b;
    if a == [] {
      assert s[1..] == b;
    } else {
      assert s[1..] == a[1..] + [sep] + b;
      SplitFirst(a[1..], sep, b);
      assert [a[0]] + a[1..] == a;
    }
  }

  /** The first field of a split is the text before the first separator. */
  lemma {:induction false} FirstFieldIsPrefix(s: string, sep: char)
    ensures var f := Split(s, sep)[0];
      |f| <= |s| && f == s[..|f|] && (|f| < |s| ==> s[|f|] == sep)
    decreases |s|
  {
    if s != [] {
      FirstFieldIsPrefix(s[1..], sep);
    }
  }

  /** A string splits into more than one field exactly when it holds the separator. */
  lemma {:induction false} SplitCount(s: string, sep: char)
    ensures sep in s <==> |Split(s, sep)| > 1
    decreases |s|
  {
    if s != [] {
      SplitCount(s[1..], sep);
      assert s == [s[0]] + s[1..];
    }
  }

  /** The last field of a split is a separator-free suffix, preceded by a separator
      when the string contains one, and the whole string when it does not. */
  lemma {:induction false} LastFieldIsSuffix(s: string, sep: char)
    ensures var parts := Split(s, sep); var f := parts[|parts| - 1];
      && |f| <= |s| && f == s[|s| - |f|..]
      && (sep in s ==> |f| < |s| && s[|s| - |f| - 1] == sep)
      && (sep !in s ==> f == s)
    decreases |s|
  {
    if s != [] {
      LastFieldIsSuffix(s[1..], sep);
      SplitCount(s[1..], sep);
      assert s == [s[0]] + s[1..];
      var parts := Split(s, sep);
      var rest := Split(s[1..], sep);
      if s[0] != sep && |rest| == 1 {
        assert [s[0]] + s[1..] == s;
      }
      if sep !in s {
        SplitNoSep(s, sep);
      }
    }
  }

  // ---------------------------------------------------------------------------
  // String.prototype.trim, reduced to the emptiness test the handlers use

  /** ECMAScript WhiteSpace and LineTerminator code points. */
  predicate IsWhitespace(c: char)
  {
    || c == ' ' || c == '\t' || c == '\n' || c == '\r' || c == '\U{000B}' || c == '\U{000C}'
    || c == '\U{00A0}' || c == '\U{1680}' || ('\U{2000}' <= c <= '\U{200A}')
    || c == '\U{2028}' || c == '\U{2029}' || c == '\U{202F}' || c == '\U{205F}'
    || c == '\U{3000}' || c == '\U{FEFF}'
  }

  predicate IsBlank(s: string)
  {
    forall i :: 0 <= i < |s| ==> IsWhitespace(s[i])
  }

  function TrimStart(s: string): string
    decreases |s|
  {
    if s != [] && IsWhitespace(s[0]) then TrimStart(s[1..]) else s
  }

  function TrimEnd(s: string): string
    decreases |s|
  {
    if s != [] && IsWhitespace(s[|s| - 1]) then TrimEnd(s[..|s| - 1]) else s
  }

  /** `s.trim()`. */
  function Trim(s: string): string
  {
    TrimEnd(TrimStart(s))
  }

  lemma {:induction false} TrimStartEmptyIffBlank(s: string)
    ensures TrimStart(s) == [] <==> IsBlank(s)
    decreases |s|
  {
    if s != [] && IsWhitespace(s[0]) {
      TrimStartEmptyIffBlank(s[1..]);
      assert IsBlank(s[1..]) ==> IsBlank(s) by {
        if IsBlank(s[1..]) {
          forall i | 0 <= i < |s| ensures IsWhitespace(s[i]) {
            if i > 0 { assert s[i] == s[1..][i - 1]; }
          }
        }
      }
    }
  }

  lemma {:induction false} TrimEndEmptyIffBlank(s: string)
    ensures TrimEnd(s) == [] <==> IsBlank(s)
    decreases |s|
  {
    if s != [] && IsWhitespace(s[|s| - 1]) {
      var t := s[..|s| - 1];
      TrimEndEmptyIffBlank(t);
      assert IsBlank(t) ==> IsBlank(s) by {
        if IsBlank(t) {
          forall i | 0 <= i < |s| ensures IsWhitespace(s[i]) {
            if i < |s| - 1 { assert s[i] == t[i]; }
          }
        }
      }
    }
  }

  lemma {:induction false} TrimStartKeepsNonBlank(s: string)
    requires !IsBlank(s)
    ensures !IsBlank(TrimStart(s))
    decreases |s|
  {
    if s != [] && IsWhitespace(s[0]) {
      assert !IsBlank(s[1..]) by {
        var i :| 0 <= i < |s| && !IsWhitespace(s[i]);
        assert i > 0 && s[1..][i - 1] == s[i];
      }
      TrimStartKeepsNonBlank(s[1..]);
    }
  }

  /** `!s.trim()` holds exactly when every character of `s` is white space. */
  lemma TrimEmptyIffBlank(s: string)
    ensures Trim(s) == [] <==> IsBlank(s)
  {
    TrimStartEmptyIffBlank(s);
    TrimEndEmptyIffBlank(TrimStart(s));
    if !IsBlank(s) {
      TrimStartKeepsNonBlank(s);
    }
  }

  // ---------------------------------------------------------------------------
  // indexOf and String.prototype.replace with a string pattern (first occurrence)

  predicate OccursAt(s: string, pat: string, i: nat)
  {
    i + |pat| <= |s| && s[i..i + |pat|] == pat
  }

  /** `s.indexOf(pat, from)`: the first position at or after `from` where `pat` occurs. */
  function IndexOfFrom(s: string, pat: string, from: nat): (r: Option<nat>)
    ensures r.Some? ==> (from <= r.value && OccursAt(s, pat, r.value)
      && forall j :: from <= j < r.value ==> !OccursAt(s, pat, j))
    ensures r.None? ==> forall j :: from <= j ==> !OccursAt(s, pat, j)
    decreases |s| - from
  {
    if from + |pat| > |s| then None
    else if OccursAt(s, pat, from) then Some(from)
    else IndexOfFrom(s, pat, from + 1)
  }

  /** `s.replace(pat, rep)` for a string pattern: only the first occurrence changes. */
  function ReplaceFirst(s: string, pat: string, rep: string): string
  {
    match IndexOfFrom(s, pat, 0)
    case None => s
    case Some(i) => s[..i] + rep + s[i + |pat|..]
  }

  /** Removing a trailing pattern whose first character does not occur before it
      leaves the text in front of it. */
  lemma ReplaceTrailing(a: string, pat: string)
    requires pat != [] && pat[0] !in a
    ensures ReplaceFirst(a + pat, pat, "") == a
  {
    var s := a + pat;
    assert OccursAt(s, pat, |a|);
    forall j | 0 <= j < |a|
      ensures !OccursAt(s, pat, j)
    {
      assert s[j] == a[j];
    }
    assert IndexOfFrom(s, pat, 0) == Some(|a|);
    assert s[..|a|] + "" + s[|a| + |pat|..] == a;
  }

  // ---------------------------------------------------------------------------
  // ASCII case mapping (`toUpperCase` / `toLowerCase`)

  function UpperChar(c: char): char
  {
    if 'a' <= c <= 'z' then (c as int - 32) as char else c
  }

  function LowerChar(c: char): char
  {
    if 'A' <= c <= 'Z' then (c as int + 32) as char else c
  }

  function ToLower(s: string): (r: string)
    ensures |r| == |s|
    ensures forall i :: 0 <= i < |s| ==> r[i] == LowerChar(s[i])
    ensures forall i :: 0 <= i < |r| ==> !('A' <= r[i] <= 'Z')
  {
    seq(|s|, i requires 0 <= i < |s| => LowerChar(s[i]))
  }

  /** Lowering is idempotent: a lowered domain lowered again is unchanged. */
  lemma ToLowerIdempotent(s: string)
    ensures ToLower(ToLower(s)) == ToLower(s)
  {
    var t := ToLower(s);
    assert forall i :: 0 <= i < |t| ==> LowerChar(t[i]) == t[i];
  }

  // ---------------------------------------------------------------------------
  // Number.prototype.toString and parseInt, for integers in base ten

  predicate IsDigit(c: char)
  {
    '0' <= c <= '9'
  }

  function DigitChar(d: nat): char
    requires d < 10
  {
    ('0' as int + d) as char
  }

  function DigitValue(c: char): nat
    requires IsDigit(c)
  {
    c as int - '0' as int
  }

  /** Decimal rendering of a natural number, without leading zeros. */
  function NatToString(n: nat): (r: string)
    ensures |r| >= 1
    ensures forall i :: 0 <= i < |r| ==> IsDigit(r[i])
    decreases n
  {
    if n < 10 then [DigitChar(n)] else NatToString(n / 10) + [DigitChar(n % 10)]
  }

  /** The value of a string of decimal digits. */
  function DigitsValue(ds: string): nat
    requires forall i :: 0 <= i < |ds| ==> IsDigit(ds[i])
    decreases |ds|
  {
    if ds == [] then 0 else DigitsValue(ds[..|ds| - 1]) * 10 + DigitValue(ds[|ds| - 1])
  }

  /** The longest prefix of `s` made of decimal digits. */
  function LeadingDigits(s: string): (r: string)
    ensures |r| <= |s| && r == s[..|r|]
    ensures forall i :: 0 <= i < |r| ==> IsDigit(r[i])
    ensures |r| < |s| ==> !IsDigit(s[|r|])
    decreases |s|
  {
    if s != [] && IsDigit(s[0]) then [s[0]] + LeadingDigits(s[1..]) else ""
  }

  /** `String(n)` for an integer; `"NaN"` for the not-a-number value (None). */
  function IntToString(n: Option<int>): string
  {
    match n
    case None => "NaN"
    case Some(v) => if v < 0 then "-" + NatToString(-v) else NatToString(v)
  }

  /** `parseInt(s)` (no radix) on decimal input: leading white space, an optional
      sign, then the longest run of digits; no digits gives NaN (None). */
  function ParseInt(s: string): Option<int>
  {
    var t := TrimStart(s);
    var signed := |t| > 0 && (t[0] == '-' || t[0] == '+');
    var ds := LeadingDigits(if signed then t[1..] else t);
    var magnitude: int := DigitsValue(ds);
    if ds == [] then None
    else if signed && t[0] == '-' then Some(-magnitude)
    else Some(magnitude)
  }

  lemma {:induction false} NatToStringValue(n: nat)
    ensures DigitsValue(NatToString(n)) == n
    decreases n
  {
    var r := NatToString(n);
    if n >= 10 {
      NatToStringValue(n / 10);
      assert r[..|r| - 1] == NatToString(n / 10);
    }
  }

  lemma AllDigitsLeading(s: string)
    requires forall i :: 0 <= i < |s| ==> IsDigit(s[i])
    ensures LeadingDigits(s) == s
  {
  }

  /** `parseInt(String(n))` gives `n` back, NaN included. */
  lemma ParseIntToString(n: Option<int>)
    ensures ParseInt(IntToString(n)) == n
  {
    match n
    case None =>
      assert TrimStart("NaN") == "NaN";
    case Some(v) =>
      var digits := NatToString(if v < 0 then -v else v);
      NatToStringValue(if v < 0 then -v else v);
      AllDigitsLeading(digits);
      var s := IntToString(n);
      assert TrimStart(s) == s;
      if v < 0 {
        assert s[1..] == digits;
      }
  }
}
