/** Options and the string operations the generators rely on: the identifier
    sanitizer, C#'s String.Split(string) and String.Replace(string, string)
    with ordinal matching, and Int32.ToString for decimal rendering. */
module Strings {

  datatype Option<+T> = None | Some(value: T) {
    /** C#'s null-coalescing `x ?? default`. */
    function GetOr(default: T): T {
      match this
      case Some(v) => v
      case None => default
    }
  }

  // ---------------------------------------------------------------------
  // Identifier sanitizer: Regex("[^a-zA-Z0-9]").Replace(text, "")
  // ---------------------------------------------------------------------

  predicate IsAlphanumeric(c: char) {
    ('a' <= c <= 'z') || ('A' <= c <= 'Z') || ('0' <= c <= '9')
  }

  predicate AllAlphanumeric(s: string) {
    forall i :: 0 <= i < |s| ==> IsAlphanumeric(s[i])
  }

  /** Deletes every character outside [A-Za-z0-9]; the result is never longer
      than the input and holds only alphanumeric characters. */
  function ReplaceNonAlphanumeric(text: string): (r: string)
    ensures AllAlphanumeric(r)
    ensures |r| <= |text|
  {
    if text == [] then []
    else (if IsAlphanumeric(text[0]) then [text[0]] else []) + ReplaceNonAlphanumeric(text[1..])
  }

  /** The sanitizer works character by character: sanitizing a concatenation
      is concatenating the sanitized parts (so the kept characters stay in
      their original order). */
  lemma {:induction false} ReplaceNonAlphanumericAppend(a: string, b: string)
    ensures ReplaceNonAlphanumeric(a + b) == ReplaceNonAlphanumeric(a) + ReplaceNonAlphanumeric(b)
  {
    if a == [] {
      assert a + b == b;
    } else {
      assert (a + b)[0] == a[0];
      assert (a + b)[1..] == a[1..] + b;
      ReplaceNonAlphanumericAppend(a[1..], b);
    }
  }

  /** A single character is kept exactly when it is alphanumeric. */
  lemma ReplaceNonAlphanumericChar(c: char)
    ensures ReplaceNonAlphanumeric([c]) == if IsAlphanumeric(c) then [c] else []
  {
    assert [c][1..] == [];
  }

  /** Every alphanumeric string is its own sanitized form. */
  lemma {:induction false} ReplaceNonAlphanumericKeeps(s: string)
    requires AllAlphanumeric(s)
    ensures ReplaceNonAlphanumeric(s) == s
  {
    if s != [] {
      assert AllAlphanumeric(s[1..]) by {
        forall i | 0 <= i < |s[1..]| ensures IsAlphanumeric(s[1..][i]) {
          assert s[1..][i] == s[i + 1];
        }
      }
      ReplaceNonAlphanumericKeeps(s[1..]);
      assert s == [s[0]] + s[1..];
    }
  }

  /** Sanitizing twice is sanitizing once. */
  lemma ReplaceNonAlphanumericIdempotent(s: string)
    ensures ReplaceNonAlphanumeric(ReplaceNonAlphanumeric(s)) == ReplaceNonAlphanumeric(s)
  {
    ReplaceNonAlphanumericKeeps(ReplaceNonAlphanumeric(s));
  }

  /** A non-alphanumeric character anywhere in the input leaves no trace. */
  lemma ReplaceNonAlphanumericDrops(a: string, c: char, b: string)
    requires !IsAlphanumeric(c)
    ensures ReplaceNonAlphanumeric(a + [c] + b) == ReplaceNonAlphanumeric(a + b)
  {
    ReplaceNonAlphanumericAppend(a + [c], b);
    ReplaceNonAlphanumericAppend(a, [c]);
    ReplaceNonAlphanumericChar(c);
    ReplaceNonAlphanumericAppend(a, b);
  }

  /** Every alphanumeric character of the input occurs in the output exactly
      as often as in the input, and no other character occurs at all. */
  lemma {:induction false} ReplaceNonAlphanumericCounts(s: string, c: char)
    ensures multiset(ReplaceNonAlphanumeric(s))[c] == if IsAlphanumeric(c) then multiset(s)[c] else 0
  {
    if s != [] {
      ReplaceNonAlphanumericCounts(s[1..], c);
      assert s == [s[0]] + s[1..];
      assert multiset(s) == multiset([s[0]]) + multiset(s[1..]);
    }
  }

  // ---------------------------------------------------------------------
  // Occurrences, Split and Replace (ordinal, left to right, non-overlapping)
  // ---------------------------------------------------------------------

  predicate OccursAt(s: string, t: string, i: int) {
    0 <= i && i + |t| <= |s| && s[i..i + |t|] == t
  }

  ghost predicate Occurs(s: string, t: string) {
    exists i :: OccursAt(s, t, i)
  }

  /** C#'s `s.Split(sep)`: the pieces between non-overlapping occurrences of a
      non-empty separator found left to right; empty pieces are kept, so the
      result always has at least one element. */
  function SplitOn(s: string, sep: string): (parts: seq<string>)
    requires |sep| > 0
    ensures |parts| >= 1
    decreases |s|
  {
    if |s| < |sep| then [s]
    else if s[..|sep|] == sep then [""] + SplitOn(s[|sep|..], sep)
    else
      var rest := SplitOn(s[1..], sep);
      [[s[0]] + rest[0]] + rest[1..]
  }

  /** The inverse of SplitOn: the pieces glued back with the separator. */
  function Join(parts: seq<string>, sep: string): string
    requires |parts| >= 1
  {
    if |parts| == 1 then parts[0] else parts[0] + sep + Join(parts[1..], sep)
  }

  /** C#'s `s.Replace(oldValue, newValue)`: every non-overlapping occurrence of `oldValue`,
      found left to right, is replaced by `newValue`. C# throws on an empty `oldValue`. */
  function Replace(s: string, oldValue: string, newValue: string): string
    requires |oldValue| > 0
    decreases |s|
  {
    if |s| < |oldValue| then s
    else if s[..|oldValue|] == oldValue then newValue + Replace(s[|oldValue|..], oldValue, newValue)
    else [s[0]] + Replace(s[1..], oldValue, newValue)
  }

  lemma JoinPrependHead(c: char, parts: seq<string>, sep: string)
    requires |parts| >= 1
    ensures Join([[c] + parts[0]] + parts[1..], sep) == [c] + Join(parts, sep)
  {
    var q := [[c] + parts[0]] + parts[1..];
    if |parts| > 1 {
      assert q[1..] == parts[1..];
    }
  }

  /** Replacing is splitting at the occurrences and joining with the
      replacement. */
  lemma {:induction false} ReplaceIsSplitJoin(s: string, oldValue: string, newValue: string)
    requires |oldValue| > 0
    ensures Replace(s, oldValue, newValue) == Join(SplitOn(s, oldValue), newValue)
    decreases |s|
  {
    if |s| < |oldValue| {
    } else if s[..|oldValue|] == oldValue {
      ReplaceIsSplitJoin(s[|oldValue|..], oldValue, newValue);
      var p := SplitOn(s[|oldValue|..], oldValue);
      assert ([""] + p)[1..] == p;
    } else {
      ReplaceIsSplitJoin(s[1..], oldValue, newValue);
      JoinPrependHead(s[0], SplitOn(s[1..], oldValue), newValue);
    }
  }

  /** Split and Join are inverse: joining the pieces with the separator gives
      back the original string. */
  lemma {:induction false} SplitJoinRoundTrip(s: string, sep: string)
    requires |sep| > 0
    ensures Join(SplitOn(s, sep), sep) == s
    decreases |s|
  {
    ReplaceIsSplitJoin(s, sep, sep);
    ReplaceSelf(s, sep);
  }

  lemma {:induction false} ReplaceSelf(s: string, t: string)
    requires |t| > 0
    ensures Replace(s, t, t) == s
    decreases |s|
  {
    if |s| < |t| {
    } else if s[..|t|] == t {
      ReplaceSelf(s[|t|..], t);
      assert s == s[..|t|] + s[|t|..];
    } else {
      ReplaceSelf(s[1..], t);
      assert s == [s[0]] + s[1..];
    }
  }

  lemma OccursAtShift(s: string, t: string, j: int)
    requires |s| > 0 && j >= 0
    ensures OccursAt(s[1..], t, j) <==> OccursAt(s, t, j + 1)
  {
    if 0 <= j && j + |t| <= |s| - 1 {
      assert s[1..][j..j + |t|] == s[j + 1..j + 1 + |t|];
    }
  }

  /** A string in which the token does not occur is left unchanged. */
  lemma {:induction false} ReplaceAbsent(s: string, oldValue: string, newValue: string)
    requires |oldValue| > 0
    requires !Occurs(s, oldValue)
    ensures Replace(s, oldValue, newValue) == s
    decreases |s|
  {
    if |s| >= |oldValue| {
      assert !OccursAt(s, oldValue, 0);
      assert s[..|oldValue|] == s[0..0 + |oldValue|];
      assert !Occurs(s[1..], oldValue) by {
        forall j | j >= 0 ensures !OccursAt(s[1..], oldValue, j) {
          OccursAtShift(s, oldValue, j);
        }
      }
      ReplaceAbsent(s[1..], oldValue, newValue);
      assert s == [s[0]] + s[1..];
    }
  }

  /** The first occurrence is replaced and the scan resumes right after it. */
  lemma ReplaceFirst(s: string, oldValue: string, newValue: string, i: nat)
    requires |oldValue| > 0
    requires OccursAt(s, oldValue, i)
    requires forall j :: 0 <= j < i ==> !OccursAt(s, oldValue, j)
    ensures Replace(s, oldValue, newValue) == s[..i] + newValue + Replace(s[i + |oldValue|..], oldValue, newValue)
  {
    var tail := s[i..];
    ReplaceKeepsPrefix(s, oldValue, newValue, i);
    OccursAtSuffix(s, oldValue, i);
    ReplaceHit(tail, oldValue, newValue);
    assert tail[|oldValue|..] == s[i + |oldValue|..];
    AppendAssoc3(s[..i], newValue, Replace(s[i + |oldValue|..], oldValue, newValue));
  }

  /** The characters before the first occurrence pass through unchanged. */
  lemma {:induction false} ReplaceKeepsPrefix(s: string, oldValue: string, newValue: string, k: nat)
    requires |oldValue| > 0 && k + |oldValue| <= |s|
    requires forall j :: 0 <= j < k ==> !OccursAt(s, oldValue, j)
    ensures Replace(s, oldValue, newValue) == s[..k] + Replace(s[k..], oldValue, newValue)
    decreases k
  {
    if k == 0 {
      assert s[..0] == [] && s[0..] == s;
    } else {
      var t := s[1..];
      var r := Replace(s[k..], oldValue, newValue);
      assert !OccursAt(s, oldValue, 0);
      ReplaceMiss(s, oldValue, newValue);
      forall j | 0 <= j < k - 1 ensures !OccursAt(t, oldValue, j) {
        OccursAtShift(s, oldValue, j);
      }
      ReplaceKeepsPrefix(t, oldValue, newValue, k - 1);
      assert t[k - 1..] == s[k..];
      assert [s[0]] + t[..k - 1] == s[..k];
      AppendAssoc3([s[0]], t[..k - 1], r);
    }
  }

  lemma OccursAtSuffix(s: string, t: string, i: nat)
    requires OccursAt(s, t, i)
    ensures OccursAt(s[i..], t, 0)
  {
    assert s[i..][0..0 + |t|] == s[i..i + |t|];
  }

  /** Where the value starts the string, Replace puts the replacement first. */
  lemma ReplaceHit(s: string, oldValue: string, newValue: string)
    requires |oldValue| > 0
    requires OccursAt(s, oldValue, 0)
    ensures Replace(s, oldValue, newValue) == newValue + Replace(s[|oldValue|..], oldValue, newValue)
  {
    assert s[..|oldValue|] == s[0..0 + |oldValue|];
  }

  /** Where the value does not start the string, Replace keeps the first
      character. */
  lemma ReplaceMiss(s: string, oldValue: string, newValue: string)
    requires |oldValue| > 0 && |s| >= |oldValue|
    requires !OccursAt(s, oldValue, 0)
    ensures Replace(s, oldValue, newValue) == [s[0]] + Replace(s[1..], oldValue, newValue)
  {
    assert s[..|oldValue|] == s[0..0 + |oldValue|];
  }

  lemma AppendAssoc3(a: string, b: string, c: string)
    ensures a + (b + c) == (a + b) + c
  {
  }

  /** Without the separator the string is a single piece. */
  lemma {:induction false} SplitOnAbsent(s: string, sep: string)
    requires |sep| > 0
    requires !Occurs(s, sep)
    ensures SplitOn(s, sep) == [s]
    decreases |s|
  {
    if |s| >= |sep| {
      assert !OccursAt(s, sep, 0);
      assert s[..|sep|] == s[0..0 + |sep|];
      assert !Occurs(s[1..], sep) by {
        forall j | j >= 0 ensures !OccursAt(s[1..], sep, j) {
          OccursAtShift(s, sep, j);
        }
      }
      SplitOnAbsent(s[1..], sep);
      assert s == [s[0]] + s[1..];
    }
  }

  /** Where the separator does not start the string, its first character
      opens the first piece. */
  lemma SplitOnMiss(s: string, sep: string)
    requires |sep| > 0 && |s| >= |sep|
    requires !OccursAt(s, sep, 0)
    ensures SplitOn(s, sep) == [[s[0]] + SplitOn(s[1..], sep)[0]] + SplitOn(s[1..], sep)[1..]
  {
    assert s[..|sep|] == s[0..0 + |sep|];
  }

  /** The characters before the first separator stay in the first piece. */
  lemma {:induction false} SplitOnKeepsPrefix(s: string, sep: string, k: nat)
    requires |sep| > 0 && k + |sep| <= |s|
    requires forall j :: 0 <= j < k ==> !OccursAt(s, sep, j)
    ensures SplitOn(s, sep) == [s[..k] + SplitOn(s[k..], sep)[0]] + SplitOn(s[k..], sep)[1..]
    decreases k
  {
    if k == 0 {
      assert s[..0] + SplitOn(s[0..], sep)[0] == SplitOn(s, sep)[0];
      assert s[0..] == s;
    } else {
      var t := s[1..];
      SplitOnMiss(s, sep);
      forall j | 0 <= j < k - 1 ensures !OccursAt(t, sep, j) {
        OccursAtShift(s, sep, j);
      }
      SplitOnKeepsPrefix(t, sep, k - 1);
      assert t[k - 1..] == s[k..];
      var r := SplitOn(s[k..], sep);
      assert [s[0]] + t[..k - 1] == s[..k];
      AppendAssoc3([s[0]], t[..k - 1], r[0]);
    }
  }

  /** The first separator ends the first piece; splitting resumes after it. */
  lemma SplitOnFirst(s: string, sep: string, i: nat)
    requires |sep| > 0
    requires OccursAt(s, sep, i)
    requires forall j :: 0 <= j < i ==> !OccursAt(s, sep, j)
    ensures SplitOn(s, sep) == [s[..i]] + SplitOn(s[i + |sep|..], sep)
  {
    SplitOnKeepsPrefix(s, sep, i);
    OccursAtSuffix(s, sep, i);
    var t := s[i..];
    assert t[..|sep|] == t[0..0 + |sep|];
    assert SplitOn(t, sep) == [""] + SplitOn(t[|sep|..], sep);
    assert t[|sep|..] == s[i + |sep|..];
    assert s[..i] + "" == s[..i];
  }

  /** A one-character separator occurs exactly where that character is. */
  lemma OccursAtChar(s: string, c: char, i: int)
    ensures OccursAt(s, [c], i) <==> 0 <= i < |s| && s[i] == c
  {
    if 0 <= i < |s| {
      assert s[i..i + 1] == [s[i]];
    }
  }

  // ---------------------------------------------------------------------
  // Decimal rendering of integers (Int32.ToString, invariant culture)
  // ---------------------------------------------------------------------

  function Digit(d: nat): char
    requires d < 10
  {
    "0123456789"[d]
  }

  predicate IsDigit(c: char) { '0' <= c <= '9' }

  function NatToString(n: nat): (r: string)
    ensures |r| >= 1
    ensures forall i :: 0 <= i < |r| ==> IsDigit(r[i])
    decreases n
  {
    if n < 10 then [Digit(n)] else NatToString(n / 10) + [Digit(n % 10)]
  }

  /** `n.ToString()`: a leading '-' for negative numbers, then the digits. */
  function IntToString(n: int): string {
    if n < 0 then "-" + NatToString(-n) else NatToString(n)
  }

  lemma {:induction false} NatToStringInjective(a: nat, b: nat)
    requires NatToString(a) == NatToString(b)
    ensures a == b
    decreases a
  {
    var sa, sb := NatToString(a), NatToString(b);
    if a < 10 && b < 10 {
      assert "0123456789"[a] == sa[0] == sb[0] == "0123456789"[b];
    } else if a >= 10 && b >= 10 {
      assert sa[..|sa| - 1] == NatToString(a / 10);
      assert sb[..|sb| - 1] == NatToString(b / 10);
      NatToStringInjective(a / 10, b / 10);
      assert "0123456789"[a % 10] == sa[|sa| - 1] == sb[|sb| - 1] == "0123456789"[b % 10];
    }
  }

  lemma NatToStringUnsigned(n: nat)
    ensures NatToString(n)[0] != '-'
  {
    assert IsDigit(NatToString(n)[0]);
  }

  /** Distinct numbers are rendered as distinct strings. */
  lemma IntToStringInjective(a: int, b: int)
    requires IntToString(a) == IntToString(b)
    ensures a == b
  {
    if a < 0 && b < 0 {
      assert NatToString(-a) == IntToString(a)[1..];
      assert NatToString(-b) == IntToString(b)[1..];
      NatToStringInjective(-a, -b);
    } else if a >= 0 && b >= 0 {
      NatToStringInjective(a, b);
    } else {
      NatToStringUnsigned(if a < 0 then b else a);
    }
  }

  /** Keys with the same suffix are equal only when their stems are. */
  lemma SuffixDistinct(x: string, y: string, suffix: string)
    ensures x + suffix == y + suffix ==> x == y
  {
    if x + suffix == y + suffix {
      assert x == (x + suffix)[..|x|];
      assert y == (y + suffix)[..|y|];
    }
  }

  /** Keys with the same stem are equal only when their tails are. */
  lemma PrefixCancel(x: string, a: string, b: string)
    ensures x + a == x + b ==> a == b
  {
    if x + a == x + b {
      assert a == (x + a)[|x|..];
      assert b == (x + b)[|x|..];
    }
  }

  lemma LastOf(x: string, suffix: string)
    requires |suffix| > 0
    ensures (x + suffix)[|x + suffix| - 1] == suffix[|suffix| - 1]
  {
  }

  lemma AlphanumericHasNoSlash(s: string)
    requires AllAlphanumeric(s)
    ensures '/' !in s
  {
    assert forall i :: 0 <= i < |s| ==> s[i] != '/';
  }

  lemma AlphanumericConcat(a: string, b: string)
    requires AllAlphanumeric(a) && AllAlphanumeric(b)
    ensures AllAlphanumeric(a + b)
  {
    forall i | 0 <= i < |a + b| ensures IsAlphanumeric((a + b)[i]) {
      if i >= |a| {
        assert (a + b)[i] == b[i - |a|];
      }
    }
  }
}
