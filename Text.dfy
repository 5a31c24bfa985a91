/** The JavaScript string operations the planner relies on (`trim`,
    `toLowerCase`, `startsWith`, `includes`, `indexOf`, `slice`, `join`, `split` and
    number-to-string conversion), over an ASCII model of characters:
    whitespace is the six ASCII white-space characters and lower-casing only
    changes `A`..`Z`. */
module Text {

  /** ASCII white space as recognised by `String.prototype.trim`. */
  predicate IsSpace(c: char) {
    c == ' ' || c == '\t' || c == '\n' || c == '\r' || c == '\U{000B}' || c == '\U{000C}'
  }

  predicate AllSpace(s: string) {
    forall i :: 0 <= i < |s| ==> IsSpace(s[i])
  }

  /** Number of white-space characters at the start of `s`. */
  function LeadingSpaces(s: string): (n: nat)
    ensures n <= |s|
    ensures AllSpace(s[..n])
    ensures n == |s| || !IsSpace(s[n])
  {
    if |s| > 0 && IsSpace(s[0]) then
      var k := LeadingSpaces(s[1..]);
      assert s[1..][..k] == s[1..k + 1];
      assert s[..k + 1] == [s[0]] + s[1..k + 1];
      assert k < |s| - 1 ==> s[1..][k] == s[k + 1];
      1 + k
    else 0
  }

  /** Number of white-space characters at the end of `s`. */
  function TrailingSpaces(s: string): (n: nat)
    ensures n <= |s|
    ensures AllSpace(s[|s| - n..])
    ensures n == |s| || !IsSpace(s[|s| - n - 1])
  {
    if |s| > 0 && IsSpace(s[|s| - 1]) then
      var k := TrailingSpaces(s[..|s| - 1]);
      assert s[..|s| - 1][|s| - 1 - k..] == s[|s| - 1 - k..|s| - 1];
      assert s[|s| - 1 - k..] == s[|s| - 1 - k..|s| - 1] + [s[|s| - 1]];
      assert k < |s| - 1 ==> s[..|s| - 1][|s| - 1 - k - 1] == s[|s| - k - 2];
      1 + k
    else 0
  }

  /** `s.trim()`: `s` without its leading and trailing white space. */
  function Trim(s: string): (r: string)
    ensures LeadingSpaces(s) + |r| <= |s|
    ensures r == s[LeadingSpaces(s)..LeadingSpaces(s) + |r|]
    ensures AllSpace(s[LeadingSpaces(s) + |r|..])
    ensures r == [] <==> AllSpace(s)
    ensures r != [] ==> !IsSpace(r[0]) && !IsSpace(r[|r| - 1])
  {
    var a := LeadingSpaces(s);
    var b := TrailingSpaces(s[a..]);
    TrimShape(s, a, b);
    s[a..|s| - b]
  }

  /** The part of `s` between its leading white space (`a` characters) and
      its trailing white space (`b` characters) is followed only by white
      space, is empty exactly when `s` is all white space, and otherwise ends
      with a non-space character. */
  lemma TrimShape(s: string, a: nat, b: nat)
    requires a <= |s| && AllSpace(s[..a]) && (a == |s| || !IsSpace(s[a]))
    requires b <= |s| - a && AllSpace(s[a..][|s| - a - b..])
    requires b == |s| - a || !IsSpace(s[a..][|s| - a - b - 1])
    ensures AllSpace(s[|s| - b..])
    ensures |s| - b == a <==> AllSpace(s)
    ensures |s| - b > a ==> !IsSpace(s[|s| - b - 1])
  {
    assert s[a..][|s| - a - b..] == s[|s| - b..];
    if |s| - b == a {
      AllSpaceJoin(s, a);
    } else {
      assert s[a..][|s| - a - b - 1] == s[|s| - b - 1];
    }
  }

  /** A string whose prefix and the rest are white space is white space. */
  lemma AllSpaceJoin(s: string, a: nat)
    requires a <= |s| && AllSpace(s[..a]) && AllSpace(s[a..])
    ensures AllSpace(s)
  {
    assert s == s[..a] + s[a..];
  }

  predicate IsUpper(c: char) {
    'A' <= c <= 'Z'
  }

  /** `c.toLowerCase()` on ASCII: the result is never an upper-case letter,
      and it is either `c` itself or `c` moved from `A`..`Z` to `a`..`z`. */
  function LowerChar(c: char): (r: char)
    ensures !IsUpper(r)
    ensures r == c || (IsUpper(c) && r as int == c as int + 32)
  {
    if IsUpper(c) then (c as int + 32) as char else c
  }

  /** `s.toLowerCase()`: each character lower-cased in place, so that no
      upper-case letter is left (see `LowerChar`). */
  function Lower(s: string): (r: string)
    ensures |r| == |s|
    ensures forall i :: 0 <= i < |s| ==> r[i] == LowerChar(s[i])
  {
    seq(|s|, i requires 0 <= i < |s| => LowerChar(s[i]))
  }

  /** Lower-casing twice is lower-casing once. */
  lemma LowerIdempotent(s: string)
    ensures Lower(Lower(s)) == Lower(s)
  {
    assert forall i :: 0 <= i < |s| ==> Lower(Lower(s))[i] == Lower(s)[i];
  }

  /** `a` and `b` have white space at exactly the same positions. */
  predicate SameSpaces(a: string, b: string) {
    |a| == |b| && forall i :: 0 <= i < |a| ==> (IsSpace(a[i]) <==> IsSpace(b[i]))
  }

  /** Lower-casing moves no character into or out of white space. */
  lemma CaseKeepsSpaces(a: string, b: string)
    requires Lower(a) == Lower(b)
    ensures SameSpaces(a, b)
  {
    forall i | 0 <= i < |a| ensures IsSpace(a[i]) <==> IsSpace(b[i]) {
      LowerSpace(a[i]);
      LowerSpace(b[i]);
      assert LowerChar(a[i]) == Lower(a)[i] == Lower(b)[i] == LowerChar(b[i]);
    }
  }

  /** Strings with the same white-space positions have as much leading white space. */
  lemma {:induction false} SameLeading(a: string, b: string)
    requires SameSpaces(a, b)
    ensures LeadingSpaces(a) == LeadingSpaces(b)
  {
    if |a| > 0 && IsSpace(a[0]) {
      assert forall i :: 0 <= i < |a| - 1 ==> a[1..][i] == a[i + 1] && b[1..][i] == b[i + 1];
      SameLeading(a[1..], b[1..]);
    }
  }

  /** Strings with the same white-space positions have as much trailing white space. */
  lemma {:induction false} SameTrailing(a: string, b: string)
    requires SameSpaces(a, b)
    ensures TrailingSpaces(a) == TrailingSpaces(b)
  {
    if |a| > 0 && IsSpace(a[|a| - 1]) {
      assert forall i :: 0 <= i < |a| - 1 ==> a[..|a| - 1][i] == a[i] && b[..|b| - 1][i] == b[i];
      SameTrailing(a[..|a| - 1], b[..|b| - 1]);
    }
  }

  /** Strings with the same white-space positions trim at the same positions. */
  lemma SameSpacesTrim(a: string, b: string)
    requires SameSpaces(a, b)
    ensures LeadingSpaces(a) == LeadingSpaces(b) && |Trim(a)| == |Trim(b)|
  {
    SameLeading(a, b);
    var n := LeadingSpaces(a);
    SameSpacesSuffix(a, b, n);
    SameTrailing(a[n..], b[n..]);
    assert |Trim(a)| == |a| - n - TrailingSpaces(a[n..]);
    assert |Trim(b)| == |b| - n - TrailingSpaces(b[n..]);
  }

  lemma SameSpacesSuffix(a: string, b: string, n: nat)
    requires SameSpaces(a, b) && n <= |a|
    ensures SameSpaces(a[n..], b[n..])
  {
    assert forall i :: 0 <= i < |a| - n ==> a[n..][i] == a[n + i] && b[n..][i] == b[n + i];
  }

  /** Strings equal up to ASCII case trim at the same positions, so their
      trimmed forms are still equal up to case. */
  lemma TrimIgnoresCase(a: string, b: string)
    requires Lower(a) == Lower(b)
    ensures Lower(Trim(a)) == Lower(Trim(b))
  {
    var n, k := LeadingSpaces(a), |Trim(a)|;
    assert LeadingSpaces(b) == n && |Trim(b)| == k by {
      CaseKeepsSpaces(a, b);
      SameSpacesTrim(a, b);
    }
    LowerSlice(a, n, n + k);
    LowerSlice(b, n, n + k);
  }

  /** Lower-casing commutes with taking a slice. */
  lemma LowerSlice(s: string, i: nat, j: nat)
    requires i <= j <= |s|
    ensures Lower(s[i..j]) == Lower(s)[i..j]
  {
    assert forall k :: 0 <= k < j - i ==> Lower(s[i..j])[k] == LowerChar(s[i + k]) == Lower(s)[i..j][k];
  }

  /** A character that lower-cases to a space is a space. */
  lemma LowerSpace(c: char)
    ensures LowerChar(c) == ' ' <==> c == ' '
    ensures IsSpace(LowerChar(c)) <==> IsSpace(c)
  {
  }

  /** Trimming a string whose first character is white space gives the same
      result as trimming the rest. */
  lemma TrimSkipsLeadingSpace(s: string)
    requires |s| > 0 && IsSpace(s[0])
    ensures Trim(s[1..]) == Trim(s)
  {
    var k := LeadingSpaces(s[1..]);
    assert LeadingSpaces(s) == 1 + k;
    assert s[1..][k..] == s[1 + k..];
    TrimOfRest(s[1..], k);
    TrimOfRest(s, 1 + k);
  }

  /** `Trim` keeps what lies between the leading and the trailing white space. */
  lemma TrimOfRest(s: string, a: nat)
    requires a == LeadingSpaces(s)
    ensures Trim(s) == s[a..][..|s| - a - TrailingSpaces(s[a..])]
  {
  }

  /** `s.startsWith(p)`. */
  predicate StartsWith(s: string, p: string) {
    |p| <= |s| && s[..|p|] == p
  }

  /** `s.includes(p)`. */
  predicate Contains(s: string, p: string)
    decreases |s|
  {
    StartsWith(s, p) || (|s| > 0 && Contains(s[1..], p))
  }

  /** `p` occurs in `s` starting at position `k`. */
  predicate OccursAt(s: string, p: string, k: nat) {
    k <= |s| - |p| && s[k..k + |p|] == p
  }

  /** `includes` finds `p` exactly when `p` occurs at some position of `s`. */
  lemma ContainsOccurrence(s: string, p: string)
    ensures Contains(s, p) <==> exists k: nat :: OccursAt(s, p, k)
  {
    if Contains(s, p) {
      var k := FirstOccurrence(s, p);
    } else {
      forall k: nat ensures !OccursAt(s, p, k) {
        NoOccurrence(s, p, k);
      }
    }
  }

  /** A position where a contained string occurs. */
  lemma {:induction false} FirstOccurrence(s: string, p: string) returns (k: nat)
    requires Contains(s, p)
    ensures OccursAt(s, p, k)
    decreases |s|
  {
    if StartsWith(s, p) {
      k := 0;
    } else {
      var j := FirstOccurrence(s[1..], p);
      k := j + 1;
      assert s[1..][j..j + |p|] == s[k..k + |p|];
    }
  }

  /** A string that is not contained occurs at no position. */
  lemma {:induction false} NoOccurrence(s: string, p: string, k: nat)
    requires !Contains(s, p)
    ensures !OccursAt(s, p, k)
    decreases k
  {
    if k > 0 && k <= |s| - |p| {
      NoOccurrence(s[1..], p, k - 1);
      assert s[1..][k - 1..k - 1 + |p|] == s[k..k + |p|];
    }
  }

  /** A string only contains strings no longer than itself. */
  lemma {:induction false} ContainsFits(s: string, p: string)
    requires Contains(s, p)
    ensures |p| <= |s|
  {
    if !StartsWith(s, p) { ContainsFits(s[1..], p); }
  }

  /** A string does not contain a non-empty string whose first character it lacks. */
  lemma {:induction false} ContainsFirstChar(s: string, p: string)
    requires p != [] && p[0] !in s
    ensures !Contains(s, p)
  {
    if |s| > 0 {
      assert s[0] != p[0];
      ContainsFirstChar(s[1..], p);
    }
  }

  /** `s.indexOf(c)` for a one-character needle: the first position of `c`, or -1. */
  function IndexOf(s: string, c: char): (r: int)
    ensures -1 <= r < |s|
    ensures r == -1 <==> c !in s
    ensures r >= 0 ==> s[r] == c && c !in s[..r]
  {
    if |s| == 0 then -1
    else if s[0] == c then 0
    else
      var k := IndexOf(s[1..], c);
      assert s == [s[0]] + s[1..];
      if k == -1 then -1
      else
        assert s[..k + 1] == [s[0]] + s[1..][..k];
        k + 1
  }

  /** `indexOf` finds the first occurrence. */
  lemma IndexOfFirst(s: string, c: char, k: nat)
    requires k < |s| && s[k] == c && c !in s[..k]
    ensures IndexOf(s, c) == k
  {
  }

  /** `indexOf` finds an occurrence no later than any given one. */
  lemma IndexOfAtMost(s: string, c: char, j: nat)
    requires j < |s| && s[j] == c
    ensures 0 <= IndexOf(s, c) <= j
  {
  }

  /** Value of the decimal digit `d`. */
  function DigitValue(d: char): nat {
    if '0' <= d <= '9' then d as int - '0' as int else 0
  }

  /** Value of a string of decimal digits, most significant first. */
  function DecimalValue(s: string): nat {
    if s == [] then 0 else 10 * DecimalValue(s[..|s| - 1]) + DigitValue(s[|s| - 1])
  }

  /** `String(n)` for a natural number: its shortest decimal representation. */
  function NatToString(n: nat): (r: string)
    ensures r != []
    ensures forall i :: 0 <= i < |r| ==> '0' <= r[i] <= '9'
    ensures r[0] == '0' ==> r == "0"
    ensures DecimalValue(r) == n
  {
    var d := ['0' + (n % 10) as char];
    if n < 10 then d
    else
      var r := NatToString(n / 10) + d;
      assert r[..|r| - 1] == NatToString(n / 10);
      r
  }

  /** `parts.join(sep)`. */
  function Join(parts: seq<string>, sep: string): string {
    if parts == [] then ""
    else if |parts| == 1 then parts[0]
    else parts[0] + sep + Join(parts[1..], sep)
  }

  /** `s.split(c)` for a one-character separator: the pieces between the
      occurrences of `c`, in order; a string without `c` is one piece. */
  function Split(s: string, c: char): (r: seq<string>)
    ensures |r| >= 1
    ensures forall i :: 0 <= i < |r| ==> c !in r[i]
    ensures Join(r, [c]) == s
    decreases |s|
  {
    var k := IndexOf(s, c);
    if k < 0 then [s]
    else
      var rest := Split(s[k + 1..], c);
      JoinCons(s[..k], rest, [c]);
      assert s == s[..k] + [c] + s[k + 1..];
      [s[..k]] + rest
  }

  /** Joining a part in front of at least one more puts the separator between them. */
  lemma JoinCons(x: string, rest: seq<string>, sep: string)
    requires rest != []
    ensures Join([x] + rest, sep) == x + sep + Join(rest, sep)
  {
    assert ([x] + rest)[1..] == rest;
  }

  /** Splitting at the separator undoes joining with it, as long as no part
      contains the separator and there is at least one part. */
  lemma {:induction false} SplitJoin(parts: seq<string>, c: char)
    requires parts != []
    requires forall i :: 0 <= i < |parts| ==> c !in parts[i]
    ensures Split(Join(parts, [c]), c) == parts
  {
    if |parts| > 1 {
      var s := Join(parts, [c]);
      var k := |parts[0]|;
      assert s[..k] == parts[0] && s[k] == c;
      IndexOfFirst(s, c, k);
      assert s[k + 1..] == Join(parts[1..], [c]);
      SplitJoin(parts[1..], c);
      assert parts == [parts[0]] + parts[1..];
    }
  }

  /** Joining with the empty separator gives the empty string exactly when
      every part is empty. */
  lemma {:induction false} JoinEmpty(parts: seq<string>)
    ensures Join(parts, "") == [] <==> forall i :: 0 <= i < |parts| ==> parts[i] == []
  {
    if |parts| > 1 {
      JoinEmpty(parts[1..]);
      assert forall i :: 1 <= i < |parts| ==> parts[i] == parts[1..][i - 1];
    }
  }
}
