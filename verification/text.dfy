/** Text handling the application relies on: Python's str.strip(),
    str.split('\n') and str.split(',', 1). */
module Text {
  import opened Common

  /** c lies in one of the closed ranges rs. */
  predicate InRanges(c: char, rs: seq<(char, char)>)
  {
    |rs| > 0 && ((rs[0].0 <= c <= rs[0].1) || InRanges(c, rs[1..]))
  }

  /** The characters for which Python's str.isspace() holds; these are
      the ones str.strip() removes. */
  predicate IsSpace(c: char)
  {
    InRanges(c, [('\t', '\r'), ('\U{1C}', ' '), ('\U{85}', '\U{85}'), ('\U{A0}', '\U{A0}'),
                 ('\U{1680}', '\U{1680}'), ('\U{2000}', '\U{200A}'), ('\U{2028}', '\U{2029}'),
                 ('\U{202F}', '\U{202F}'), ('\U{205F}', '\U{205F}'), ('\U{3000}', '\U{3000}')])
  }

  // Sequence facts stated once, so that proofs can cite them without
  // extensionality reasoning in a large context.

  lemma TakeSnoc<T>(s: seq<T>, i: nat)
    requires i < |s|
    ensures s[..i + 1] == s[..i] + [s[i]]
  {
  }

  lemma TakeAll<T>(s: seq<T>)
    ensures s[..|s|] == s
  {
  }

  lemma SliceOfSlice<T>(s: seq<T>, i: nat, j: nat, a: nat, n: nat)
    requires i <= j <= |s| && a + n <= j - i
    ensures s[i..j][a..a + n] == s[i + a..i + a + n]
  {
    var x, y := s[i..j][a..a + n], s[i + a..i + a + n];
    forall k | 0 <= k < n
      ensures x[k] == y[k]
    {
      assert x[k] == s[i..j][a + k] == s[i + a + k];
    }
  }

  lemma SplitLast<T>(s: seq<T>)
    requires |s| > 0
    ensures s == s[..|s| - 1] + [s[|s| - 1]]
  {
  }

  /** Cutting a + [c] + b from index n of a to index m of b keeps c. */
  lemma SliceAroundSep<T>(a: seq<T>, c: T, b: seq<T>, n: nat, m: nat)
    requires n <= |a| && m <= |b|
    ensures (a + [c] + b)[n..|a| + 1 + m] == a[n..] + [c] + b[..m]
  {
    var s := a + [c] + b;
    var x := a[n..] + [c] + b[..m];
    forall k | 0 <= k < |x|
      ensures s[n..|a| + 1 + m][k] == x[k]
    {
      if k < |a| - n {
        assert x[k] == a[n + k];
      } else if k > |a| - n {
        assert x[k] == b[k - (|a| - n) - 1];
      }
    }
  }

  /** The first index from i on that does not hold whitespace (|s| if none). */
  function SkipSpaces(s: string, i: nat): (n: nat)
    requires i <= |s|
    ensures i <= n <= |s|
    ensures forall k :: i <= k < n ==> IsSpace(s[k])
    ensures n == |s| || !IsSpace(s[n])
    decreases |s| - i
  {
    if i < |s| && IsSpace(s[i]) then SkipSpaces(s, i + 1) else i
  }

  /** The last index up to j that follows a non-whitespace character (0 if none). */
  function BackSpaces(s: string, j: nat): (m: nat)
    requires j <= |s|
    ensures m <= j
    ensures forall k :: m <= k < j ==> IsSpace(s[k])
    ensures m == 0 || !IsSpace(s[m - 1])
  {
    if j > 0 && IsSpace(s[j - 1]) then BackSpaces(s, j - 1) else j
  }

  /** How many whitespace characters s starts with. */
  function LeadingSpaces(s: string): (n: nat)
    ensures n <= |s|
    ensures forall i :: 0 <= i < n ==> IsSpace(s[i])
    ensures n == |s| || !IsSpace(s[n])
  {
    SkipSpaces(s, 0)
  }

  /** Where the whitespace s ends with begins. */
  function TrailingStart(s: string): (m: nat)
    ensures m <= |s|
    ensures forall i :: m <= i < |s| ==> IsSpace(s[i])
    ensures m == 0 || !IsSpace(s[m - 1])
  {
    BackSpaces(s, |s|)
  }

  /** The leading whitespace of s is s[..i] exactly when s[..i] is
      whitespace and s[i], if any, is not. */
  lemma LeadingSpacesAt(s: string, i: nat)
    requires i <= |s| && forall k :: 0 <= k < i ==> IsSpace(s[k])
    requires i == |s| || !IsSpace(s[i])
    ensures LeadingSpaces(s) == i
  {
  }

  /** The trailing whitespace of s is s[j..] exactly when s[j..] is
      whitespace and s[j - 1], if any, is not. */
  lemma TrailingStartAt(s: string, j: nat)
    requires j <= |s| && forall k :: j <= k < |s| ==> IsSpace(s[k])
    requires j == 0 || !IsSpace(s[j - 1])
    ensures TrailingStart(s) == j
  {
  }

  /** Python's s.lstrip(): s without its leading whitespace. */
  function TrimLeft(s: string): string
  {
    s[LeadingSpaces(s)..]
  }

  /** Python's s.rstrip(): s without its trailing whitespace. */
  function TrimRight(s: string): string
  {
    s[..TrailingStart(s)]
  }

  /** No whitespace at either end. */
  predicate Stripped(s: string)
  {
    |s| == 0 || (!IsSpace(s[0]) && !IsSpace(s[|s| - 1]))
  }

  /** r occurs in s at index i with only whitespace before and after it. */
  predicate Padded(s: string, i: nat, r: string)
  {
    i + |r| <= |s| && r == s[i..i + |r|]
    && (forall k :: 0 <= k < i ==> IsSpace(s[k]))
    && (forall k :: i + |r| <= k < |s| ==> IsSpace(s[k]))
  }

  /** Python's s.strip(): the result has no whitespace at either end, is
      empty exactly when s is all whitespace, and leaves a stripped
      string as it is. TrimIsSlice adds that it is the part of s left
      once the whitespace at both ends is cut off, and TrimUnique that
      these facts determine it. */
  function Trim(s: string): (r: string)
    ensures Stripped(r)
    ensures |r| == 0 <==> forall i :: 0 <= i < |s| ==> IsSpace(s[i])
    ensures Stripped(s) ==> r == s
  {
    var n := LeadingSpaces(s);
    if n == |s| then "" else s[n..TrailingStart(s)]
  }

  /** strip() removes characters only at the ends: Trim(s) sits in s
      after the leading whitespace, with only whitespace after it. */
  lemma TrimIsSlice(s: string)
    ensures Padded(s, LeadingSpaces(s), Trim(s))
  {
  }

  /** A stripped r sitting in s with only whitespace around it is Trim(s). */
  lemma TrimUnique(s: string, i: nat, r: string)
    requires Padded(s, i, r) && Stripped(r)
    ensures Trim(s) == r
  {
    if |r| > 0 {
      assert r[0] == s[i] && r[|r| - 1] == s[i + |r| - 1];
      LeadingSpacesAt(s, i);
      TrailingStartAt(s, i + |r|);
    }
  }

  /** Padding around padding is padding. */
  lemma PaddedTrans(s: string, i: nat, t: string, p: nat, r: string)
    requires Padded(s, i, t) && Padded(t, p, r)
    ensures Padded(s, i + p, r)
  {
    SliceOfSlice(s, i, i + |t|, p, |r|);
    forall k | i <= k < i + p
      ensures IsSpace(s[k])
    {
      assert s[k] == t[k - i];
    }
    forall k | i + p + |r| <= k < i + |t|
      ensures IsSpace(s[k])
    {
      assert s[k] == t[k - i];
    }
  }

  /** Cutting off some of the surrounding whitespace first does not
      change the result of strip(). */
  lemma TrimPadded(s: string, i: nat, t: string)
    requires Padded(s, i, t)
    ensures Trim(s) == Trim(t)
  {
    TrimIsSlice(t);
    PaddedTrans(s, i, t, LeadingSpaces(t), Trim(t));
    TrimUnique(s, i + LeadingSpaces(t), Trim(t));
  }

  /** The leading whitespace of a + [c] + b lies in a when c is not whitespace. */
  lemma LeadingSpacesBefore(a: string, c: char, b: string)
    requires !IsSpace(c)
    ensures LeadingSpaces(a + [c] + b) == LeadingSpaces(a)
  {
    var s := a + [c] + b;
    var n := LeadingSpaces(a);
    forall k | 0 <= k <= n
      ensures k < n ==> IsSpace(s[k])
      ensures k == n ==> !IsSpace(s[k])
    {
      if k < |a| {
        assert s[k] == a[k];
      }
    }
    LeadingSpacesAt(s, n);
  }

  /** The trailing whitespace of a + [c] + b lies in b when c is not whitespace. */
  lemma TrailingStartAfter(a: string, c: char, b: string)
    requires !IsSpace(c)
    ensures TrailingStart(a + [c] + b) == |a| + 1 + TrailingStart(b)
  {
    var s := a + [c] + b;
    var m := TrailingStart(b);
    forall k | |a| + m <= k < |s|
      ensures k > |a| + m ==> IsSpace(s[k])
      ensures k == |a| + m ==> !IsSpace(s[k])
    {
      if k > |a| {
        assert s[k] == b[k - |a| - 1];
      }
    }
    TrailingStartAt(s, |a| + 1 + m);
  }

  /** A comma is not whitespace, so stripping a + "," + b cuts only the
      front of a and the back of b. */
  lemma TrimAroundComma(a: string, b: string)
    ensures Trim(a + "," + b) == TrimLeft(a) + "," + TrimRight(b)
  {
    var s := a + "," + b;
    var n, m := LeadingSpaces(a), TrailingStart(b);
    assert !IsSpace(',');
    LeadingSpacesBefore(a, ',', b);
    TrailingStartAfter(a, ',', b);
    assert Trim(s) == s[n..|a| + 1 + m];
    SliceAroundSep(a, ',', b, n, m);
  }

  /** Stripping what lstrip() left is stripping the original. */
  lemma TrimOfTrimLeft(a: string)
    ensures Trim(TrimLeft(a)) == Trim(a)
  {
    assert Padded(a, LeadingSpaces(a), TrimLeft(a));
    TrimPadded(a, LeadingSpaces(a), TrimLeft(a));
  }

  /** Stripping what rstrip() left is stripping the original. */
  lemma TrimOfTrimRight(b: string)
    ensures Trim(TrimRight(b)) == Trim(b)
  {
    assert Padded(b, 0, TrimRight(b));
    TrimPadded(b, 0, TrimRight(b));
  }

  /** Stripping keeps exactly the non-whitespace characters of s: it
      invents none and drops none of them. */
  lemma TrimKeepsChars(s: string)
    ensures forall c :: c in Trim(s) ==> c in s
    ensures forall c :: !IsSpace(c) && c in s ==> c in Trim(s)
  {
    var n := LeadingSpaces(s);
    var r := Trim(s);
    TrimIsSlice(s);
    forall c | c in r
      ensures c in s
    {
      var i :| 0 <= i < |r| && r[i] == c;
      assert s[n + i] == c;
    }
    forall c | !IsSpace(c) && c in s
      ensures c in r
    {
      var i :| 0 <= i < |s| && s[i] == c;
      assert r[i - n] == c;
    }
  }

  /** Index of the first occurrence of c in s. */
  function IndexOf(s: string, c: char): (i: nat)
    requires c in s
    ensures i < |s| && s[i] == c && c !in s[..i]
  {
    if s[0] == c then 0 else 1 + IndexOf(s[1..], c)
  }

  lemma IndexOfJoin(a: string, c: char, b: string)
    requires c !in a
    ensures c in a + [c] + b && IndexOf(a + [c] + b, c) == |a|
  {
    var s := a + [c] + b;
    assert s[|a|] == c;
  }

  /** Lines joined with '\n' between them; the inverse of SplitLines. */
  function JoinLines(lines: seq<string>): string
  {
    if |lines| == 0 then ""
    else if |lines| == 1 then lines[0]
    else lines[0] + "\n" + JoinLines(lines[1..])
  }

  /** Python's s.split('\n'): never empty, no piece holds a newline, and
      joining the pieces back gives s. */
  function SplitLines(s: string): (r: seq<string>)
    ensures |r| >= 1
    ensures forall k :: 0 <= k < |r| ==> '\n' !in r[k]
    ensures JoinLines(r) == s
    decreases |s|
  {
    if '\n' in s then
      var i := IndexOf(s, '\n');
      var rest := SplitLines(s[i + 1..]);
      var r := [s[..i]] + rest;
      assert r[1..] == rest;
      assert s == s[..i] + "\n" + s[i + 1..];
      r
    else
      [s]
  }

  /** Splitting a text whose first line is a: a, then the pieces of the rest. */
  lemma SplitLinesCons(a: string, b: string)
    requires '\n' !in a
    ensures SplitLines(a + "\n" + b) == [a] + SplitLines(b)
  {
    var s := a + "\n" + b;
    IndexOfJoin(a, '\n', b);
    assert s[..|a|] == a;
    assert s[|a| + 1..] == b;
  }

  lemma {:induction false} SplitJoinLines(lines: seq<string>)
    requires |lines| >= 1
    requires forall k :: 0 <= k < |lines| ==> '\n' !in lines[k]
    ensures SplitLines(JoinLines(lines)) == lines
  {
    if |lines| > 1 {
      var rest := lines[1..];
      SplitJoinLines(rest);
      SplitLinesCons(lines[0], JoinLines(rest));
      assert lines == [lines[0]] + rest;
    }
  }

  /** Python's line.split(',', 1) when it yields two parts: the text
      before the first comma and everything after it. */
  function SplitFirstComma(line: string): (r: Option<(string, string)>)
    ensures r.None? <==> ',' !in line
    ensures r.Some? ==> line == r.value.0 + "," + r.value.1 && ',' !in r.value.0
  {
    if ',' in line then
      var i := IndexOf(line, ',');
      assert line == line[..i] + "," + line[i + 1..];
      Some((line[..i], line[i + 1..]))
    else
      None
  }

  lemma SplitFirstCommaOf(a: string, b: string)
    requires ',' !in a
    ensures SplitFirstComma(a + "," + b) == Some((a, b))
  {
    var s := a + "," + b;
    IndexOfJoin(a, ',', b);
    assert s[..|a|] == a;
    assert s[|a| + 1..] == b;
  }
}
