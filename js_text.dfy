/** JavaScript string operations the importer relies on, over `seq<char>`. */
module JsText {

  /** `s.startsWith(p)`. */
  predicate StartsWith(s: string, p: string) {
    |p| <= |s| && s[..|p|] == p
  }

  /** `s.endsWith(p)`. */
  predicate EndsWith(s: string, p: string) {
    |p| <= |s| && s[|s| - |p|..] == p
  }

  /** `p` occurs in `s` starting at index `k`. */
  predicate OccursAt(s: string, p: string, k: int) {
    0 <= k && k + |p| <= |s| && s[k..k + |p|] == p
  }

  /** `s.includes(p)`, written as a left-to-right scan. */
  function Includes(s: string, p: string): (r: bool)
    ensures r <==> exists k :: OccursAt(s, p, k)
    decreases |s|
  {
    if StartsWith(s, p) then
      assert OccursAt(s, p, 0);
      true
    else if |s| == 0 then
      assert forall k :: !OccursAt(s, p, k);
      false
    else
      var rest := Includes(s[1..], p);
      assert forall k :: OccursAt(s[1..], p, k) ==> OccursAt(s, p, k + 1) by {
        forall k | OccursAt(s[1..], p, k) ensures OccursAt(s, p, k + 1) {
          OccursTail(s, p, k);
        }
      }
      assert !OccursAt(s, p, 0);
      assert forall k :: OccursAt(s, p, k) ==> OccursAt(s[1..], p, k - 1) by {
        forall k | OccursAt(s, p, k) ensures OccursAt(s[1..], p, k - 1) {
          OccursTail(s, p, k - 1);
        }
      }
      rest
  }

  /** An occurrence in the tail is an occurrence one position later in the whole text. */
  lemma {:induction false} OccursTail(s: string, p: string, k: int)
    requires |s| > 0 && k >= 0
    ensures OccursAt(s[1..], p, k) <==> OccursAt(s, p, k + 1)
  {
    if 0 <= k && k + 1 + |p| <= |s| {
      assert s[k + 1..k + 1 + |p|] == s[1..][k..k + |p|];
    }
  }

  /** Index of the first `c` in `s`, or `|s|` when there is none. */
  function IndexOfChar(s: string, c: char): (i: nat)
    ensures i <= |s|
    ensures i < |s| ==> s[i] == c
    ensures forall j :: 0 <= j < i ==> s[j] != c
  {
    if |s| == 0 then 0
    else if s[0] == c then 0
    else 1 + IndexOfChar(s[1..], c)
  }

  /** `s.split(sep)` for a one-character separator. */
  function Split(s: string, sep: char): (parts: seq<string>)
    ensures |parts| >= 1
    decreases |s|
  {
    var i := IndexOfChar(s, sep);
    if i == |s| then [s] else [s[..i]] + Split(s[i + 1..], sep)
  }

  /** No piece of a split contains the separator. */
  lemma {:induction false} SplitSemSeparador(s: string, sep: char)
    ensures forall i :: 0 <= i < |Split(s, sep)| ==> sep !in Split(s, sep)[i]
    decreases |s|
  {
    var i := IndexOfChar(s, sep);
    if i < |s| {
      SplitSemSeparador(s[i + 1..], sep);
      var rest := Split(s[i + 1..], sep);
      assert Split(s, sep) == [s[..i]] + rest;
      assert sep !in s[..i] by {
        forall j | 0 <= j < i ensures s[..i][j] != sep { assert s[..i][j] == s[j]; }
      }
    } else {
      assert sep !in s by {
        forall j | 0 <= j < |s| ensures s[j] != sep { }
      }
    }
  }

  /** `parts.join(sep)` for a one-character separator. */
  function Join(parts: seq<string>, sep: char): string
  {
    if |parts| == 0 then ""
    else if |parts| == 1 then parts[0]
    else parts[0] + [sep] + Join(parts[1..], sep)
  }

  /** Splitting and joining on the same character restores the text. */
  lemma {:induction false} JoinSplit(s: string, sep: char)
    ensures Join(Split(s, sep), sep) == s
    decreases |s|
  {
    var i := IndexOfChar(s, sep);
    if i < |s| {
      var tail := s[i + 1..];
      var rest := Split(tail, sep);
      assert Split(s, sep) == [s[..i]] + rest;
      JoinSplit(tail, sep);
      var parts := [s[..i]] + rest;
      assert |parts| >= 2 && parts[0] == s[..i] && parts[1..] == rest;
      assert Join(parts, sep) == s[..i] + [sep] + Join(rest, sep);
      assert s == s[..i] + [sep] + tail;
    } else {
      assert Split(s, sep) == [s];
    }
  }

  /** Joining pieces free of the separator and splitting again gives the pieces back. */
  lemma {:induction false} SplitJoin(parts: seq<string>, sep: char)
    requires |parts| >= 1
    requires forall i :: 0 <= i < |parts| ==> sep !in parts[i]
    ensures Split(Join(parts, sep), sep) == parts
    decreases |parts|
  {
    if |parts| > 1 {
      var s := Join(parts, sep);
      assert s == parts[0] + [sep] + Join(parts[1..], sep);
      assert IndexOfChar(s, sep) == |parts[0]| by {
        assert s[|parts[0]|] == sep;
        assert forall j :: 0 <= j < |parts[0]| ==> s[j] == parts[0][j];
      }
      assert s[..|parts[0]|] == parts[0];
      assert s[|parts[0]| + 1..] == Join(parts[1..], sep);
      SplitJoin(parts[1..], sep);
    } else {
      assert IndexOfChar(parts[0], sep) == |parts[0]|;
    }
  }

  /** The JavaScript white-space and line-terminator characters removed by `trim`. */
  predicate IsWhite(c: char) {
    c == ' ' || ('\t' <= c <= '\r') || c == '\U{00A0}' || c == '\U{1680}'
    || ('\U{2000}' <= c <= '\U{200A}') || c == '\U{2028}' || c == '\U{2029}'
    || c == '\U{202F}' || c == '\U{205F}' || c == '\U{3000}' || c == '\U{FEFF}'
  }

  /** `s.trimStart()`. */
  function TrimStart(s: string): (r: string)
    ensures |r| <= |s|
    decreases |s|
  {
    if |s| > 0 && IsWhite(s[0]) then TrimStart(s[1..]) else s
  }

  /** `s.trimEnd()`. */
  function TrimEnd(s: string): (r: string)
    ensures |r| <= |s|
    decreases |s|
  {
    if |s| > 0 && IsWhite(s[|s| - 1]) then TrimEnd(s[..|s| - 1]) else s
  }

  /** `s.trim()`. */
  function Trim(s: string): (r: string)
    ensures |r| <= |s|
  {
    TrimEnd(TrimStart(s))
  }

  /** `trimStart` keeps a suffix that does not start with white space and drops only white space. */
  lemma {:induction false} TrimStartSpec(s: string)
    ensures var r := TrimStart(s);
      r == s[|s| - |r|..]
      && (|r| > 0 ==> !IsWhite(r[0]))
      && (forall j :: 0 <= j < |s| - |r| ==> IsWhite(s[j]))
    decreases |s|
  {
    if |s| > 0 && IsWhite(s[0]) {
      TrimStartSpec(s[1..]);
      var r := TrimStart(s[1..]);
      assert s[1..][|s| - 1 - |r|..] == s[|s| - |r|..];
      forall j | 0 <= j < |s| - |r|
        ensures IsWhite(s[j])
      {
        if j > 0 { assert s[j] == s[1..][j - 1]; }
      }
    }
  }

  /** `trimEnd` keeps a prefix that does not end with white space and drops only white space. */
  lemma {:induction false} TrimEndSpec(s: string)
    ensures var r := TrimEnd(s);
      r == s[..|r|]
      && (|r| > 0 ==> !IsWhite(r[|r| - 1]))
      && (forall j :: |r| <= j < |s| ==> IsWhite(s[j]))
    decreases |s|
  {
    if |s| > 0 && IsWhite(s[|s| - 1]) {
      var u := s[..|s| - 1];
      TrimEndSpec(u);
      var r := TrimEnd(u);
      assert u[..|r|] == s[..|r|];
      forall j | |r| <= j < |s|
        ensures IsWhite(s[j])
      {
        if j < |s| - 1 { assert s[j] == u[j]; }
      }
    }
  }

  /** `s.trim()` is the text between the leading and the trailing white space. */
  lemma {:induction false} TrimSpec(s: string)
    ensures var a := |s| - |TrimStart(s)|; var r := Trim(s);
      a + |r| <= |s| && r == s[a..a + |r|]
      && (forall j :: 0 <= j < a ==> IsWhite(s[j]))
      && (forall j :: a + |r| <= j < |s| ==> IsWhite(s[j]))
      && (|r| > 0 ==> !IsWhite(r[0]) && !IsWhite(r[|r| - 1]))
  {
    var t := TrimStart(s);
    TrimStartSpec(s);
    TrimEndSpec(t);
    TrimSlices(s, t, TrimEnd(t));
  }

  lemma {:induction false} TrimSlices(s: string, t: string, r: string)
    requires |t| <= |s| && t == s[|s| - |t|..] && (|t| > 0 ==> !IsWhite(t[0]))
    requires forall j :: 0 <= j < |s| - |t| ==> IsWhite(s[j])
    requires |r| <= |t| && r == t[..|r|] && (|r| > 0 ==> !IsWhite(r[|r| - 1]))
    requires forall j :: |r| <= j < |t| ==> IsWhite(t[j])
    ensures var a := |s| - |t|;
      a + |r| <= |s| && r == s[a..a + |r|]
      && (forall j :: 0 <= j < a ==> IsWhite(s[j]))
      && (forall j :: a + |r| <= j < |s| ==> IsWhite(s[j]))
    ensures |r| > 0 ==> !IsWhite(r[0]) && !IsWhite(r[|r| - 1])
  {
    var a := |s| - |t|;
    SliceOfSuffix(s, t, r, a);
    forall j | a + |r| <= j < |s|
      ensures IsWhite(s[j])
    {
      assert IsWhite(t[j - a]);
    }
  }

  lemma {:induction false} SliceOfSuffix(s: string, t: string, r: string, a: nat)
    requires a + |t| == |s| && t == s[a..] && |r| <= |t| && r == t[..|r|]
    ensures r == s[a..a + |r|]
    ensures forall j :: a + |r| <= j < |s| ==> s[j] == t[j - a]
    ensures |r| > 0 ==> r[0] == t[0]
  {
  }

  /** Trimming twice is trimming once. */
  lemma {:induction false} TrimIdempotent(s: string)
    ensures Trim(Trim(s)) == Trim(s)
  {
    TrimSpec(s);
    var r := Trim(s);
    if |r| > 0 {
      assert TrimStart(r) == r;
      assert TrimEnd(r) == r;
    }
  }

  /** JavaScript `a < b` on strings: code-unit lexicographic order, a proper prefix first. */
  predicate LexLess(a: string, b: string)
    decreases |a|
  {
    if |b| == 0 then false
    else if |a| == 0 then true
    else if a[0] != b[0] then a[0] < b[0]
    else LexLess(a[1..], b[1..])
  }

  /** JavaScript `a <= b` on strings. */
  predicate LexLessEq(a: string, b: string) {
    a == b || LexLess(a, b)
  }

  /** ASCII upper-case letters become lower case; everything else is kept. */
  function LowerChar(c: char): (d: char)
    ensures 'A' <= c <= 'Z' ==> 'a' <= d <= 'z'
    ensures !('A' <= c <= 'Z') ==> d == c
  {
    if 'A' <= c <= 'Z' then (c as int - 'A' as int + 'a' as int) as char else c
  }

  /** `s.toLowerCase()` restricted to ASCII letters. */
  function ToLower(s: string): (r: string)
    ensures |r| == |s|
    ensures forall i :: 0 <= i < |s| ==> r[i] == LowerChar(s[i])
  {
    if |s| == 0 then [] else [LowerChar(s[0])] + ToLower(s[1..])
  }

  /** `s.replace(c, d)` with a one-character string pattern: only the first `c` changes. */
  function ReplaceFirst(s: string, c: char, d: char): (r: string)
    ensures |r| == |s|
    ensures var i := IndexOfChar(s, c);
      (forall j :: 0 <= j < |s| && j != i ==> r[j] == s[j]) && (i < |s| ==> r[i] == d)
  {
    var i := IndexOfChar(s, c);
    if i == |s| then s else s[..i] + [d] + s[i + 1..]
  }

  /** `s.replace(/c/g, '')`: every `c` is deleted. */
  function RemoveAll(s: string, c: char): (r: string)
    ensures c !in r
    ensures |r| <= |s|
  {
    if |s| == 0 then []
    else if s[0] == c then RemoveAll(s[1..], c)
    else [s[0]] + RemoveAll(s[1..], c)
  }

  /** Removing a character deletes exactly its occurrences and nothing else. */
  lemma {:induction false} RemoveAllCount(s: string, c: char)
    ensures |RemoveAll(s, c)| + Count(s, c) == |s|
    ensures c !in s ==> RemoveAll(s, c) == s
  {
    if |s| > 0 {
      RemoveAllCount(s[1..], c);
      if c !in s {
        assert c !in s[1..];
        assert s == [s[0]] + s[1..];
      }
    }
  }

  function Count(s: string, c: char): nat
  {
    if |s| == 0 then 0 else (if s[0] == c then 1 else 0) + Count(s[1..], c)
  }
}
