/**
 * The parts of Python's `str` behaviour that the modelled code relies on:
 * `split`/`join`/`replace` with a non-empty separator, `strip`, `startswith`,
 * `endswith`, slicing with possibly negative bounds, `str(int)` and `s * n`.
 * Python strings are sequences of code points, as Dafny strings are.
 */
module PyStr {
  import opened Wrappers

  /** Python's `str.isspace` for a single character. */
  predicate IsSpace(c: char) {
    || ('\t' <= c <= '\r')
    || ('\U{1C}' <= c <= ' ')
    || c == '\U{85}' || c == '\U{A0}' || c == '\U{1680}'
    || ('\U{2000}' <= c <= '\U{200A}')
    || c == '\U{2028}' || c == '\U{2029}' || c == '\U{202F}' || c == '\U{205F}' || c == '\U{3000}'
  }

  predicate StartsWith(s: string, prefix: string) {
    |prefix| <= |s| && s[..|prefix|] == prefix
  }

  predicate EndsWith(s: string, suffix: string) {
    |suffix| <= |s| && s[|s| - |suffix|..] == suffix
  }

  /** Python's `s[:k]`: a negative `k` counts from the end, a large one is clamped. */
  function PyPrefix(s: string, k: int): (r: string)
    ensures 0 <= k ==> |r| == (if k < |s| then k else |s|)
    ensures k < 0 ==> |r| == (if |s| + k < 0 then 0 else |s| + k)
    ensures r == s[..|r|]
  {
    if k >= |s| then s
    else if k >= 0 then s[..k]
    else if |s| + k >= 0 then s[..|s| + k]
    else ""
  }

  /** Python's `s * n`. */
  function Repeat(s: string, n: nat): (r: string)
    ensures |r| == |s| * n
  {
    if n == 0 then "" else s + Repeat(s, n - 1)
  }

  function DigitChar(d: nat): char
    requires d < 10
  {
    "0123456789"[d]
  }

  predicate IsDigit(c: char) {
    '0' <= c <= '9'
  }

  /** Python's `str(n)` for a non-negative integer. */
  function NatToString(n: nat): (r: string)
    ensures |r| > 0
    ensures forall i :: 0 <= i < |r| ==> IsDigit(r[i])
  {
    if n < 10 then [DigitChar(n)] else NatToString(n / 10) + [DigitChar(n % 10)]
  }

  /** Python's `str(i)` for any integer. */
  function IntToString(i: int): (r: string)
    ensures |r| > 0
    ensures i >= 0 ==> forall k :: 0 <= k < |r| ==> IsDigit(r[k])
    ensures i < 0 ==> r[0] == '-' && forall k :: 1 <= k < |r| ==> IsDigit(r[k])
  {
    if i < 0 then "-" + NatToString(-i) else NatToString(i)
  }

  /** The number of whitespace characters at the start of `s`. */
  function LeadingSpaces(s: string): (n: nat)
    ensures n <= |s|
    ensures n < |s| ==> !IsSpace(s[n])
  {
    if |s| > 0 && IsSpace(s[0]) then
      var n := 1 + LeadingSpaces(s[1..]);
      assert n < |s| ==> s[n] == s[1..][n - 1];
      n
    else 0
  }

  /** The number of whitespace characters at the end of `s`. */
  function TrailingSpaces(s: string): (n: nat)
    ensures n <= |s|
    ensures n < |s| ==> !IsSpace(s[|s| - 1 - n])
  {
    if |s| > 0 && IsSpace(s[|s| - 1]) then
      var n := 1 + TrailingSpaces(s[..|s| - 1]);
      assert n < |s| ==> s[|s| - 1 - n] == s[..|s| - 1][|s| - 1 - n];
      n
    else 0
  }

  /** Python's `str.lstrip()` with no argument. */
  function LStrip(s: string): string {
    s[LeadingSpaces(s)..]
  }

  /** Python's `str.rstrip()` with no argument. */
  function RStrip(s: string): string {
    s[..|s| - TrailingSpaces(s)]
  }

  /** Python's `str.strip()` with no argument. */
  function Strip(s: string): (r: string)
    ensures |r| <= |s|
  {
    RStrip(LStrip(s))
  }

  /** The characters of `s` that are not whitespace, in order. */
  function NonSpace(s: string): string {
    if s == [] then [] else (if IsSpace(s[0]) then [] else [s[0]]) + NonSpace(s[1..])
  }

  /** `s` with every `'\n'` deleted. */
  function WithoutNewlines(s: string): string {
    if s == [] then [] else (if s[0] == '\n' then [] else [s[0]]) + WithoutNewlines(s[1..])
  }

  /** `"".join(parts)`. */
  function Concat(parts: seq<string>): string {
    if parts == [] then "" else parts[0] + Concat(parts[1..])
  }

  /** `sep.join(parts)`. */
  function Join(parts: seq<string>, sep: string): string {
    if |parts| == 0 then ""
    else if |parts| == 1 then parts[0]
    else parts[0] + sep + Join(parts[1..], sep)
  }

  predicate OccursAt(s: string, pat: string, j: nat) {
    j + |pat| <= |s| && s[j..j + |pat|] == pat
  }

  /** Python's `s.find(pat)`, with `None` for -1. */
  function IndexOf(s: string, pat: string): (r: Option<nat>)
    requires |pat| > 0
    ensures r.Some? ==> OccursAt(s, pat, r.value)
  {
    if |s| < |pat| then None
    else if s[..|pat|] == pat then Some(0)
    else
      match IndexOf(s[1..], pat)
      case None => None
      case Some(i) =>
        assert OccursAt(s, pat, i + 1) by { assert s[i + 1..i + 1 + |pat|] == s[1..][i..i + |pat|]; }
        Some(i + 1)
  }

  /** `IndexOf` finds the first occurrence, and `None` means there is none. */
  lemma {:induction false} IndexOfFirst(s: string, pat: string)
    requires |pat| > 0
    ensures IndexOf(s, pat).Some? ==> forall j: nat :: j < IndexOf(s, pat).value ==> !OccursAt(s, pat, j)
    ensures IndexOf(s, pat).None? ==> forall j: nat :: !OccursAt(s, pat, j)
  {
    if |s| >= |pat| && s[..|pat|] != pat {
      IndexOfFirst(s[1..], pat);
      OccursShift(s, pat);
    }
  }

  /** An occurrence after the first character of `s` is an occurrence in `s[1..]`, one place earlier. */
  lemma OccursShift(s: string, pat: string)
    requires |s| > 0
    ensures forall j: nat :: j > 0 ==> (OccursAt(s, pat, j) <==> OccursAt(s[1..], pat, j - 1))
  {
    forall j: nat | j > 0 ensures OccursAt(s, pat, j) <==> OccursAt(s[1..], pat, j - 1) {
      if j + |pat| <= |s| {
        var here, there := s[j..j + |pat|], s[1..][j - 1..j - 1 + |pat|];
        forall k | 0 <= k < |pat| ensures here[k] == there[k] {
          assert here[k] == s[j + k] == s[1..][j - 1 + k];
        }
        assert here == there;
      }
    }
  }

  /** Python's `s.split(sep)` for a non-empty separator. */
  function Split(s: string, sep: string): (r: seq<string>)
    requires |sep| > 0
    ensures |r| >= 1
    decreases |s|
  {
    match IndexOf(s, sep)
    case None => [s]
    case Some(i) => [s[..i]] + Split(s[i + |sep|..], sep)
  }

  /** Python's `s.replace(pat, repl)` for a non-empty `pat`. */
  function ReplaceAll(s: string, pat: string, repl: string): string
    requires |pat| > 0
  {
    Join(Split(s, pat), repl)
  }

  /** Index of the last occurrence of `c` in `s`, like Python's `s.rfind(c)`. */
  function RFind(s: string, c: char): (r: Option<nat>)
    ensures r.Some? ==> r.value < |s| && s[r.value] == c && forall j :: r.value < j < |s| ==> s[j] != c
    ensures r.None? ==> forall j :: 0 <= j < |s| ==> s[j] != c
  {
    if |s| == 0 then None
    else if s[|s| - 1] == c then Some(|s| - 1)
    else RFind(s[..|s| - 1], c)
  }

  // ---------------------------------------------------------------- lemmas

  /** Splitting and joining with the same separator gives back the string. */
  lemma {:induction false} JoinSplit(s: string, sep: string)
    requires |sep| > 0
    ensures Join(Split(s, sep), sep) == s
    decreases |s|
  {
    match IndexOf(s, sep)
    case None =>
    case Some(i) =>
      var head, rest := s[..i], s[i + |sep|..];
      var tail := Split(rest, sep);
      assert Split(s, sep) == [head] + tail;
      JoinSplit(rest, sep);
      JoinCons(head, tail, sep);
      SliceAround(s, i, sep);
  }

  /** `s` is what precedes an occurrence of `pat`, the occurrence, and what follows it. */
  lemma SliceAround(s: string, i: nat, pat: string)
    requires OccursAt(s, pat, i)
    ensures s == s[..i] + pat + s[i + |pat|..]
  {
    assert s == s[..i] + s[i..i + |pat|] + s[i + |pat|..];
  }

  lemma JoinCons(head: string, tail: seq<string>, sep: string)
    requires |tail| >= 1
    ensures Join([head] + tail, sep) == head + sep + Join(tail, sep)
  {
    assert ([head] + tail)[1..] == tail;
  }

  /** A piece produced by `Split` never contains the separator. */
  lemma {:induction false} SplitPiecesLackSeparator(s: string, sep: string, k: nat, j: nat)
    requires |sep| > 0 && k < |Split(s, sep)|
    ensures !OccursAt(Split(s, sep)[k], sep, j)
    decreases |s|
  {
    IndexOfFirst(s, sep);
    match IndexOf(s, sep)
    case None =>
    case Some(i) =>
      assert Split(s, sep) == [s[..i]] + Split(s[i + |sep|..], sep);
      if k == 0 {
        if OccursAt(s[..i], sep, j) {
          OccursInPrefix(s, i, sep, j);
        }
      } else {
        SplitPiecesLackSeparator(s[i + |sep|..], sep, k - 1, j);
      }
  }

  lemma OccursInPrefix(s: string, i: nat, pat: string, j: nat)
    requires i <= |s| && |pat| > 0 && OccursAt(s[..i], pat, j)
    ensures OccursAt(s, pat, j) && j < i
  {
    assert s[..i][j..j + |pat|] == s[j..j + |pat|];
  }

  /** A string without the separator splits into itself alone. */
  lemma SplitWithoutSeparator(s: string, sep: string)
    requires |sep| > 0 && forall j: nat :: !OccursAt(s, sep, j)
    ensures Split(s, sep) == [s]
  {
  }

  lemma {:induction false} ConcatAppend(parts: seq<string>, p: string)
    ensures Concat(parts + [p]) == Concat(parts) + p
  {
    if parts != [] {
      assert (parts + [p])[1..] == parts[1..] + [p];
      ConcatAppend(parts[1..], p);
    }
  }

  lemma ConcatSingle(parts: seq<string>)
    requires |parts| == 1
    ensures Concat(parts) == parts[0]
  {
    assert parts[1..] == [];
    assert parts[0] + "" == parts[0];
  }

  lemma {:induction false} WithoutNewlinesAppend(a: string, b: string)
    ensures WithoutNewlines(a + b) == WithoutNewlines(a) + WithoutNewlines(b)
  {
    if a != [] {
      assert (a + b)[1..] == a[1..] + b;
      WithoutNewlinesAppend(a[1..], b);
    } else {
      assert a + b == b;
    }
  }

  lemma {:induction false} NonSpaceAppend(a: string, b: string)
    ensures NonSpace(a + b) == NonSpace(a) + NonSpace(b)
  {
    if a != [] {
      assert (a + b)[1..] == a[1..] + b;
      NonSpaceAppend(a[1..], b);
    } else {
      assert a + b == b;
    }
  }

  /** Deleting newlines from a join on a newline-only separator deletes the separators too. */
  lemma {:induction false} WithoutNewlinesJoin(parts: seq<string>, sep: string)
    requires forall i :: 0 <= i < |sep| ==> sep[i] == '\n'
    ensures WithoutNewlines(Join(parts, sep)) == WithoutNewlines(Concat(parts))
  {
    if |parts| == 1 {
      ConcatSingle(parts);
    } else if |parts| > 1 {
      WithoutNewlinesJoin(parts[1..], sep);
      WithoutNewlinesAppend(parts[0] + sep, Join(parts[1..], sep));
      WithoutNewlinesAppend(parts[0], sep);
      WithoutNewlinesAppend(parts[0], Concat(parts[1..]));
      NewlinesOnlyVanish(sep);
    }
  }

  lemma {:induction false} NewlinesOnlyVanish(s: string)
    requires forall i :: 0 <= i < |s| ==> s[i] == '\n'
    ensures WithoutNewlines(s) == ""
  {
    if s != [] { NewlinesOnlyVanish(s[1..]); }
  }

  lemma {:induction false} SpacesOnlyVanish(s: string)
    requires forall i :: 0 <= i < |s| ==> IsSpace(s[i])
    ensures NonSpace(s) == ""
  {
    if s != [] { SpacesOnlyVanish(s[1..]); }
  }

  /** Deleting whitespace from a join on a whitespace-only separator deletes the separators too. */
  lemma {:induction false} NonSpaceJoin(parts: seq<string>, sep: string)
    requires forall i :: 0 <= i < |sep| ==> IsSpace(sep[i])
    ensures NonSpace(Join(parts, sep)) == NonSpace(Concat(parts))
  {
    if |parts| == 1 {
      ConcatSingle(parts);
    } else if |parts| > 1 {
      NonSpaceJoin(parts[1..], sep);
      NonSpaceAppend(parts[0] + sep, Join(parts[1..], sep));
      NonSpaceAppend(parts[0], sep);
      NonSpaceAppend(parts[0], Concat(parts[1..]));
      SpacesOnlyVanish(sep);
    }
  }

  /** What `lstrip` removes is whitespace. */
  lemma {:induction false} LeadingAreSpaces(s: string)
    ensures forall i :: 0 <= i < LeadingSpaces(s) ==> IsSpace(s[i])
  {
    if |s| > 0 && IsSpace(s[0]) {
      LeadingAreSpaces(s[1..]);
      forall i | 1 <= i < LeadingSpaces(s) ensures IsSpace(s[i]) { assert s[i] == s[1..][i - 1]; }
    }
  }

  /** What `rstrip` removes is whitespace. */
  lemma {:induction false} TrailingAreSpaces(s: string)
    ensures forall i :: |s| - TrailingSpaces(s) <= i < |s| ==> IsSpace(s[i])
  {
    if |s| > 0 && IsSpace(s[|s| - 1]) {
      TrailingAreSpaces(s[..|s| - 1]);
      forall i | |s| - TrailingSpaces(s) <= i < |s| - 1 ensures IsSpace(s[i]) { assert s[i] == s[..|s| - 1][i]; }
    }
  }

  /** `lstrip` removes only whitespace. */
  lemma NonSpaceLStrip(s: string)
    ensures NonSpace(LStrip(s)) == NonSpace(s)
  {
    var n := LeadingSpaces(s);
    var cut := s[..n];
    assert s == cut + LStrip(s);
    NonSpaceAppend(cut, LStrip(s));
    LeadingAreSpaces(s);
    SpacesOnlyVanish(cut);
  }

  /** `rstrip` removes only whitespace. */
  lemma NonSpaceRStrip(s: string)
    ensures NonSpace(RStrip(s)) == NonSpace(s)
  {
    var n := |s| - TrailingSpaces(s);
    var cut := s[n..];
    assert s == RStrip(s) + cut;
    NonSpaceAppend(RStrip(s), cut);
    TrailingAreSpaces(s);
    assert forall i :: 0 <= i < |cut| ==> IsSpace(cut[i]) by {
      forall i | 0 <= i < |cut| ensures IsSpace(cut[i]) { assert cut[i] == s[n + i]; }
    }
    SpacesOnlyVanish(cut);
  }

  /** `strip` removes only whitespace. */
  lemma NonSpaceStrip(s: string)
    ensures NonSpace(Strip(s)) == NonSpace(s)
  {
    NonSpaceLStrip(s);
    NonSpaceRStrip(LStrip(s));
  }

  /** `strip` leaves no whitespace at either end. */
  lemma StripEnds(s: string)
    ensures var r := Strip(s); r == "" || (!IsSpace(r[0]) && !IsSpace(r[|r| - 1]))
  {
    var l := LStrip(s);
    var r := RStrip(l);
    if r != "" {
      assert r[0] == l[0];
      assert r[|r| - 1] == l[|l| - 1 - TrailingSpaces(l)];
    }
  }

  /** `strip` returns a contiguous slice of its argument. */
  lemma StripIsSlice(s: string)
    ensures var off := LeadingSpaces(s);
      && off + |Strip(s)| <= |s|
      && forall i :: 0 <= i < |Strip(s)| ==> Strip(s)[i] == s[off + i]
  {
    var off := LeadingSpaces(s);
    var l := LStrip(s);
    assert l == s[off..];
    var r := RStrip(l);
    assert r == l[..|l| - TrailingSpaces(l)];
    forall i | 0 <= i < |r| ensures r[i] == s[off + i] {
      assert r[i] == l[i];
    }
  }

  /** A string with no whitespace at either end is its own `strip`. */
  lemma StripNoOp(s: string)
    requires s == [] || (!IsSpace(s[0]) && !IsSpace(s[|s| - 1]))
    ensures Strip(s) == s
  {
  }

  /** The first occurrence of a one-character pattern is the first position holding that character. */
  lemma FirstCharAt(s: string, c: char, n: nat)
    requires n < |s| && s[n] == c
    requires forall j :: 0 <= j < n ==> s[j] != c
    ensures IndexOf(s, [c]) == Some(n)
  {
    IndexOfFirst(s, [c]);
    assert OccursAt(s, [c], n) by { assert s[n..n + 1] == [s[n]]; }
    var v := IndexOf(s, [c]).value;
    assert s[v..v + 1] == [s[v]];
  }

  /** The last occurrence of `c` is the last position holding it. */
  lemma {:induction false} LastCharAt(s: string, c: char, n: nat)
    requires n < |s| && s[n] == c
    requires forall j :: n < j < |s| ==> s[j] != c
    ensures RFind(s, c) == Some(n)
    decreases |s|
  {
    if n < |s| - 1 {
      LastCharAt(s[..|s| - 1], c, n);
    }
  }

  /** A string without the character `c` has no occurrence of `[c]`. */
  lemma NoCharNoIndex(s: string, c: char)
    requires forall j :: 0 <= j < |s| ==> s[j] != c
    ensures IndexOf(s, [c]) == None
  {
    forall v: nat | v + 1 <= |s| ensures !OccursAt(s, [c], v) {
      assert s[v..v + 1][0] == s[v];
    }
  }

  /** Joining pieces free of the character `c` on `c` and splitting again gives the pieces back. */
  lemma {:induction false} SplitJoinChar(parts: seq<string>, c: char)
    requires |parts| >= 1
    requires forall i, j :: 0 <= i < |parts| && 0 <= j < |parts[i]| ==> parts[i][j] != c
    ensures Split(Join(parts, [c]), [c]) == parts
  {
    if |parts| == 1 {
      NoCharNoIndex(parts[0], c);
    } else {
      var head, rest := parts[0], Join(parts[1..], [c]);
      var s := Join(parts, [c]);
      assert s == head + [c] + rest;
      FirstCharAt(s, c, |head|);
      assert s[..|head|] == head && s[|head| + 1..] == rest;
      SplitJoinChar(parts[1..], c);
    }
  }

  /** Regrouping a concatenation; called where the solver would otherwise search for it. */
  lemma AppendRegroup<T>(a: seq<T>, b: seq<T>, c: seq<T>, whole: seq<T>, rest: seq<T>, front: seq<T>)
    requires whole == a + rest && rest == b + c && front == a + b
    ensures whole == front + c
  {
  }
}
