/**
 * The utility helpers of `utils/helpers.py`: the `retry_async` decorator,
 * `detect_chinese`, `safe_filename` and `truncate_text`.
 *
 * `retry_async` is modelled as a loop over an oracle `call`: `call(k)` is what
 * the k-th invocation of the wrapped coroutine does (return a value or raise).
 * Sleeps are recorded instead of performed. Delays are `real`s; floating-point
 * rounding of `current_delay *= backoff` is not modelled.
 */
module Helpers {
  import opened Wrappers
  import opened PyStr

  // ------------------------------------------------------------ retry_async

  /**
   * What one call of the wrapped function does. `caught` says whether the
   * raised exception is an instance of the decorator's `exceptions` tuple.
   */
  datatype Outcome<T> = Returns(value: T) | Raises(error: string, caught: bool)

  /** A whole decorated call: its result, how many calls were made, and the sleeps taken in order. */
  datatype Run<T> = Run(result: Result<T>, calls: nat, sleeps: seq<real>)

  /** `raise last_exception` with `last_exception = None`, reached only when `max_attempts < 1`. */
  const RaiseNone := "TypeError: exceptions must derive from BaseException"

  function Pow(b: real, k: nat): real {
    if k == 0 then 1.0 else b * Pow(b, k - 1)
  }

  /** The rest of a decorated call, from attempt number `attempt` with the current delay `d`. */
  function Attempts<T>(maxAttempts: int, attempt: nat, d: real, backoff: real, call: nat -> Outcome<T>): Run<T>
    decreases if attempt <= maxAttempts then maxAttempts - attempt + 1 else 0
  {
    if attempt > maxAttempts then Run(Err(RaiseNone), 0, [])
    else match call(attempt)
      case Returns(v) => Run(Ok(v), 1, [])
      case Raises(e, caught) =>
        if !caught || attempt == maxAttempts then Run(Err(e), 1, [])
        else
          var rest := Attempts(maxAttempts, attempt + 1, d * backoff, backoff, call);
          Run(rest.result, rest.calls + 1, [d] + rest.sleeps)
  }

  /** The specification of `retry_async(max_attempts, delay, backoff)` applied to `call`. */
  function Retry<T>(maxAttempts: int, delay: real, backoff: real, call: nat -> Outcome<T>): Run<T> {
    Attempts(maxAttempts, 1, delay, backoff, call)
  }

  /** `n` earlier calls with the sleeps `pre`, followed by the run `r`. */
  function After<T>(pre: seq<real>, n: nat, r: Run<T>): Run<T> {
    Run(r.result, r.calls + n, pre + r.sleeps)
  }

  /** The decorator's `wrapper` loop. */
  method RetryAsync<T>(maxAttempts: int, delay: real, backoff: real, call: nat -> Outcome<T>) returns (run: Run<T>)
    ensures run == Retry(maxAttempts, delay, backoff, call)
  {
    var currentDelay := delay;
    var sleeps: seq<real> := [];
    var attempt: nat := 1;
    while attempt <= maxAttempts
      invariant 1 <= attempt && (attempt == 1 || attempt <= maxAttempts)
      invariant Retry(maxAttempts, delay, backoff, call)
             == After(sleeps, attempt - 1, Attempts(maxAttempts, attempt, currentDelay, backoff, call))
      decreases maxAttempts - attempt
    {
      var outcome := call(attempt);
      if outcome.Returns? {
        return Run(Ok(outcome.value), attempt, sleeps);
      }
      if !outcome.caught || attempt == maxAttempts {
        return Run(Err(outcome.error), attempt, sleeps);
      }
      ghost var rest := Attempts(maxAttempts, attempt + 1, currentDelay * backoff, backoff, call);
      assert Attempts(maxAttempts, attempt, currentDelay, backoff, call) == After([currentDelay], 1, rest);
      assert (sleeps + [currentDelay]) + rest.sleeps == sleeps + ([currentDelay] + rest.sleeps);
      sleeps := sleeps + [currentDelay];
      currentDelay := currentDelay * backoff;
      attempt := attempt + 1;
    }
    run := Run(Err(RaiseNone), 0, []);
  }

  /**
   * Each sleep uses the current delay, which starts at `d` and is multiplied by
   * `backoff` after every sleep.
   */
  predicate Geometric(sleeps: seq<real>, d: real, backoff: real) {
    sleeps == [] || (sleeps[0] == d && Geometric(sleeps[1..], d * backoff, backoff))
  }

  /** At most `maxAttempts - attempt + 1` calls, and one sleep between consecutive calls. */
  lemma {:induction false} AttemptsCalls<T>(maxAttempts: int, attempt: nat, d: real, backoff: real, call: nat -> Outcome<T>)
    requires 1 <= attempt <= maxAttempts
    ensures var r := Attempts(maxAttempts, attempt, d, backoff, call);
      1 <= r.calls <= maxAttempts - attempt + 1 && |r.sleeps| == r.calls - 1
    decreases maxAttempts - attempt
  {
    if call(attempt).Raises? && call(attempt).caught && attempt < maxAttempts {
      AttemptsCalls(maxAttempts, attempt + 1, d * backoff, backoff, call);
    }
  }

  /** The sleeps start at the current delay and grow by `backoff` each time. */
  lemma {:induction false} AttemptsSleeps<T>(maxAttempts: int, attempt: nat, d: real, backoff: real, call: nat -> Outcome<T>)
    requires 1 <= attempt
    ensures Geometric(Attempts(maxAttempts, attempt, d, backoff, call).sleeps, d, backoff)
    decreases if attempt <= maxAttempts then maxAttempts - attempt + 1 else 0
  {
    if attempt <= maxAttempts && call(attempt).Raises? && call(attempt).caught && attempt < maxAttempts {
      var r := Attempts(maxAttempts, attempt, d, backoff, call);
      var rest := Attempts(maxAttempts, attempt + 1, d * backoff, backoff, call);
      AttemptsSleeps(maxAttempts, attempt + 1, d * backoff, backoff, call);
      assert r.sleeps == [d] + rest.sleeps;
      assert r.sleeps[1..] == rest.sleeps;
    }
  }

  /** The delays of a geometric sequence of sleeps in closed form. */
  lemma {:induction false} GeometricClosedForm(sleeps: seq<real>, d: real, backoff: real, k: nat)
    requires Geometric(sleeps, d, backoff) && k < |sleeps|
    ensures sleeps[k] == d * Pow(backoff, k)
  {
    if k > 0 {
      GeometricClosedForm(sleeps[1..], d * backoff, backoff, k - 1);
      var p := Pow(backoff, k - 1);
      assert sleeps[k] == (d * backoff) * p;
      assert (d * backoff) * p == d * (backoff * p);
    }
  }

  /**
   * Every call before the last raised a caught exception; the last call's
   * outcome decides the result: its value, or its exception re-raised when it
   * was not caught or was the final attempt.
   */
  lemma {:induction false} AttemptsOutcome<T>(maxAttempts: int, attempt: nat, d: real, backoff: real, call: nat -> Outcome<T>)
    requires 1 <= attempt <= maxAttempts
    ensures var r := Attempts(maxAttempts, attempt, d, backoff, call);
      var last := attempt + r.calls - 1;
      && r.calls >= 1
      && (forall j :: attempt <= j < last ==> call(j).Raises? && call(j).caught)
      && (r.result.Ok? <==> call(last).Returns?)
      && (r.result.Ok? ==> r.result.value == call(last).value)
      && (r.result.Err? ==> r.result.error == call(last).error && (!call(last).caught || last == maxAttempts))
    decreases maxAttempts - attempt
  {
    if call(attempt).Raises? && call(attempt).caught && attempt < maxAttempts {
      AttemptsOutcome(maxAttempts, attempt + 1, d * backoff, backoff, call);
    }
  }

  /** `retry_async` makes at most `max_attempts` calls and sleeps `delay * backoff^k` after failure k+1. */
  lemma RetryCallsAndSleeps<T>(maxAttempts: int, delay: real, backoff: real, call: nat -> Outcome<T>)
    requires maxAttempts >= 1
    ensures var r := Retry(maxAttempts, delay, backoff, call);
      && 1 <= r.calls <= maxAttempts
      && |r.sleeps| == r.calls - 1
      && forall k :: 0 <= k < |r.sleeps| ==> r.sleeps[k] == delay * Pow(backoff, k)
  {
    var r := Retry(maxAttempts, delay, backoff, call);
    AttemptsCalls(maxAttempts, 1, delay, backoff, call);
    AttemptsSleeps(maxAttempts, 1, delay, backoff, call);
    forall k | 0 <= k < |r.sleeps| ensures r.sleeps[k] == delay * Pow(backoff, k) {
      GeometricClosedForm(r.sleeps, delay, backoff, k);
    }
  }

  /**
   * The first successful call ends the run with its value; an exception outside
   * `exceptions`, or any exception on the final attempt, ends it re-raised unchanged.
   */
  lemma RetryOutcome<T>(maxAttempts: int, delay: real, backoff: real, call: nat -> Outcome<T>)
    requires maxAttempts >= 1
    ensures var r := Retry(maxAttempts, delay, backoff, call);
      && (forall j :: 1 <= j < r.calls ==> call(j).Raises? && call(j).caught)
      && (r.result.Ok? <==> call(r.calls).Returns?)
      && (r.result.Ok? ==> r.result.value == call(r.calls).value)
      && (r.result.Err? ==> r.result.error == call(r.calls).error && (!call(r.calls).caught || r.calls == maxAttempts))
  {
    AttemptsOutcome(maxAttempts, 1, delay, backoff, call);
  }

  /** A function that fails every time with a caught exception is called `max_attempts` times and sleeps `max_attempts - 1` times. */
  lemma RetryAllFail<T>(maxAttempts: int, delay: real, backoff: real, call: nat -> Outcome<T>)
    requires maxAttempts >= 1
    requires forall j :: 1 <= j <= maxAttempts ==> call(j).Raises? && call(j).caught
    ensures var r := Retry(maxAttempts, delay, backoff, call);
      r.calls == maxAttempts && |r.sleeps| == maxAttempts - 1 && r.result == Err(call(maxAttempts).error)
  {
    AttemptsOutcome(maxAttempts, 1, delay, backoff, call);
    AttemptsCalls(maxAttempts, 1, delay, backoff, call);
  }

  /** With `max_attempts < 1` the loop never runs and `raise None` fails with a TypeError. */
  lemma RetryNoAttempts<T>(maxAttempts: int, delay: real, backoff: real, call: nat -> Outcome<T>)
    requires maxAttempts < 1
    ensures Retry(maxAttempts, delay, backoff, call) == Run(Err(RaiseNone), 0, [])
  {
  }

  // --------------------------------------------------------- detect_chinese

  /** The CJK Unified Ideographs block and its Extension A. */
  predicate IsChinese(c: char) {
    ('一' <= c <= '鿿') || ('㐀' <= c <= '䶿')
  }

  /** `detect_chinese`: does some character of `text` lie in a CJK range? */
  function DetectChinese(text: string): (r: bool)
    ensures r <==> exists i :: 0 <= i < |text| && IsChinese(text[i])
  {
    if text == [] then false
    else if IsChinese(text[0]) then true
    else
      var r := DetectChinese(text[1..]);
      assert forall i :: 1 <= i < |text| ==> text[i] == text[1..][i - 1];
      r
  }

  // ---------------------------------------------------------- safe_filename

  /** The characters that `safe_filename` replaces by `_`: `<>:"/\|?*` and U+0000 to U+001F. */
  predicate IsUnsafe(c: char) {
    || c == '<' || c == '>' || c == ':' || c == '"' || c == '/' || c == '\\'
    || c == '|' || c == '?' || c == '*' || c <= '\U{1F}'
  }

  predicate NoUnsafe(s: string) {
    forall i :: 0 <= i < |s| ==> !IsUnsafe(s[i])
  }

  /** The `re.sub` step: every unsafe character becomes `_`. */
  function Sanitize(s: string): (r: string)
    ensures |r| == |s|
    ensures forall i :: 0 <= i < |s| ==> r[i] == (if IsUnsafe(s[i]) then '_' else s[i])
  {
    if s == [] then [] else [if IsUnsafe(s[0]) then '_' else s[0]] + Sanitize(s[1..])
  }

  /**
   * `pathlib`'s split of a single path component into stem and suffix: the
   * suffix starts at the last dot, unless that dot is the first or the last
   * character. The name of `Path(".")` is empty.
   */
  function StemSuffix(name: string): (r: (string, string))
    ensures r.0 + r.1 == (if name == "." then "" else name)
    ensures r.1 == "" || (r.1[0] == '.' && |r.1| >= 2 && forall i :: 1 <= i < |r.1| ==> r.1[i] != '.')
  {
    if name == "." then ("", "")
    else match RFind(name, '.')
      case Some(i) =>
        if 0 < i < |name| - 1 then
          assert name == name[..i] + name[i..];
          (name[..i], name[i..])
        else (name, "")
      case None => (name, "")
  }

  /** The length-limiting step of `safe_filename`: `name[:max_length - len(ext)] + ext`. */
  function Shorten(safe: string, maxLength: int): string {
    if |safe| > maxLength then
      var p := StemSuffix(safe);
      PyPrefix(p.0, maxLength - |p.1|) + p.1
    else safe
  }

  /** `safe_filename(filename, max_length)`. */
  function SafeFilename(filename: string, maxLength: int): (r: string)
    ensures r != ""
    ensures NoUnsafe(r)
  {
    var cut := Shorten(Strip(Sanitize(filename)), maxLength);
    SafeStages(filename, maxLength);
    UnnamedFileSafe();
    if cut == "" then "unnamed_file" else cut
  }

  lemma UnnamedFileSafe()
    ensures NoUnsafe("unnamed_file")
  {
  }

  /** Each stage of `safe_filename` keeps only characters that the sanitising step let through. */
  lemma SafeStages(filename: string, maxLength: int)
    ensures NoUnsafe(Shorten(Strip(Sanitize(filename)), maxLength))
  {
    StripKeepsSafe(Sanitize(filename));
    ShortenKeepsSafe(Strip(Sanitize(filename)), maxLength);
  }

  lemma StripKeepsSafe(s: string)
    requires NoUnsafe(s)
    ensures NoUnsafe(Strip(s))
  {
    var safe := Strip(s);
    var off := LeadingSpaces(s);
    StripIsSlice(s);
    forall i | 0 <= i < |safe| ensures !IsUnsafe(safe[i]) {
      assert safe[i] == s[off + i];
    }
  }

  lemma ShortenKeepsSafe(safe: string, maxLength: int)
    requires NoUnsafe(safe)
    ensures NoUnsafe(Shorten(safe, maxLength))
  {
    if |safe| > maxLength {
      var p := StemSuffix(safe);
      var whole := if safe == "." then "" else safe;
      assert p.0 + p.1 == whole;
      var head := PyPrefix(p.0, maxLength - |p.1|);
      var cut := head + p.1;
      forall i | 0 <= i < |cut| ensures !IsUnsafe(cut[i]) {
        if i < |head| {
          assert cut[i] == p.0[i] == whole[i];
        } else {
          assert cut[i] == p.1[i - |head|] == whole[|p.0| + i - |head|];
        }
      }
    }
  }

  /** A name that is short enough after sanitising and stripping is returned as it is. */
  lemma SafeFilenameShort(filename: string, maxLength: int)
    requires Strip(Sanitize(filename)) != "" && |Strip(Sanitize(filename))| <= maxLength
    ensures SafeFilename(filename, maxLength) == Strip(Sanitize(filename))
  {
  }

  /**
   * An over-long name keeps its extension and its stem is cut to
   * `max_length - len(ext)`; when the extension fits, the result fits too
   * (or is the `'unnamed_file'` fallback).
   */
  lemma SafeFilenameLong(filename: string, maxLength: int)
    requires |Strip(Sanitize(filename))| > maxLength
    ensures var p := StemSuffix(Strip(Sanitize(filename)));
      var r := SafeFilename(filename, maxLength);
      && (r == "unnamed_file" || EndsWith(r, p.1))
      && (0 <= maxLength - |p.1| ==> r == "unnamed_file" || |r| <= maxLength)
      && (0 <= maxLength - |p.1| && |p.1| > 0 ==> |r| <= maxLength && r[..|r| - |p.1|] == p.0[..|r| - |p.1|])
      && (0 <= maxLength - |p.1| ==> r == "unnamed_file" || (|r| == maxLength && r == p.0[..maxLength - |p.1|] + p.1))
  {
    SafeFilenameIsShorten(filename, maxLength);
    ShortenLong(Strip(Sanitize(filename)), maxLength);
  }

  lemma SafeFilenameIsShorten(filename: string, maxLength: int)
    ensures var cut := Shorten(Strip(Sanitize(filename)), maxLength);
      SafeFilename(filename, maxLength) == if cut == "" then "unnamed_file" else cut
  {
  }

  lemma ShortenLong(safe: string, maxLength: int)
    requires |safe| > maxLength
    ensures var p := StemSuffix(safe);
      var r := Shorten(safe, maxLength);
      && EndsWith(r, p.1)
      && (0 <= maxLength - |p.1| ==> |r| <= maxLength)
      && r[..|r| - |p.1|] == p.0[..|r| - |p.1|]
      && (0 <= maxLength - |p.1| && safe != "." ==> r == p.0[..maxLength - |p.1|] + p.1 && |r| == maxLength)
  {
    var p := StemSuffix(safe);
    var head := PyPrefix(p.0, maxLength - |p.1|);
    assert (head + p.1)[|head|..] == p.1;
    assert (head + p.1)[..|head|] == head;
  }

  /**
   * When the extension alone is longer than `max_length`, Python's negative
   * slice keeps part of the stem and the result exceeds the limit: with a
   * 2-character limit, `"ab.cd"` comes back as `"a.cd"`.
   */
  lemma SafeFilenameLongExtension()
    ensures SafeFilename("ab.cd", 2) == "a.cd"
  {
    LongExtensionClean();
    LongExtensionStem();
    SafeFilenameIsShorten("ab.cd", 2);
  }

  lemma LongExtensionClean()
    ensures Strip(Sanitize("ab.cd")) == "ab.cd"
  {
    LongExtensionSafe();
    SanitizeKeepsSafe("ab.cd");
    StripNoOp("ab.cd");
  }

  lemma LongExtensionSafe()
    ensures NoUnsafe("ab.cd")
  {
  }

  lemma LongExtensionStem()
    ensures StemSuffix("ab.cd") == ("ab", ".cd")
    ensures Shorten("ab.cd", 2) == "a.cd"
  {
    var s := "ab.cd";
    assert RFind(s, '.') == Some(2) by {
      assert s[..4] == "ab.c" && s[..4][..3] == "ab.";
      assert RFind("ab.", '.') == Some(2);
      assert RFind("ab.c", '.') == Some(2);
    }
    assert s[..2] == "ab" && s[2..] == ".cd";
    assert PyPrefix("ab", -1) == "a";
  }

  /** A name without unsafe characters is left as it is by the sanitising step. */
  lemma SanitizeKeepsSafe(s: string)
    requires NoUnsafe(s)
    ensures Sanitize(s) == s
  {
  }

  // ---------------------------------------------------------- truncate_text

  /** `truncate_text(text, max_length, suffix)`. */
  function TruncateText(text: string, maxLength: int, suffix: string): (r: string)
    ensures |text| <= maxLength ==> r == text
    ensures |text| > maxLength && |suffix| <= maxLength ==>
      |r| == maxLength && EndsWith(r, suffix) && r[..maxLength - |suffix|] == text[..maxLength - |suffix|]
  {
    if |text| <= maxLength then text
    else
      var head := PyPrefix(text, maxLength - |suffix|);
      assert (head + suffix)[..|head|] == head;
      assert (head + suffix)[|head|..] == suffix;
      head + suffix
  }
}
