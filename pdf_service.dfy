/**
 * `PDFService` of `services/pdf_service.py`: the name a download is stored
 * under, the size limit enforced while the body streams in, the removal of a
 * partial file on failure, page-text extraction with its fallback reader, and
 * the two clean-up operations.
 *
 * The temporary directory is the map `files` from path to stored file; the
 * HTTP response, the PDF readers, the clock and the failures of the file
 * system are inputs. Paths are `temp_dir + "/" + name`.
 */
module PdfService {
  import opened Wrappers
  import opened PyStr
  import opened Helpers

  const MiB := 1048576
  /** `download_pdf` is decorated with `retry_async(max_attempts=3, delay=2.0, backoff=2.0)`. */
  const DownloadAttempts := 3
  const DownloadDelay: real := 2.0
  const DownloadBackoff: real := 2.0

  /** The name `download_pdf` falls back to when the URL ends in `/`. */
  const DefaultName := "document.pdf"
  const OverLimit := "PDF exceeds size limit during download"
  /** The start of the error for a `Content-Length` over the limit (the formatted size that follows is left out). */
  const TooLarge := "PDF too large"

  // ------------------------------------------------------------- file names

  /** `url.split('/')[-1] or 'document.pdf'`. */
  function LastSegment(url: string): (r: string)
    ensures r != "" && forall j :: !OccursAt(r, "/", j) || r == DefaultName
  {
    var parts := Split(url, "/");
    var last := parts[|parts| - 1];
    if last == "" then DefaultName
    else
      assert forall j :: !OccursAt(last, "/", j) by {
        forall j ensures !OccursAt(last, "/", j) { SplitPiecesLackSeparator(url, "/", |parts| - 1, j); }
      }
      last
  }

  /** The name `download_pdf(url, filename)` stores the file under. */
  function DownloadName(url: string, filename: Option<string>): (r: string)
    ensures EndsWith(r, ".pdf")
    ensures NoUnsafe(r)
  {
    var safe := if filename.None? || filename.value == "" then SafeFilename(LastSegment(url), 200)
                else SafeFilename(filename.value, 200);
    WithPdfExtension(safe)
  }

  /** `name` with `.pdf` added unless it already ends so. */
  function WithPdfExtension(name: string): (r: string)
    requires NoUnsafe(name)
    ensures EndsWith(r, ".pdf") && NoUnsafe(r)
  {
    if EndsWith(name, ".pdf") then name
    else
      var r := name + ".pdf";
      assert r[|r| - 4..] == ".pdf";
      assert forall i :: |name| <= i < |r| ==> r[i] in ".pdf";
      r
  }

  /**
   * The name is the sanitised given name (the last URL segment when none is
   * given), with `.pdf` added exactly when it does not already end so.
   */
  lemma DownloadNameKeepsBase(url: string, filename: Option<string>)
    ensures var safe := if filename.None? || filename.value == "" then SafeFilename(LastSegment(url), 200)
                        else SafeFilename(filename.value, 200);
      var r := DownloadName(url, filename);
      && StartsWith(r, safe)
      && (EndsWith(safe, ".pdf") <==> r == safe)
      && (!EndsWith(safe, ".pdf") ==> r == safe + ".pdf")
  {
    var safe := if filename.None? || filename.value == "" then SafeFilename(LastSegment(url), 200)
                else SafeFilename(filename.value, 200);
    assert DownloadName(url, filename) == WithPdfExtension(safe);
    WithPdfExtensionKeeps(safe);
  }

  lemma WithPdfExtensionKeeps(safe: string)
    requires NoUnsafe(safe)
    ensures var r := WithPdfExtension(safe);
      && StartsWith(r, safe)
      && (EndsWith(safe, ".pdf") <==> r == safe)
      && (!EndsWith(safe, ".pdf") ==> r == safe + ".pdf")
  {
    if !EndsWith(safe, ".pdf") {
      assert (safe + ".pdf")[..|safe|] == safe;
    }
  }

  /** `temp_dir / name`. */
  function TempPath(tempDir: string, name: string): string {
    tempDir + "/" + name
  }

  // ---------------------------------------------------------- download_pdf

  /** The `Content-Length` header: absent or empty, not a whole number (as written), or a number of bytes. */
  datatype ContentLength = Absent | Invalid(header: string) | Length(bytes: int)

  /**
   * The server's answer to one `GET`: an error raised by the request or by
   * `raise_for_status`, or a body of chunks with their sizes, possibly broken
   * off with an error after those chunks.
   */
  datatype Response = Refused(error: string) | Body(contentLength: ContentLength, chunks: seq<nat>, broken: Option<string>)

  /** A stored file: its size in bytes and its modification time. */
  datatype StoredFile = StoredFile(size: nat, mtime: int)

  /** The temporary directory after an attempt: the stored file, or the path removed. */
  function AfterAttempt(files: map<string, StoredFile>, path: string, fetched: Result<nat>, now: int): map<string, StoredFile> {
    if fetched.Ok? then files[path := StoredFile(fetched.value, now)] else files - {path}
  }

  /** `int(header)` failing. */
  function InvalidLiteral(header: string): string {
    "invalid literal for int() with base 10: '" + header + "'"
  }

  /**
   * The chunk loop from chunk `k` on, with `total` bytes so far: the final
   * total, or `None` once adding a chunk takes the total over `limit`.
   */
  function Stream(limit: int, chunks: seq<nat>, k: nat, total: nat): Option<nat>
    requires k <= |chunks|
    decreases |chunks| - k
  {
    if k == |chunks| then Some(total)
    else if total + chunks[k] > limit then None
    else Stream(limit, chunks, k + 1, total + chunks[k])
  }

  function Sum(xs: seq<nat>): nat {
    if xs == [] then 0 else Sum(xs[..|xs| - 1]) + xs[|xs| - 1]
  }

  /**
   * What one download attempt gives: the size of the stored file, or the
   * error raised. A size given by `Content-Length` is checked first
   * (`int(header) / 2**20 > max_size_mb`, which is exact for whole numbers
   * of bytes), then the running total of the chunks.
   */
  function Fetch(maxSizeMb: int, resp: Response): Result<nat> {
    match resp
    case Refused(e) => Err(e)
    case Body(cl, chunks, broken) =>
      if cl.Invalid? then Err(InvalidLiteral(cl.header))
      else if cl.Length? && cl.bytes > maxSizeMb * MiB then Err(TooLarge)
      else match Stream(maxSizeMb * MiB, chunks, 0, 0)
        case None => Err(OverLimit)
        case Some(total) => if broken.Some? then Err(broken.value) else Ok(total)
  }

  /** The running total never falls, so the stream is cut exactly when the whole body is over the limit. */
  lemma {:induction false} StreamTotal(limit: int, chunks: seq<nat>, k: nat, total: nat)
    requires k <= |chunks| && total <= limit
    ensures var r := Stream(limit, chunks, k, total);
      && (total + Sum(chunks[k..]) <= limit ==> r == Some(total + Sum(chunks[k..])))
      && (total + Sum(chunks[k..]) > limit ==> r.None?)
    decreases |chunks| - k
  {
    if k < |chunks| {
      SumFront(chunks[k..]);
      assert chunks[k..][1..] == chunks[k + 1..];
      if total + chunks[k] <= limit {
        StreamTotal(limit, chunks, k + 1, total + chunks[k]);
      }
    } else {
      assert chunks[k..] == [];
      assert Sum(chunks[k..]) == 0;
    }
  }

  lemma {:induction false} SumFront(xs: seq<nat>)
    requires xs != []
    ensures Sum(xs) == xs[0] + Sum(xs[1..])
  {
    if |xs| > 1 {
      SumFront(xs[..|xs| - 1]);
      assert xs[..|xs| - 1][1..] == xs[1..][..|xs[1..]| - 1];
    }
  }

  /**
   * A stored download holds every byte of the body and never more than the
   * limit; a body over the limit always fails, even with no `Content-Length`.
   */
  lemma FetchWithinLimit(maxSizeMb: int, resp: Response)
    requires resp.Body? && maxSizeMb >= 0
    ensures Fetch(maxSizeMb, resp).Ok? ==> Fetch(maxSizeMb, resp).value == Sum(resp.chunks) <= maxSizeMb * MiB
    ensures Sum(resp.chunks) > maxSizeMb * MiB ==> Fetch(maxSizeMb, resp).Err?
  {
    assert resp.chunks[0..] == resp.chunks;
    StreamTotal(maxSizeMb * MiB, resp.chunks, 0, 0);
  }

  /** The outcome of one attempt for `retry_async`: every exception is an `Exception`, so every one is caught. */
  function AttemptOutcome(maxSizeMb: int, path: string, resp: Response): Outcome<string> {
    match Fetch(maxSizeMb, resp)
    case Ok(_) => Returns(path)
    case Err(e) => Raises(e, true)
  }

  /** The attempts of `download_pdf`, where `responses(k)` is the server's answer to attempt `k`. */
  function AttemptCall(maxSizeMb: int, path: string, responses: nat -> Response): nat -> Outcome<string> {
    (k: nat) => AttemptOutcome(maxSizeMb, path, responses(k))
  }

  /** `download_pdf` with its decorator. */
  function DownloadRun(maxSizeMb: int, path: string, responses: nat -> Response): Run<string> {
    Retry(DownloadAttempts, DownloadDelay, DownloadBackoff, AttemptCall(maxSizeMb, path, responses))
  }

  /**
   * At most three attempts; a body over the limit is an ordinary failure, so
   * it is retried, and a second attempt that fits succeeds after one sleep of
   * two seconds.
   */
  lemma DownloadRetriesOversize(maxSizeMb: int, path: string, responses: nat -> Response)
    requires Fetch(maxSizeMb, responses(1)) == Err(OverLimit)
    requires Fetch(maxSizeMb, responses(2)).Ok?
    ensures var run := DownloadRun(maxSizeMb, path, responses);
      run.result == Ok(path) && run.calls == 2 && run.sleeps == [DownloadDelay]
  {
  }

  /** Whatever the server does, `download_pdf` makes one to three attempts, sleeping 2 s and then 4 s between them. */
  lemma DownloadAttemptsBounded(maxSizeMb: int, path: string, responses: nat -> Response)
    ensures var run := DownloadRun(maxSizeMb, path, responses);
      && 1 <= run.calls <= DownloadAttempts
      && |run.sleeps| == run.calls - 1
      && (forall k :: 0 <= k < |run.sleeps| ==> run.sleeps[k] == DownloadDelay * Pow(DownloadBackoff, k))
      && (run.result.Ok? ==> run.result.value == path)
  {
    var call := AttemptCall(maxSizeMb, path, responses);
    RetryCallsAndSleeps(DownloadAttempts, DownloadDelay, DownloadBackoff, call);
    RetryOutcome(DownloadAttempts, DownloadDelay, DownloadBackoff, call);
    var run := DownloadRun(maxSizeMb, path, responses);
    assert call(run.calls) == AttemptOutcome(maxSizeMb, path, responses(run.calls));
  }

  // -------------------------------------------------------------- extraction

  /** A PDF reader: the texts of the pages it gets through (`None` for a page without text), then possibly an error. */
  datatype Reader = Reader(pages: seq<Option<string>>, error: Option<string>)

  /** `page.extract_text() or ''`. */
  function PageText(p: Option<string>): string {
    if p.None? then "" else p.value
  }

  function PageTexts(pages: seq<Option<string>>): (r: seq<string>)
    ensures |r| == |pages| && forall i :: 0 <= i < |pages| ==> r[i] == PageText(pages[i])
  {
    seq(|pages|, i requires 0 <= i < |pages| => PageText(pages[i]))
  }

  /**
   * What `_extract_text_sync` returns: the pages the first reader got
   * through, followed by those of the fallback when the first one raised,
   * joined by blank lines and stripped; the fallback's error when it raises
   * too.
   */
  function Extracted(primary: Reader, fallback: Reader): Result<string> {
    if primary.error.None? then Ok(Strip(Join(PageTexts(primary.pages), "\n\n")))
    else if fallback.error.Some? then Err(fallback.error.value)
    else Ok(Strip(Join(PageTexts(primary.pages) + PageTexts(fallback.pages), "\n\n")))
  }

  /**
   * The extracted text has no whitespace at either end and loses no other
   * character of the pages it keeps; the fallback reads only after the first
   * reader failed, and what the first one collected is kept.
   */
  lemma ExtractedKeepsPages(primary: Reader, fallback: Reader)
    requires Extracted(primary, fallback).Ok?
    ensures var t := Extracted(primary, fallback).value;
      var kept := PageTexts(primary.pages) + (if primary.error.Some? then PageTexts(fallback.pages) else []);
      && NonSpace(t) == NonSpace(Concat(kept))
      && (t == "" || (!IsSpace(t[0]) && !IsSpace(t[|t| - 1])))
  {
    var kept := PageTexts(primary.pages) + (if primary.error.Some? then PageTexts(fallback.pages) else []);
    assert primary.error.None? ==> kept == PageTexts(primary.pages);
    var joined := Join(kept, "\n\n");
    assert Extracted(primary, fallback).value == Strip(joined);
    NonSpaceStrip(joined);
    NonSpaceJoin(kept, "\n\n");
    StripEnds(joined);
  }

  /** `_extract_text_sync(pdf_path)` with the two readers' behaviour on the file. */
  method ExtractTextSync(primary: Reader, fallback: Reader) returns (r: Result<string>)
    ensures r == Extracted(primary, fallback)
  {
    var parts: seq<string> := [];
    var i := 0;
    while i < |primary.pages|
      invariant 0 <= i <= |primary.pages|
      invariant parts == PageTexts(primary.pages)[..i]
    {
      parts := parts + [PageText(primary.pages[i])];
      i := i + 1;
    }
    assert parts == PageTexts(primary.pages);
    if primary.error.Some? {
      var j := 0;
      while j < |fallback.pages|
        invariant 0 <= j <= |fallback.pages|
        invariant parts == PageTexts(primary.pages) + PageTexts(fallback.pages)[..j]
      {
        parts := parts + [PageText(fallback.pages[j])];
        j := j + 1;
      }
      assert PageTexts(fallback.pages)[..j] == PageTexts(fallback.pages);
      if fallback.error.Some? {
        return Err(fallback.error.value);
      }
    }
    r := Ok(Strip(Join(parts, "\n\n")));
  }

  /** `str(file_path)` of a missing file. */
  function NotFound(path: string): string {
    "PDF not found: " + path
  }

  // ------------------------------------------------------------- clean-up

  /** Whether the sweep reaches `path`'s file and finds it older than the cutoff. */
  predicate Stale(files: map<string, StoredFile>, path: string, cutoff: int) {
    path in files && files[path].mtime < cutoff
  }

  /**
   * The sweep of `cleanup_old_files` from the `k`-th listed file on: how many
   * it deletes and the files left. A file in `failing` makes its `stat` or
   * `unlink` raise, and so does a listed path that is no longer there (its
   * `stat` raises `FileNotFoundError`); either ends the sweep.
   */
  function Sweep(files: map<string, StoredFile>, listing: seq<string>, k: nat, cutoff: int, failing: set<string>): (nat, map<string, StoredFile>)
    requires k <= |listing|
    decreases |listing| - k
  {
    if k == |listing| || listing[k] in failing || listing[k] !in files then (0, files)
    else if Stale(files, listing[k], cutoff) then
      var rest := Sweep(files - {listing[k]}, listing, k + 1, cutoff, failing);
      (rest.0 + 1, rest.1)
    else Sweep(files, listing, k + 1, cutoff, failing)
  }

  /** How many of the listed files from the `k`-th on are older than the cutoff. */
  function CountStale(files: map<string, StoredFile>, listing: seq<string>, k: nat, cutoff: int): nat
    requires k <= |listing|
    decreases |listing| - k
  {
    if k == |listing| then 0
    else (if Stale(files, listing[k], cutoff) then 1 else 0) + CountStale(files, listing, k + 1, cutoff)
  }

  /**
   * With no failure and every listed path present, the sweep deletes exactly the listed files older than
   * the cutoff, keeps every other file, and returns how many it deleted.
   */
  lemma {:induction false} SweepDeletesStale(files: map<string, StoredFile>, listing: seq<string>, k: nat, cutoff: int, failing: set<string>)
    requires k <= |listing|
    requires forall i, j :: k <= i < j < |listing| ==> listing[i] != listing[j]
    requires forall i :: k <= i < |listing| ==> listing[i] !in failing && listing[i] in files
    ensures var (n, left) := Sweep(files, listing, k, cutoff, failing);
      && n == CountStale(files, listing, k, cutoff)
      && (forall p :: p in left <==> p in files && !(p in listing[k..] && files[p].mtime < cutoff))
      && (forall p :: p in left ==> p in files && left[p] == files[p])
    decreases |listing| - k
  {
    if k < |listing| {
      var p := listing[k];
      var fs := if Stale(files, p, cutoff) then files - {p} else files;
      SweepDeletesStale(fs, listing, k + 1, cutoff, failing);
      CountStaleFrame(files, fs, listing, k + 1, cutoff);
      assert listing[k..] == [p] + listing[k + 1..];
    }
  }

  /** Removing a file not listed from `k` on does not change the count. */
  lemma {:induction false} CountStaleFrame(files: map<string, StoredFile>, fs: map<string, StoredFile>, listing: seq<string>, k: nat, cutoff: int)
    requires k <= |listing|
    requires forall p :: p in listing[k..] ==> (p in fs <==> p in files) && (p in fs ==> fs[p] == files[p])
    ensures CountStale(fs, listing, k, cutoff) == CountStale(files, listing, k, cutoff)
    decreases |listing| - k
  {
    if k < |listing| {
      assert listing[k] in listing[k..];
      assert forall p :: p in listing[k + 1..] ==> p in listing[k..] by {
        forall p | p in listing[k + 1..] ensures p in listing[k..] {
          var i :| 0 <= i < |listing[k + 1..]| && listing[k + 1..][i] == p;
          assert listing[k..][i + 1] == p;
        }
      }
      CountStaleFrame(files, fs, listing, k + 1, cutoff);
    }
  }

  /**
   * Whatever fails, the sweep deletes only listed files older than the
   * cutoff, leaves every other file as it was, and deletes at most one file
   * per listed path.
   */
  lemma {:induction false} SweepOnlyStale(files: map<string, StoredFile>, listing: seq<string>, k: nat, cutoff: int, failing: set<string>)
    requires k <= |listing|
    ensures var (n, left) := Sweep(files, listing, k, cutoff, failing);
      && n <= |listing| - k
      && (forall p :: p in left ==> p in files && left[p] == files[p])
      && (forall p :: p in files && p !in left ==> p in listing[k..] && files[p].mtime < cutoff)
    decreases |listing| - k
  {
    if k < |listing| && listing[k] !in failing && listing[k] in files {
      var p := listing[k];
      var fs := if Stale(files, p, cutoff) then files - {p} else files;
      SweepOnlyStale(fs, listing, k + 1, cutoff, failing);
      assert listing[k..] == [p] + listing[k + 1..];
    }
  }

  /**
   * `PDFService`: its temporary directory and size limit, and the files
   * currently in that directory.
   */
  class PdfService {
    const tempDir: string
    const maxSizeMb: int
    var files: map<string, StoredFile>

    constructor(tempDir: string, maxSizeMb: int, files: map<string, StoredFile>)
      ensures this.tempDir == tempDir && this.maxSizeMb == maxSizeMb && this.files == files
    {
      this.tempDir := tempDir;
      this.maxSizeMb := maxSizeMb;
      this.files := files;
    }

    /**
     * One attempt of `download_pdf(url, filename)` at time `now`: the path
     * of the stored file, holding the whole body; on any failure the path
     * is removed, whatever was there before. No other file changes.
     */
    method DownloadAttempt(url: string, filename: Option<string>, resp: Response, now: int) returns (r: Result<string>)
      modifies this
      ensures var path := TempPath(tempDir, DownloadName(url, filename));
        && r == (if Fetch(maxSizeMb, resp).Ok? then Ok(path) else Err(Fetch(maxSizeMb, resp).error))
        && files == AfterAttempt(old(files), path, Fetch(maxSizeMb, resp), now)
    {
      var path := TempPath(tempDir, DownloadName(url, filename));
      var stored := Store(path, resp, now);
      r := if stored.Ok? then Ok(path) else Err(stored.error);
    }

    /** The body of one attempt, once the path is known: the size stored at `path`, or the error raised. */
    method Store(path: string, resp: Response, now: int) returns (r: Result<nat>)
      modifies this
      ensures r == Fetch(maxSizeMb, resp)
      ensures files == AfterAttempt(old(files), path, r, now)
    {
      if resp.Refused? {
        files := files - {path};
        return Err(resp.error);
      }
      if resp.contentLength.Invalid? {
        files := files - {path};
        return Err(InvalidLiteral(resp.contentLength.header));
      }
      if resp.contentLength.Length? && resp.contentLength.bytes > maxSizeMb * MiB {
        files := files - {path};
        return Err(TooLarge);
      }
      var total := WriteBody(path, resp.chunks, now);
      if total.None? {
        return Err(OverLimit);
      }
      if resp.broken.Some? {
        files := files - {path};
        return Err(resp.broken.value);
      }
      r := Ok(total.value);
    }

    /**
     * The chunk loop: opens `path` afresh and appends each chunk, checking
     * the running total against the limit before the write; over the limit,
     * the file is removed. A file never holds more than the limit.
     */
    method WriteBody(path: string, chunks: seq<nat>, now: int) returns (total: Option<nat>)
      modifies this
      ensures total == Stream(maxSizeMb * MiB, chunks, 0, 0)
      ensures files == if total.Some? then old(files)[path := StoredFile(total.value, now)] else old(files) - {path}
      ensures total.Some? && chunks != [] ==> total.value <= maxSizeMb * MiB
    {
      var limit := maxSizeMb * MiB;
      files := files[path := StoredFile(0, now)];
      var written: nat := 0;
      var k := 0;
      while k < |chunks|
        invariant 0 <= k <= |chunks|
        invariant k > 0 ==> written <= limit
        invariant Stream(limit, chunks, 0, 0) == Stream(limit, chunks, k, written)
        invariant files == old(files)[path := StoredFile(written, now)]
      {
        assert Stream(limit, chunks, k, written) == if written + chunks[k] > limit then None else Stream(limit, chunks, k + 1, written + chunks[k]);
        written := written + chunks[k];
        if written > limit {
          files := files - {path};
          return None;
        }
        files := files[path := StoredFile(written, now)];
        k := k + 1;
      }
      total := Some(written);
    }

    /** `extract_text(pdf_path)`: `FileNotFoundError` for a missing file, else the extraction. */
    method ExtractText(path: string, primary: Reader, fallback: Reader) returns (r: Result<string>)
      ensures path !in files ==> r == Err(NotFound(path))
      ensures path in files ==> r == Extracted(primary, fallback)
    {
      if path !in files {
        return Err(NotFound(path));
      }
      r := ExtractTextSync(primary, fallback);
    }

    /** `cleanup_file(file_path)`: removes the file if it is there; a failing `unlink` is logged, never raised. */
    method CleanupFile(path: string, unlinkRaises: bool)
      modifies this
      ensures files == if unlinkRaises then old(files) else old(files) - {path}
    {
      if path in files && !unlinkRaises {
        files := files - {path};
      }
    }

    /**
     * `cleanup_old_files(max_age_hours)` at time `now`, where `listing` is
     * what the `*.pdf` glob yields: the sweep's count, and its files left.
     */
    method CleanupOldFiles(maxAgeHours: int, now: int, listing: seq<string>, failing: set<string>) returns (deleted: nat)
      modifies this
      ensures (deleted, files) == Sweep(old(files), listing, 0, now - maxAgeHours * 3600, failing)
    {
      var cutoff := now - maxAgeHours * 3600;
      deleted := 0;
      var k := 0;
      while k < |listing|
        invariant 0 <= k <= |listing|
        invariant var rest := Sweep(files, listing, k, cutoff, failing);
          Sweep(old(files), listing, 0, cutoff, failing) == (deleted + rest.0, rest.1)
      {
        var p := listing[k];
        if p in failing || p !in files {
          break;
        }
        if files[p].mtime < cutoff {
          files := files - {p};
          deleted := deleted + 1;
        }
        k := k + 1;
      }
    }
  }
}
