/**
 * `TranslatorPipeline` of `pipelines/translator.py`: Chinese text is
 * translated to English chunk by chunk and forwarded with a short preview of
 * the original; anything else is forwarded as it is.
 *
 * The translation service is a function from the text sent to what it
 * returns or the error it raises; the client's failure to send is an input.
 */
module Translator {
  import opened Wrappers
  import opened PyStr
  import opened Helpers
  import opened PipelineBase

  /** The default `max_chunk_size` of `_translate_text`. */
  const MaxChunkSize := 5000
  /** How much of the original the forwarded message quotes. */
  const PreviewLength := 200
  /** The pause after each translated chunk, in seconds. */
  const ChunkPause: real := 0.5

  // ------------------------------------------------------------- _extract_text

  /** `_extract_text(message)`: `.text`, else `.message`, stripped; `None` when both are empty. */
  function ExtractText(m: Incoming): Option<string> {
    if m.text != "" then Some(Strip(m.text))
    else if m.raw != "" then Some(Strip(m.raw))
    else None
  }

  /**
   * `.text` wins over `.message`; the text comes back with no whitespace at
   * either end and nothing else removed; only a message with neither gives
   * `None`.
   */
  lemma ExtractTextChoice(m: Incoming)
    ensures ExtractText(m).None? <==> m.text == "" && m.raw == ""
    ensures ExtractText(m).Some? ==>
      var t := ExtractText(m).value;
      && NonSpace(t) == NonSpace(if m.text != "" then m.text else m.raw)
      && (t == "" || (!IsSpace(t[0]) && !IsSpace(t[|t| - 1])))
  {
    if m.text != "" {
      NonSpaceStrip(m.text);
      StripEnds(m.text);
    } else if m.raw != "" {
      NonSpaceStrip(m.raw);
      StripEnds(m.raw);
    }
  }

  // ------------------------------------------------------- _split_into_chunks

  /** `chunks` and `current_chunk` of `_split_into_chunks`. */
  datatype Chunking = Chunking(chunks: seq<string>, cur: string)

  /** One pass of the loop over the lines. */
  function ChunkStep(acc: Chunking, para: string, maxSize: int): Chunking {
    if |acc.cur| + |para| + 1 <= maxSize then Chunking(acc.chunks, acc.cur + para + "\n")
    else Chunking(if acc.cur != "" then acc.chunks + [Strip(acc.cur)] else acc.chunks, para + "\n")
  }

  function FoldChunks(acc: Chunking, paras: seq<string>, maxSize: int): Chunking {
    if paras == [] then acc
    else ChunkStep(FoldChunks(acc, paras[..|paras| - 1], maxSize), paras[|paras| - 1], maxSize)
  }

  function CloseChunks(acc: Chunking): seq<string> {
    if acc.cur != "" then acc.chunks + [Strip(acc.cur)] else acc.chunks
  }

  /** What `_split_into_chunks(text, max_size)` returns. */
  function Chunks(text: string, maxSize: int): seq<string> {
    if |text| <= maxSize then [text]
    else CloseChunks(FoldChunks(Chunking([], ""), Split(text, "\n"), maxSize))
  }

  /** `_split_into_chunks(text, max_size)`. */
  method SplitIntoChunks(text: string, maxSize: int) returns (chunks: seq<string>)
    ensures chunks == Chunks(text, maxSize)
  {
    if |text| <= maxSize {
      return [text];
    }
    chunks := [];
    var currentChunk := "";
    var paragraphs := Split(text, "\n");
    for k := 0 to |paragraphs|
      invariant Chunking(chunks, currentChunk) == FoldChunks(Chunking([], ""), paragraphs[..k], maxSize)
    {
      var para := paragraphs[k];
      assert paragraphs[..k + 1][..k] == paragraphs[..k];
      if |currentChunk| + |para| + 1 <= maxSize {
        currentChunk := currentChunk + para + "\n";
      } else {
        if currentChunk != "" {
          chunks := chunks + [Strip(currentChunk)];
        }
        currentChunk := para + "\n";
      }
    }
    assert paragraphs[..|paragraphs|] == paragraphs;
    if currentChunk != "" {
      chunks := chunks + [Strip(currentChunk)];
    }
  }

  /** A chunk fits, or is a single line of the input that is too long by itself. */
  predicate FitsOrLine(x: string, lines: seq<string>, maxSize: int) {
    |x| <= maxSize || exists l :: l in lines && x == l + "\n"
  }

  predicate Stripped(x: string) {
    x == "" || (!IsSpace(x[0]) && !IsSpace(x[|x| - 1]))
  }

  /** A finished chunk fits, or is a single over-long line of the input, stripped. */
  predicate ChunkFits(c: string, lines: seq<string>, maxSize: int) {
    |c| <= maxSize || exists l :: l in lines && c == Strip(l + "\n")
  }

  predicate GoodChunking(acc: Chunking, lines: seq<string>, maxSize: int) {
    && (forall c :: c in acc.chunks ==> Stripped(c) && ChunkFits(c, lines, maxSize))
    && (acc.cur == "" || FitsOrLine(acc.cur, lines, maxSize))
  }

  lemma ChunkStepGood(acc: Chunking, para: string, lines: seq<string>, maxSize: int)
    requires GoodChunking(acc, lines, maxSize) && para in lines
    ensures GoodChunking(ChunkStep(acc, para, maxSize), lines, maxSize)
  {
    if |acc.cur| + |para| + 1 > maxSize {
      assert FitsOrLine(para + "\n", lines, maxSize);
      if acc.cur != "" {
        ClosedChunkFits(acc.cur, lines, maxSize);
      }
    }
  }

  /** Stripping a chunk that fits, or is one line, gives a chunk that fits or is one stripped line. */
  lemma ClosedChunkFits(cur: string, lines: seq<string>, maxSize: int)
    requires FitsOrLine(cur, lines, maxSize)
    ensures Stripped(Strip(cur)) && ChunkFits(Strip(cur), lines, maxSize)
  {
    StripEnds(cur);
    if |cur| > maxSize {
      var l :| l in lines && cur == l + "\n";
      assert Strip(cur) == Strip(l + "\n");
    }
  }

  lemma {:induction false} FoldChunksGood(ps: seq<string>, lines: seq<string>, maxSize: int)
    requires forall p :: p in ps ==> p in lines
    ensures GoodChunking(FoldChunks(Chunking([], ""), ps, maxSize), lines, maxSize)
  {
    if ps != [] {
      var init, para := ps[..|ps| - 1], ps[|ps| - 1];
      assert forall p :: p in init ==> p in ps;
      FoldChunksGood(init, lines, maxSize);
      ChunkStepGood(FoldChunks(Chunking([], ""), init, maxSize), para, lines, maxSize);
    }
  }
  /**
   * Every chunk fits in `max_size`, unless it is one line of the input that
   * is too long by itself; the chunks of a text that needed splitting have no
   * whitespace at either end.
   */
  lemma ChunksFit(text: string, maxSize: int)
    ensures forall c :: c in Chunks(text, maxSize) ==> ChunkFits(c, Split(text, "\n"), maxSize)
    ensures |text| > maxSize ==> forall c :: c in Chunks(text, maxSize) ==> Stripped(c)
  {
    if |text| > maxSize {
      var lines := Split(text, "\n");
      FoldChunksGood(lines, lines, maxSize);
      var acc := FoldChunks(Chunking([], ""), lines, maxSize);
      if acc.cur != "" {
        ClosedChunkFits(acc.cur, lines, maxSize);
      }
    }
  }

  /** A text of at most `max_size` characters is its own single chunk. */
  lemma ShortTextOneChunk(text: string, maxSize: int)
    requires |text| <= maxSize
    ensures Chunks(text, maxSize) == [text]
  {
  }

  /** Each line followed by a line break, as the chunks accumulate them. */
  function Lined(lines: seq<string>): (r: seq<string>)
    ensures |r| == |lines|
  {
    seq(|lines|, i requires 0 <= i < |lines| => lines[i] + "\n")
  }

  /** What the chunks hold before stripping: the processed lines, each with its line break. */
  function Held(acc: Chunking): string {
    Concat(acc.chunks) + acc.cur
  }

  lemma {:induction false} FoldChunksKeepText(ps: seq<string>, maxSize: int)
    ensures NonSpace(Held(FoldChunks(Chunking([], ""), ps, maxSize))) == NonSpace(Concat(Lined(ps)))
  {
    if ps == [] {
      assert Held(Chunking([], "")) == "";
    } else {
      var init, para := ps[..|ps| - 1], ps[|ps| - 1];
      FoldChunksKeepText(init, maxSize);
      var acc := FoldChunks(Chunking([], ""), init, maxSize);
      assert Lined(ps) == Lined(init) + [para + "\n"];
      ConcatAppend(Lined(init), para + "\n");
      NonSpaceAppend(Concat(Lined(init)), para + "\n");
      ChunkStepKeepsText(acc, para, maxSize);
    }
  }

  lemma ChunkStepKeepsText(acc: Chunking, para: string, maxSize: int)
    ensures NonSpace(Held(ChunkStep(acc, para, maxSize))) == NonSpace(Held(acc)) + NonSpace(para + "\n")
  {
    if |acc.cur| + |para| + 1 <= maxSize {
      ChunkGrowsKeepsText(acc, para);
    } else if acc.cur != "" {
      ChunkClosesKeepsText(acc, para);
    } else {
      ChunkStartsKeepsText(acc, para);
    }
  }

  lemma ChunkGrowsKeepsText(acc: Chunking, para: string)
    ensures NonSpace(Held(Chunking(acc.chunks, acc.cur + para + "\n"))) == NonSpace(Held(acc)) + NonSpace(para + "\n")
  {
    assert Held(Chunking(acc.chunks, acc.cur + para + "\n")) == Held(acc) + (para + "\n");
    NonSpaceAppend(Held(acc), para + "\n");
  }

  lemma ChunkClosesKeepsText(acc: Chunking, para: string)
    requires acc.cur != ""
    ensures NonSpace(Held(Chunking(acc.chunks + [Strip(acc.cur)], para + "\n"))) == NonSpace(Held(acc)) + NonSpace(para + "\n")
  {
    var c := Concat(acc.chunks);
    ConcatAppend(acc.chunks, Strip(acc.cur));
    assert Held(Chunking(acc.chunks + [Strip(acc.cur)], para + "\n")) == (c + Strip(acc.cur)) + (para + "\n");
    NonSpaceAppend(c + Strip(acc.cur), para + "\n");
    NonSpaceAppend(c, Strip(acc.cur));
    NonSpaceStrip(acc.cur);
    NonSpaceAppend(c, acc.cur);
  }

  lemma ChunkStartsKeepsText(acc: Chunking, para: string)
    requires acc.cur == ""
    ensures NonSpace(Held(Chunking(acc.chunks, para + "\n"))) == NonSpace(Held(acc)) + NonSpace(para + "\n")
  {
    assert Held(acc) == Concat(acc.chunks);
    NonSpaceAppend(Concat(acc.chunks), para + "\n");
  }

  /** The lines, each with a line break, are the lines joined by line breaks plus one final break. */
  lemma {:induction false} LinedIsJoin(lines: seq<string>)
    requires lines != []
    ensures Concat(Lined(lines)) == Join(lines, "\n") + "\n"
  {
    if |lines| == 1 {
      ConcatSingle(Lined(lines));
    } else {
      LinedIsJoin(lines[1..]);
      assert Lined(lines) == [lines[0] + "\n"] + Lined(lines[1..]);
      assert Lined(lines)[1..] == Lined(lines[1..]);
    }
  }

  /** Splitting drops only whitespace: every other character of the text survives, in order. */
  lemma ChunksKeepText(text: string, maxSize: int)
    ensures NonSpace(Concat(Chunks(text, maxSize))) == NonSpace(text)
  {
    if |text| <= maxSize {
      ConcatSingle([text]);
    } else {
      var lines := Split(text, "\n");
      var acc := FoldChunks(Chunking([], ""), lines, maxSize);
      FoldChunksKeepText(lines, maxSize);
      assert acc.cur != "";
      calc {
        NonSpace(Concat(Chunks(text, maxSize)));
        NonSpace(Concat(acc.chunks + [Strip(acc.cur)]));
        { ConcatAppend(acc.chunks, Strip(acc.cur)); }
        NonSpace(Concat(acc.chunks) + Strip(acc.cur));
        { NonSpaceAppend(Concat(acc.chunks), Strip(acc.cur)); NonSpaceStrip(acc.cur);
          NonSpaceAppend(Concat(acc.chunks), acc.cur); }
        NonSpace(Held(acc));
        NonSpace(Concat(Lined(lines)));
        { LinedIsJoin(lines); JoinSplit(text, "\n"); }
        NonSpace(text + "\n");
        { NonSpaceAppend(text, "\n"); }
        NonSpace(text) + NonSpace("\n");
        { assert NonSpace("\n") == ""; }
        NonSpace(text);
      }
    }
  }

  // ------------------------------------------------------------ _translate_text

  /** The translations so far, or `None` once a chunk failed, and the pauses taken. */
  datatype Progress = Progress(done: Option<seq<string>>, pauses: seq<real>)

  /** The chunk loop of `_translate_text` over the first `k` chunks. */
  function TranslateUpTo(chunks: seq<string>, k: nat, translate: string -> Result<string>): Progress
    requires k <= |chunks|
  {
    if k == 0 then Progress(Some([]), [])
    else
      var p := TranslateUpTo(chunks, k - 1, translate);
      if p.done.None? then p
      else match translate(chunks[k - 1])
        case Err(_) => Progress(None, p.pauses)
        case Ok(s) => Progress(Some(p.done.value + [s]), p.pauses + [ChunkPause])
  }

  /** What `_translate_text(text)` returns (`None` for a caught error), and the pauses it takes. */
  datatype Translation = Translation(text: Option<string>, pauses: seq<real>)

  function Translated(text: string, translate: string -> Result<string>): Translation {
    if |text| <= MaxChunkSize then
      Translation(if translate(text).Ok? then Some(translate(text).value) else None, [])
    else
      var chunks := Chunks(text, MaxChunkSize);
      var p := TranslateUpTo(chunks, |chunks|, translate);
      Translation(if p.done.Some? then Some(Join(p.done.value, "\n\n")) else None, p.pauses)
  }

  /** The body of `_translate_text(text)`. */
  method TranslateText(text: string, translate: string -> Result<string>) returns (t: Translation)
    ensures t == Translated(text, translate)
  {
    if |text| <= MaxChunkSize {
      var translated := translate(text);
      if translated.Err? {
        return Translation(None, []);
      }
      return Translation(Some(translated.value), []);
    }
    var chunks := SplitIntoChunks(text, MaxChunkSize);
    var translatedChunks := [];
    var pauses := [];
    for i := 0 to |chunks|
      invariant TranslateUpTo(chunks, i, translate) == Progress(Some(translatedChunks), pauses)
    {
      var translatedChunk := translate(chunks[i]);
      if translatedChunk.Err? {
        FailureSticks(chunks, i + 1, |chunks|, translate);
        return Translation(None, pauses);
      }
      translatedChunks := translatedChunks + [translatedChunk.value];
      pauses := pauses + [ChunkPause];
    }
    t := Translation(Some(Join(translatedChunks, "\n\n")), pauses);
  }

  /** Once a chunk has failed, nothing further happens. */
  lemma {:induction false} FailureSticks(chunks: seq<string>, k: nat, m: nat, translate: string -> Result<string>)
    requires k <= m <= |chunks|
    requires TranslateUpTo(chunks, k, translate).done.None?
    ensures TranslateUpTo(chunks, m, translate) == TranslateUpTo(chunks, k, translate)
    decreases m - k
  {
    if k < m {
      FailureSticks(chunks, k, m - 1, translate);
    }
  }

  /**
   * After `k` chunks: either every one of them was translated, in order, with
   * a half-second pause after each; or the first failing chunk is the one
   * after the pauses taken, and nothing after it is tried.
   */
  lemma {:induction false} TranslateUpToOutcome(chunks: seq<string>, k: nat, translate: string -> Result<string>)
    requires k <= |chunks|
    ensures var p := TranslateUpTo(chunks, k, translate);
      && (forall i :: 0 <= i < |p.pauses| ==> p.pauses[i] == ChunkPause)
      && (p.done.Some? <==> forall j :: 0 <= j < k ==> translate(chunks[j]).Ok?)
      && (p.done.Some? ==>
            && |p.done.value| == k == |p.pauses|
            && forall j :: 0 <= j < k ==> p.done.value[j] == translate(chunks[j]).value)
      && (p.done.None? ==>
            && |p.pauses| < k
            && translate(chunks[|p.pauses|]).Err?
            && forall j :: 0 <= j < |p.pauses| ==> translate(chunks[j]).Ok?)
  {
    if k > 0 {
      TranslateUpToOutcome(chunks, k - 1, translate);
    }
  }

  /**
   * A long text is translated chunk by chunk: the result is the translations
   * joined by blank lines when every chunk succeeds, and `None` as soon as
   * one fails; a half-second pause follows every chunk translated.
   */
  lemma TranslatedLong(text: string, translate: string -> Result<string>)
    requires |text| > MaxChunkSize
    ensures var chunks := Chunks(text, MaxChunkSize);
      var t := Translated(text, translate);
      && (t.text.Some? <==> forall j :: 0 <= j < |chunks| ==> translate(chunks[j]).Ok?)
      && (t.text.Some? ==> |t.pauses| == |chunks|)
      && (t.text.Some? ==>
            t.text.value == Join(seq(|chunks|, j requires 0 <= j < |chunks| && translate(chunks[j]).Ok? => translate(chunks[j]).value), "\n\n"))
      && (t.text.None? ==> |t.pauses| < |chunks| && translate(chunks[|t.pauses|]).Err?)
      && forall i :: 0 <= i < |t.pauses| ==> t.pauses[i] == ChunkPause
  {
    var chunks := Chunks(text, MaxChunkSize);
    TranslateUpToOutcome(chunks, |chunks|, translate);
    var p := TranslateUpTo(chunks, |chunks|, translate);
    if p.done.Some? {
      assert p.done.value == seq(|chunks|, j requires 0 <= j < |chunks| && translate(chunks[j]).Ok? => translate(chunks[j]).value);
    }
  }

  /**
   * `_translate_text` catches every exception itself, so the
   * `retry_async(max_attempts=3, delay=1.0, backoff=2.0)` around it calls it
   * exactly once and never sleeps.
   */
  lemma TranslateNeverRetried(text: string, translate: string -> Result<string>)
    ensures var r := Retry(3, 1.0, 2.0, (_: nat) => Returns(Translated(text, translate)));
      r.calls == 1 && r.sleeps == [] && r.result == Ok(Translated(text, translate))
  {
    var call := (_: nat) => Returns(Translated(text, translate));
    RetryOutcome(3, 1.0, 2.0, call);
    RetryCallsAndSleeps(3, 1.0, 2.0, call);
  }

  // ------------------------------------------------------------------- output

  /** `original[:200] + "..." if len(original) > 200 else original`. */
  function Preview(original: string): (r: string)
    ensures |original| <= PreviewLength ==> r == original
    ensures |original| > PreviewLength ==> |r| == PreviewLength + 3 && EndsWith(r, "...") && StartsWith(original, r[..PreviewLength])
  {
    if |original| > PreviewLength then
      var r := original[..PreviewLength] + "...";
      assert r[..PreviewLength] == original[..PreviewLength];
      r
    else original
  }

  /** The heading line of everything the translator forwards. */
  function SourceHeading(source: string): string {
    "**\U{1F4F0} " + source + "**\n\n"
  }

  /** `_format_translation_result(source, original, translated)`. */
  function FormatTranslationResult(source: string, original: string, translated: string): (r: string)
    ensures StartsWith(r, SourceHeading(source) + translated)
    ensures EndsWith(r, "_Original (CN):_ " + Preview(original) + "\n")
  {
    var head := SourceHeading(source) + translated;
    var tail := "_Original (CN):_ " + Preview(original) + "\n";
    var r := head + "\n\n---\n" + tail;
    assert r[..|head|] == head;
    assert r[|r| - |tail|..] == tail;
    r
  }

  /** The text `_forward_original(message, text)` sends. */
  function OriginalText(source: string, text: string): string {
    SourceHeading(source) + text
  }

  // ------------------------------------------------------------------ process

  /** What `process(message)` does: the pauses, the request it sends (if any), and its result. */
  datatype TranslatorRun = TranslatorRun(pauses: seq<real>, request: Option<Request>, result: bool)

  function Forward(target: string, text: string, pauses: seq<real>, sendRaises: bool): TranslatorRun {
    var f := ForwardToTarget(target, text, "", Markdown, sendRaises);
    TranslatorRun(pauses, Some(f.request), f.ok)
  }

  function TranslatorOutcome(m: Incoming, target: string, translate: string -> Result<string>, sendRaises: bool): TranslatorRun {
    var text := ExtractText(m);
    if text.None? || text.value == "" then TranslatorRun([], None, false)
    else if !DetectChinese(text.value) then Forward(target, OriginalText(SourceInfo(m), text.value), [], sendRaises)
    else
      var t := Translated(text.value, translate);
      if t.text.None? || t.text.value == "" then Forward(target, OriginalText(SourceInfo(m), text.value), t.pauses, sendRaises)
      else Forward(target, FormatTranslationResult(SourceInfo(m), text.value, t.text.value), t.pauses, sendRaises)
  }

  /** `TranslatorPipeline.process(message)`, forwarding to `target`. */
  method Process(m: Incoming, target: string, translate: string -> Result<string>, sendRaises: bool)
    returns (run: TranslatorRun)
    ensures run == TranslatorOutcome(m, target, translate, sendRaises)
  {
    var text := ExtractText(m);
    if text.None? || text.value == "" {
      return TranslatorRun([], None, false);
    }
    if !DetectChinese(text.value) {
      return Forward(target, OriginalText(SourceInfo(m), text.value), [], sendRaises);
    }
    var translated := TranslateText(text.value, translate);
    if translated.text.None? || translated.text.value == "" {
      return Forward(target, OriginalText(SourceInfo(m), text.value), translated.pauses, sendRaises);
    }
    var source := SourceInfo(m);
    var formatted := FormatTranslationResult(source, text.value, translated.text.value);
    run := Forward(target, formatted, translated.pauses, sendRaises);
  }

  /**
   * At most one message is sent, always as a Markdown message without a file to the output channel;
   * the result is true exactly when it was sent without error. A message
   * with no text sends nothing.
   */
  lemma ProcessResult(m: Incoming, target: string, translate: string -> Result<string>, sendRaises: bool)
    ensures var run := TranslatorOutcome(m, target, translate, sendRaises);
      && (run.result <==> run.request.Some? && !sendRaises)
      && (run.request.Some? ==> run.request.value.SendMessage? && run.request.value.target == target
                                && run.request.value.parseMode == Markdown)
      && (run.request.None? <==> ExtractText(m).None? || ExtractText(m).value == "")
  {
  }

  /**
   * Text without Chinese, or whose translation fails or comes back empty, is
   * forwarded as it is under the source heading; otherwise the translation
   * is sent first and the original quoted after it.
   */
  lemma ProcessForwardsOriginal(m: Incoming, target: string, translate: string -> Result<string>, sendRaises: bool)
    requires ExtractText(m).Some? && ExtractText(m).value != ""
    ensures var text := ExtractText(m).value;
      var t := Translated(text, translate);
      var run := TranslatorOutcome(m, target, translate, sendRaises);
      var untranslated := !DetectChinese(text) || t.text.None? || t.text.value == "";
      && (untranslated ==> run.request.value.text == SourceHeading(SourceInfo(m)) + text)
      && (!untranslated ==>
            && StartsWith(run.request.value.text, SourceHeading(SourceInfo(m)) + t.text.value)
            && EndsWith(run.request.value.text, "_Original (CN):_ " + Preview(text) + "\n"))
  {
  }
}
