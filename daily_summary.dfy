/**
 * `DailySummaryService` of `services/daily_summary_service.py`: collecting the
 * last day's messages of a channel, numbering them for the summariser, the
 * summary header, the no-activity notice, and `_send_long_message`, which cuts
 * a summary longer than 4000 characters into parts at blank lines, then at
 * line breaks, and sends them with `📄 Part i/N` headers and one-second pauses.
 *
 * The Telegram client is replaced by the list of actions a call performs
 * (`Send`, `Sleep`); the message history, the clock and the summariser's reply
 * are parameters.
 */
module DailySummary {
  import opened Wrappers
  import opened PyStr

  /** What the service does to the output channel, in order. */
  datatype Action = Send(text: string) | Sleep(seconds: int)

  /** `MAX_LENGTH` of `_send_long_message`. */
  const MaxLength := 4000
  /** Telegram's own limit, used for the header check. */
  const TelegramLimit := 4096

  // ------------------------------------------------------- splitting into parts

  /** `parts` and `current_part` of `_send_long_message`. */
  datatype Acc = Acc(parts: seq<string>, cur: string)

  /** One pass of the inner loop over the lines of an over-long paragraph. */
  function LineStep(acc: Acc, line: string): Acc {
    if |acc.cur| + |line| + 1 > MaxLength then
      if acc.cur != "" then Acc(acc.parts + [acc.cur], line) else Acc(acc.parts, line)
    else
      Acc(acc.parts, if acc.cur != "" then acc.cur + "\n" + line else line)
  }

  function FoldLines(acc: Acc, lines: seq<string>): Acc {
    if lines == [] then acc else LineStep(FoldLines(acc, lines[..|lines| - 1]), lines[|lines| - 1])
  }

  /** One pass of the outer loop over the paragraphs. */
  function ParaStep(acc: Acc, para: string): Acc {
    if |acc.cur| + |para| + 2 > MaxLength then
      if acc.cur != "" then Acc(acc.parts + [acc.cur], para)
      else FoldLines(acc, Split(para, "\n"))
    else
      Acc(acc.parts, if acc.cur != "" then acc.cur + "\n\n" + para else para)
  }

  function FoldParas(acc: Acc, paras: seq<string>): Acc {
    if paras == [] then acc else ParaStep(FoldParas(acc, paras[..|paras| - 1]), paras[|paras| - 1])
  }

  /** "Add the last part". */
  function Finish(acc: Acc): seq<string> {
    if acc.cur != "" then acc.parts + [acc.cur] else acc.parts
  }

  /** The parts of a message longer than `MAX_LENGTH`. */
  function Parts(message: string): seq<string> {
    Finish(FoldParas(Acc([], ""), Split(message, "\n\n")))
  }

  /** The splitting loops of `_send_long_message`. */
  method SplitIntoParts(message: string) returns (parts: seq<string>)
    ensures parts == Parts(message)
  {
    parts := [];
    var currentPart := "";
    var paragraphs := Split(message, "\n\n");
    var k := 0;
    while k < |paragraphs|
      invariant 0 <= k <= |paragraphs|
      invariant Acc(parts, currentPart) == FoldParas(Acc([], ""), paragraphs[..k])
    {
      var paragraph := paragraphs[k];
      assert paragraphs[..k + 1][..k] == paragraphs[..k];
      if |currentPart| + |paragraph| + 2 > MaxLength {
        if currentPart != "" {
          parts := parts + [currentPart];
          currentPart := paragraph;
        } else {
          var lines := Split(paragraph, "\n");
          ghost var start := Acc(parts, currentPart);
          var m := 0;
          while m < |lines|
            invariant 0 <= m <= |lines|
            invariant Acc(parts, currentPart) == FoldLines(start, lines[..m])
          {
            var line := lines[m];
            assert lines[..m + 1][..m] == lines[..m];
            if |currentPart| + |line| + 1 > MaxLength {
              if currentPart != "" {
                parts := parts + [currentPart];
              }
              currentPart := line;
            } else {
              currentPart := if currentPart != "" then currentPart + "\n" + line else line;
            }
            m := m + 1;
          }
          assert lines[..|lines|] == lines;
        }
      } else {
        currentPart := if currentPart != "" then currentPart + "\n\n" + paragraph else paragraph;
      }
      k := k + 1;
    }
    assert paragraphs[..|paragraphs|] == paragraphs;
    if currentPart != "" {
      parts := parts + [currentPart];
    }
  }

  // -------------------------------------------------- what the parts contain

  /** A line or paragraph that the splitter never cuts further: a paragraph, or a line of one. */
  predicate IsAtom(x: string, paras: seq<string>) {
    x in paras || exists p :: p in paras && x in Split(p, "\n")
  }

  /** A part fits, or is one paragraph or one line that is too long by itself. */
  predicate FitsOrAtom(x: string, paras: seq<string>) {
    |x| <= MaxLength || IsAtom(x, paras)
  }

  predicate GoodAcc(acc: Acc, paras: seq<string>) {
    && (forall p :: p in acc.parts ==> p != "" && FitsOrAtom(p, paras))
    && FitsOrAtom(acc.cur, paras)
  }

  lemma {:induction false} FoldLinesGood(acc: Acc, lines: seq<string>, para: string, paras: seq<string>)
    requires GoodAcc(acc, paras) && para in paras
    requires forall l :: l in lines ==> l in Split(para, "\n")
    ensures GoodAcc(FoldLines(acc, lines), paras)
  {
    if lines != [] {
      var init, line := lines[..|lines| - 1], lines[|lines| - 1];
      assert forall l :: l in init ==> l in lines;
      FoldLinesGood(acc, init, para, paras);
      assert IsAtom(line, paras) by { assert line in Split(para, "\n"); }
    }
  }

  lemma {:induction false} FoldParasGood(ps: seq<string>, paras: seq<string>)
    requires forall p :: p in ps ==> p in paras
    ensures GoodAcc(FoldParas(Acc([], ""), ps), paras)
  {
    if ps != [] {
      var init := ps[..|ps| - 1];
      FoldParasGood(init, paras);
      var acc := FoldParas(Acc([], ""), init);
      var para := ps[|ps| - 1];
      if |acc.cur| + |para| + 2 > MaxLength && acc.cur == "" {
        FoldLinesGood(acc, Split(para, "\n"), para, paras);
      }
    }
  }

  /**
   * Every part is non-empty, and a part longer than `MAX_LENGTH` is a single
   * paragraph or a single line of one: nothing is ever hard-cut.
   */
  lemma PartsNonEmptyAndBounded(message: string)
    ensures var paras := Split(message, "\n\n");
      forall p :: p in Parts(message) ==> p != "" && (|p| <= MaxLength || IsAtom(p, paras))
  {
    var paras := Split(message, "\n\n");
    FoldParasGood(paras, paras);
  }

  /** All the text of the parts, in order, with the part being built last. */
  function Flat(acc: Acc): string {
    Concat(acc.parts) + acc.cur
  }

  lemma LineStepKeepsText(acc: Acc, line: string)
    ensures WithoutNewlines(Flat(LineStep(acc, line))) == WithoutNewlines(Flat(acc)) + WithoutNewlines(line)
  {
    var c := Concat(acc.parts);
    var after := LineStep(acc, line);
    if |acc.cur| + |line| + 1 > MaxLength {
      if acc.cur != "" {
        ConcatAppend(acc.parts, acc.cur);
        assert Flat(after) == (c + acc.cur) + line;
      } else {
        assert Flat(after) == (c + acc.cur) + line;
      }
    } else if acc.cur != "" {
      assert Flat(after) == (c + acc.cur) + "\n" + line;
      WithoutNewlinesAppend((c + acc.cur) + "\n", line);
      WithoutNewlinesAppend(c + acc.cur, "\n");
    } else {
      assert Flat(after) == (c + acc.cur) + line;
    }
    WithoutNewlinesAppend(c + acc.cur, line);
  }

  lemma {:induction false} FoldLinesKeepsText(acc: Acc, lines: seq<string>)
    ensures WithoutNewlines(Flat(FoldLines(acc, lines))) == WithoutNewlines(Flat(acc)) + WithoutNewlines(Concat(lines))
  {
    if lines == [] {
      assert WithoutNewlines(Flat(acc)) + WithoutNewlines("") == WithoutNewlines(Flat(acc));
    } else {
      var init, last := lines[..|lines| - 1], lines[|lines| - 1];
      var before := FoldLines(acc, init);
      calc {
        WithoutNewlines(Flat(FoldLines(acc, lines)));
        WithoutNewlines(Flat(LineStep(before, last)));
        { LineStepKeepsText(before, last); }
        WithoutNewlines(Flat(before)) + WithoutNewlines(last);
        { FoldLinesKeepsText(acc, init); }
        (WithoutNewlines(Flat(acc)) + WithoutNewlines(Concat(init))) + WithoutNewlines(last);
        WithoutNewlines(Flat(acc)) + (WithoutNewlines(Concat(init)) + WithoutNewlines(last));
        { WithoutNewlinesAppend(Concat(init), last); }
        WithoutNewlines(Flat(acc)) + WithoutNewlines(Concat(init) + last);
        { ConcatAppend(init, last); assert lines == init + [last]; }
        WithoutNewlines(Flat(acc)) + WithoutNewlines(Concat(lines));
      }
    }
  }

  lemma ParaStepKeepsText(acc: Acc, para: string)
    ensures WithoutNewlines(Flat(ParaStep(acc, para))) == WithoutNewlines(Flat(acc)) + WithoutNewlines(para)
  {
    if |acc.cur| + |para| + 2 > MaxLength {
      if acc.cur != "" {
        ParaClosesKeepsText(acc, para);
      } else {
        ParaSplitKeepsText(acc, para);
      }
    } else {
      ParaJoinsKeepsText(acc, para);
    }
  }

  lemma ParaClosesKeepsText(acc: Acc, para: string)
    requires acc.cur != ""
    ensures WithoutNewlines(Flat(Acc(acc.parts + [acc.cur], para))) == WithoutNewlines(Flat(acc)) + WithoutNewlines(para)
  {
    var c := Concat(acc.parts);
    ConcatAppend(acc.parts, acc.cur);
    assert Flat(Acc(acc.parts + [acc.cur], para)) == (c + acc.cur) + para;
    WithoutNewlinesAppend(c + acc.cur, para);
  }

  lemma ParaSplitKeepsText(acc: Acc, para: string)
    ensures WithoutNewlines(Flat(FoldLines(acc, Split(para, "\n")))) == WithoutNewlines(Flat(acc)) + WithoutNewlines(para)
  {
    var lines := Split(para, "\n");
    FoldLinesKeepsText(acc, lines);
    JoinSplit(para, "\n");
    WithoutNewlinesJoin(lines, "\n");
  }

  lemma ParaJoinsKeepsText(acc: Acc, para: string)
    ensures WithoutNewlines(Flat(Acc(acc.parts, if acc.cur != "" then acc.cur + "\n\n" + para else para)))
         == WithoutNewlines(Flat(acc)) + WithoutNewlines(para)
  {
    var c := Concat(acc.parts);
    if acc.cur != "" {
      assert Flat(Acc(acc.parts, acc.cur + "\n\n" + para)) == (c + acc.cur) + "\n\n" + para;
      WithoutNewlinesAppend((c + acc.cur) + "\n\n", para);
      WithoutNewlinesAppend(c + acc.cur, "\n\n");
      NewlinesOnlyVanish("\n\n");
    } else {
      assert Flat(Acc(acc.parts, para)) == (c + acc.cur) + para;
      WithoutNewlinesAppend(c + acc.cur, para);
    }
  }

  lemma {:induction false} FoldParasKeepsText(acc: Acc, paras: seq<string>)
    ensures WithoutNewlines(Flat(FoldParas(acc, paras))) == WithoutNewlines(Flat(acc)) + WithoutNewlines(Concat(paras))
  {
    if paras == [] {
      assert WithoutNewlines(Flat(acc)) + WithoutNewlines("") == WithoutNewlines(Flat(acc));
    } else {
      var init, last := paras[..|paras| - 1], paras[|paras| - 1];
      var before := FoldParas(acc, init);
      FoldParasKeepsText(acc, init);
      ParaStepKeepsText(before, last);
      ConcatLast(paras);
      WithoutNewlinesAppend(Concat(init), last);
      AppendRegroup(WithoutNewlines(Flat(acc)), WithoutNewlines(Concat(init)), WithoutNewlines(last),
                    WithoutNewlines(Flat(acc)) + WithoutNewlines(Concat(paras)), WithoutNewlines(Concat(paras)),
                    WithoutNewlines(Flat(before)));
    }
  }

  /** The concatenation of a non-empty list is that of all but its last element, then the last. */
  lemma ConcatLast(xs: seq<string>)
    requires xs != []
    ensures Concat(xs) == Concat(xs[..|xs| - 1]) + xs[|xs| - 1]
  {
    ConcatAppend(xs[..|xs| - 1], xs[|xs| - 1]);
    assert xs == xs[..|xs| - 1] + [xs[|xs| - 1]];
  }

  /**
   * Splitting drops only line breaks: the parts, concatenated, hold every
   * other character of the message, in order.
   */
  lemma PartsKeepText(message: string)
    ensures WithoutNewlines(Concat(Parts(message))) == WithoutNewlines(message)
  {
    var paras := Split(message, "\n\n");
    var acc := FoldParas(Acc([], ""), paras);
    FoldParasKeepsText(Acc([], ""), paras);
    assert Flat(Acc([], "")) == "";
    if acc.cur != "" {
      ConcatAppend(acc.parts, acc.cur);
    } else {
      assert Concat(acc.parts) + "" == Concat(acc.parts);
    }
    JoinSplit(message, "\n\n");
    WithoutNewlinesJoin(paras, "\n\n");
  }

  /**
   * An over-long paragraph that arrives while a part is being built becomes a
   * part of its own, uncut, even though it has several lines: for `"a\n\n" + x`
   * with `x` longer than `MAX_LENGTH` and without a blank line, the parts are
   * `"a"` and `x`.
   */
  lemma OverlongParagraphNotLineSplit(x: string)
    requires |x| > MaxLength && forall j: nat :: !OccursAt(x, "\n\n", j)
    ensures Parts("a\n\n" + x) == ["a", x]
  {
    var m := "a\n\n" + x;
    assert OccursAt(m, "\n\n", 1) by { assert m[1..3] == "\n\n"; }
    assert !OccursAt(m, "\n\n", 0) by { assert m[0] == 'a'; }
    IndexOfFirst(m, "\n\n");
    assert IndexOf(m, "\n\n") == Some(1);
    assert m[..1] == "a" && m[3..] == x;
    SplitWithoutSeparator(x, "\n\n");
    assert Split(m, "\n\n") == ["a", x];
    var paras := ["a", x];
    assert paras[..1] == ["a"] && paras[..1][..0] == [];
    assert FoldParas(Acc([], ""), ["a"]) == Acc([], "a");
  }

  /** Paragraphs that are all empty leave nothing to send. */
  lemma {:induction false} EmptyParagraphsVanish(paras: seq<string>)
    requires forall i :: 0 <= i < |paras| ==> paras[i] == ""
    ensures FoldParas(Acc([], ""), paras) == Acc([], "")
  {
    if paras != [] {
      EmptyParagraphsVanish(paras[..|paras| - 1]);
    }
  }

  // ------------------------------------------------------------ sending parts

  /** `f"📄 Part {i}/{len(parts)}\n\n"`. */
  function PartHeader(i: nat, n: nat): string {
    "\U{1F4C4} Part " + IntToString(i) + "/" + IntToString(n) + "\n\n"
  }

  /** The text sent for part `i` (from 1) of `parts`. */
  function PartText(parts: seq<string>, i: nat): string
    requires 1 <= i <= |parts|
  {
    if i == 1 then parts[0]
    else
      var header := PartHeader(i, |parts|);
      var part := parts[i - 1];
      if |header + part| > TelegramLimit then header + PyPrefix(part, MaxLength - |header|)
      else header + part
  }

  /** The texts sent for all the parts, in order. */
  function PartTexts(parts: seq<string>): (texts: seq<string>)
    ensures |texts| == |parts|
    ensures forall j :: 0 <= j < |parts| ==> texts[j] == PartText(parts, j + 1)
  {
    seq(|parts|, j requires 0 <= j < |parts| => PartText(parts, j + 1))
  }

  /** The actions for the first `k` of the texts `texts`: each is sent, with a one-second pause after all but the last. */
  function PlanUpTo(texts: seq<string>, k: nat): seq<Action>
    requires k <= |texts|
  {
    if k == 0 then []
    else PlanUpTo(texts, k - 1) + [Send(texts[k - 1])] + (if k < |texts| then [Sleep(1)] else [])
  }

  function SendPlan(parts: seq<string>): seq<Action> {
    PlanUpTo(PartTexts(parts), |parts|)
  }

  /** The sending loop of `_send_long_message`. */
  method SendParts(parts: seq<string>) returns (actions: seq<Action>)
    ensures actions == SendPlan(parts)
  {
    ghost var texts := PartTexts(parts);
    actions := [];
    var i := 1;
    while i <= |parts|
      invariant 1 <= i <= |parts| + 1
      invariant actions == PlanUpTo(texts, i - 1)
    {
      var text := PartMessage(parts, i);
      assert text == texts[i - 1];
      ghost var before := actions;
      actions := actions + [Send(text)];
      if i < |parts| {
        actions := actions + [Sleep(1)];
      }
      assert actions == before + [Send(texts[i - 1])] + (if i < |texts| then [Sleep(1)] else []);
      i := i + 1;
    }
  }

  /** The text the loop sends for part `i`: the first as it is, a later one under its header, trimmed when too long. */
  method PartMessage(parts: seq<string>, i: nat) returns (text: string)
    requires 1 <= i <= |parts|
    ensures text == PartText(parts, i)
  {
    var part := parts[i - 1];
    text := part;
    if i > 1 {
      var header := PartHeader(i, |parts|);
      if |header + part| > TelegramLimit {
        var maxPartLen := MaxLength - |header|;
        part := PyPrefix(part, maxPartLen);
      }
      text := header + part;
    }
  }

  /** `_send_long_message(channel, message)`. */
  method SendLongMessage(message: string) returns (actions: seq<Action>)
    ensures actions == LongMessagePlan(message)
  {
    if |message| <= MaxLength {
      return [Send(message)];
    }
    var parts := SplitIntoParts(message);
    actions := SendParts(parts);
  }

  function LongMessagePlan(message: string): seq<Action> {
    if |message| <= MaxLength then [Send(message)] else SendPlan(Parts(message))
  }

  /** A message of at most `MAX_LENGTH` characters is sent once, as it is. */
  lemma ShortMessageSentWhole(message: string)
    requires |message| <= MaxLength
    ensures LongMessagePlan(message) == [Send(message)]
  {
  }

  lemma {:induction false} PlanLength(texts: seq<string>, k: nat)
    requires k <= |texts|
    ensures |PlanUpTo(texts, k)| == (if k == 0 then 0 else if k < |texts| then 2 * k else 2 * k - 1)
  {
    if k > 0 { PlanLength(texts, k - 1); }
  }

  /** Text `j` is sent at position `2j`. */
  lemma {:induction false} PlanSends(texts: seq<string>, k: nat)
    requires k <= |texts|
    ensures |PlanUpTo(texts, k)| >= 2 * k - 1
    ensures forall j :: 0 <= j < k ==> PlanUpTo(texts, k)[2 * j] == Send(texts[j])
  {
    PlanLength(texts, k);
    if k > 0 {
      PlanSends(texts, k - 1);
      PlanLength(texts, k - 1);
      var before := PlanUpTo(texts, k - 1);
      var plan := PlanUpTo(texts, k);
      forall j | 0 <= j < k ensures plan[2 * j] == Send(texts[j]) {
        if j < k - 1 { assert plan[2 * j] == before[2 * j]; }
      }
    }
  }

  /** The pauses are exactly the odd positions. */
  lemma {:induction false} PlanSleeps(texts: seq<string>, k: nat)
    requires k <= |texts|
    ensures var plan := PlanUpTo(texts, k);
      forall j :: 0 <= j < |plan| ==> (plan[j] == Sleep(1) <==> j % 2 == 1)
  {
    if k > 0 {
      PlanSleeps(texts, k - 1);
      PlanLength(texts, k - 1);
      var before := PlanUpTo(texts, k - 1);
      var plan := PlanUpTo(texts, k);
      forall j | 0 <= j < |plan| ensures plan[j] == Sleep(1) <==> j % 2 == 1 {
        if j < |before| { assert plan[j] == before[j]; }
      }
    }
  }

  /** A message with any character besides line breaks yields at least one part. */
  lemma PartsNonEmpty(message: string)
    requires WithoutNewlines(message) != ""
    ensures Parts(message) != []
  {
    PartsKeepText(message);
  }

  /**
   * The sends and pauses alternate: part `j+1` is sent at position `2j`, and
   * exactly one one-second pause follows every part but the last.
   */
  lemma PausesBetweenParts(parts: seq<string>)
    requires |parts| > 0
    ensures |SendPlan(parts)| == 2 * |parts| - 1
    ensures forall j :: 0 <= j < |SendPlan(parts)| ==> (SendPlan(parts)[j] == Sleep(1) <==> j % 2 == 1)
    ensures forall j :: 0 <= j < |parts| ==> SendPlan(parts)[2 * j] == Send(PartText(parts, j + 1))
  {
    PlanShape(PartTexts(parts));
  }

  /** The whole plan for any texts: a send at every even position, a pause at every odd one. */
  lemma PlanShape(texts: seq<string>)
    requires |texts| > 0
    ensures var plan := PlanUpTo(texts, |texts|);
      && |plan| == 2 * |texts| - 1
      && (forall j :: 0 <= j < |plan| ==> (plan[j] == Sleep(1) <==> j % 2 == 1))
      && (forall j :: 0 <= j < |texts| ==> plan[2 * j] == Send(texts[j]))
  {
    PlanLength(texts, |texts|);
    PlanSends(texts, |texts|);
    PlanSleeps(texts, |texts|);
  }

  /**
   * The first part is sent untouched. Every later part gets its header and
   * keeps as much of its text as fits; the message sent is at most 4096
   * characters whenever the header itself is at most `MAX_LENGTH` long.
   */
  lemma PartTextShape(parts: seq<string>, i: nat)
    requires 1 <= i <= |parts|
    ensures i == 1 ==> PartText(parts, i) == parts[0]
    ensures i > 1 ==>
      var header := PartHeader(i, |parts|);
      var text := PartText(parts, i);
      && StartsWith(text, header)
      && StartsWith(parts[i - 1], text[|header|..])
      && (|header| + |parts[i - 1]| <= TelegramLimit ==> text == header + parts[i - 1])
      && (|header| <= MaxLength ==> |text| <= TelegramLimit)
  {
    if i > 1 {
      var header := PartHeader(i, |parts|);
      var part := parts[i - 1];
      var body := if |header + part| > TelegramLimit then PyPrefix(part, MaxLength - |header|) else part;
      assert PartText(parts, i) == header + body;
      assert (header + body)[..|header|] == header;
      assert (header + body)[|header|..] == body;
    }
  }

  /** `str(n)` has at most `k` digits when `n < 10^k`. */
  lemma {:induction false} NatToStringLength(n: nat, k: nat)
    requires k >= 1 && n < Pow10(k)
    ensures |NatToString(n)| <= k
  {
    if n >= 10 {
      NatToStringLength(n / 10, k - 1);
    }
  }

  function Pow10(k: nat): nat {
    if k == 0 then 1 else 10 * Pow10(k - 1)
  }

  /** With fewer than a billion parts, the header is at most 28 characters long. */
  lemma PartHeaderShort(i: nat, n: nat)
    requires i <= n < 1000000000
    ensures |PartHeader(i, n)| <= 28
  {
    assert Pow10(9) == 1000000000;
    NatToStringLength(i, 9);
    NatToStringLength(n, 9);
  }

  // ------------------------------------------------------ collecting messages

  /** The fields of a Telegram message the service reads; `text` is `""` for a message without text. */
  datatype Message = Message(date: int, text: string, out: bool)

  /** One step of `iter_messages`, newest first: the next message, or the exception the iteration raises. */
  datatype Fetched = Fetched(message: Message) | FetchFailed(error: string)

  /**
   * The loop of `_get_channel_messages` from position `k` of the history on:
   * keep the messages with text until the first one older than the cutoff;
   * `None` when the iteration raises first.
   */
  function Scan(history: seq<Fetched>, cutoff: int, k: nat): Option<seq<Message>>
    requires k <= |history|
    decreases |history| - k
  {
    if k == |history| then Some([])
    else match history[k]
      case FetchFailed(_) => None
      case Fetched(m) =>
        if m.date < cutoff then Some([])
        else Prepend(if m.text != "" then [m] else [], Scan(history, cutoff, k + 1))
  }

  function Prepend(kept: seq<Message>, rest: Option<seq<Message>>): Option<seq<Message>> {
    match rest
    case None => None
    case Some(r) => Some(kept + r)
  }

  lemma PrependTwice(a: seq<Message>, b: seq<Message>, rest: Option<seq<Message>>)
    ensures Prepend(a, Prepend(b, rest)) == Prepend(a + b, rest)
  {
    if rest.Some? { assert a + (b + rest.value) == (a + b) + rest.value; }
  }

  lemma PrependNothing(rest: Option<seq<Message>>)
    ensures Prepend([], rest) == rest
  {
    if rest.Some? { assert [] + rest.value == rest.value; }
  }

  predicate SortedByDate(ms: seq<Message>) {
    forall i, j :: 0 <= i < j < |ms| ==> ms[i].date <= ms[j].date
  }

  /** Puts `m` before the first message that is not older than it. */
  function Insert(m: Message, sorted: seq<Message>): (r: seq<Message>)
    ensures multiset(r) == multiset(sorted) + multiset{m}
  {
    if sorted == [] || m.date <= sorted[0].date then [m] + sorted
    else
      assert sorted == [sorted[0]] + sorted[1..];
      [sorted[0]] + Insert(m, sorted[1..])
  }

  /** `messages.sort(key=lambda m: m.date)`: a stable sort, oldest first. */
  function SortByDate(ms: seq<Message>): (r: seq<Message>)
    ensures multiset(r) == multiset(ms)
  {
    if ms == [] then []
    else
      assert ms == [ms[0]] + ms[1..];
      Insert(ms[0], SortByDate(ms[1..]))
  }

  /** What `_get_channel_messages` returns: the kept messages oldest first, `[]` when fetching failed. */
  function ChannelMessages(history: seq<Fetched>, cutoff: int): seq<Message> {
    match Scan(history, cutoff, 0)
    case None => []
    case Some(kept) => SortByDate(kept)
  }

  /** `_get_channel_messages(channel)`, with the channel's history and the cutoff time as inputs. */
  method GetChannelMessages(history: seq<Fetched>, cutoff: int) returns (messages: seq<Message>)
    ensures messages == ChannelMessages(history, cutoff)
  {
    messages := [];
    var k := 0;
    PrependNothing(Scan(history, cutoff, 0));
    while k < |history|
      invariant 0 <= k <= |history|
      invariant Scan(history, cutoff, 0) == Prepend(messages, Scan(history, cutoff, k))
    {
      if history[k].FetchFailed? {
        assert Scan(history, cutoff, k) == None;
        assert Scan(history, cutoff, 0) == None;
        return [];
      }
      var message := history[k].message;
      if message.date < cutoff {
        assert Scan(history, cutoff, k) == Some([]);
        assert Scan(history, cutoff, 0) == Some(messages + []);
        assert messages + [] == messages;
        break;
      }
      var kept := if message.text != "" then [message] else [];
      PrependTwice(messages, kept, Scan(history, cutoff, k + 1));
      messages := messages + kept;
      k := k + 1;
    }
    if k == |history| {
      assert messages + [] == messages;
    }
    assert Scan(history, cutoff, 0) == Some(messages);
    messages := SortByDate(messages);
  }

  lemma {:induction false} InsertSorted(m: Message, sorted: seq<Message>)
    requires SortedByDate(sorted)
    ensures SortedByDate(Insert(m, sorted))
  {
    if sorted == [] || m.date <= sorted[0].date {
      forall k | 0 <= k < |sorted| ensures m.date <= sorted[k].date {
        if k > 0 { assert sorted[0].date <= sorted[k].date; }
      }
      ConsSorted(m, sorted);
    } else {
      var tail := Insert(m, sorted[1..]);
      InsertSorted(m, sorted[1..]);
      forall k | 0 <= k < |tail| ensures sorted[0].date <= tail[k].date {
        var x := tail[k];
        assert x in multiset(tail);
        if x != m {
          var i :| 0 <= i < |sorted[1..]| && sorted[1..][i] == x;
          assert sorted[i + 1] == x;
        }
      }
      ConsSorted(sorted[0], tail);
    }
  }

  /** A message no later than any of a sorted list goes in front of it. */
  lemma ConsSorted(x: Message, s: seq<Message>)
    requires SortedByDate(s)
    requires forall k :: 0 <= k < |s| ==> x.date <= s[k].date
    ensures SortedByDate([x] + s)
  {
    var r := [x] + s;
    forall i, j | 0 <= i < j < |r| ensures r[i].date <= r[j].date {
      assert r[j] == s[j - 1];
      if i > 0 {
        assert r[i] == s[i - 1];
      }
    }
  }

  lemma {:induction false} SortByDateSorted(ms: seq<Message>)
    ensures SortedByDate(SortByDate(ms))
  {
    if ms != [] {
      SortByDateSorted(ms[1..]);
      InsertSorted(ms[0], SortByDate(ms[1..]));
    }
  }

  /** Every kept message has text and is not older than the cutoff, and comes from the history. */
  lemma {:induction false} ScanKeeps(history: seq<Fetched>, cutoff: int, k: nat)
    requires k <= |history|
    ensures Scan(history, cutoff, k).Some? ==>
      forall m :: m in Scan(history, cutoff, k).value ==> m.text != "" && m.date >= cutoff && Fetched(m) in history
    decreases |history| - k
  {
    if k < |history| && history[k].Fetched? && history[k].message.date >= cutoff {
      ScanKeeps(history, cutoff, k + 1);
    }
  }

  /**
   * `_get_channel_messages` returns messages with text, sent at or after the
   * cutoff, from the channel's history, oldest first; a permutation of what
   * the loop kept.
   */
  lemma ChannelMessagesSortedAndRecent(history: seq<Fetched>, cutoff: int)
    ensures SortedByDate(ChannelMessages(history, cutoff))
    ensures forall m :: m in ChannelMessages(history, cutoff) ==> m.text != "" && m.date >= cutoff && Fetched(m) in history
    ensures Scan(history, cutoff, 0).Some? ==> multiset(ChannelMessages(history, cutoff)) == multiset(Scan(history, cutoff, 0).value)
  {
    ScanKeeps(history, cutoff, 0);
    if Scan(history, cutoff, 0).Some? {
      var kept := Scan(history, cutoff, 0).value;
      SortByDateSorted(kept);
      forall m | m in ChannelMessages(history, cutoff) ensures m in kept {
        assert m in multiset(SortByDate(kept));
      }
    }
  }

  /** Nothing after the first message older than the cutoff is looked at. */
  lemma {:induction false} ScanStopsAtOld(history: seq<Fetched>, cutoff: int, k: nat, i: nat)
    requires k <= i < |history| && history[i].Fetched? && history[i].message.date < cutoff
    ensures Scan(history, cutoff, k) == Scan(history[..i], cutoff, k)
    decreases i - k
  {
    if k < i {
      assert history[..i][k] == history[k];
      if history[k].Fetched? && history[k].message.date >= cutoff {
        ScanStopsAtOld(history, cutoff, k + 1, i);
      }
    }
  }

  /** So the messages returned do not depend on anything fetched after the first old message. */
  lemma StopsAtOld(history: seq<Fetched>, cutoff: int, i: nat)
    requires i < |history| && history[i].Fetched? && history[i].message.date < cutoff
    ensures ChannelMessages(history, cutoff) == ChannelMessages(history[..i], cutoff)
  {
    ScanStopsAtOld(history, cutoff, 0, i);
  }

  /** A failure of the iteration before any old message makes the whole result `[]`. */
  lemma {:induction false} ScanFailsOnError(history: seq<Fetched>, cutoff: int, k: nat, i: nat)
    requires k <= i < |history| && history[i].FetchFailed?
    requires forall j :: k <= j < i ==> history[j].Fetched? && history[j].message.date >= cutoff
    ensures Scan(history, cutoff, k) == None
    decreases i - k
  {
    if k < i {
      ScanFailsOnError(history, cutoff, k + 1, i);
    }
  }

  lemma FailsOnError(history: seq<Fetched>, cutoff: int, i: nat)
    requires i < |history| && history[i].FetchFailed?
    requires forall j :: 0 <= j < i ==> history[j].Fetched? && history[j].message.date >= cutoff
    ensures ChannelMessages(history, cutoff) == []
  {
    ScanFailsOnError(history, cutoff, 0, i);
  }

  /** When every fetched message from `k` on is recent, every one of them with text is kept. */
  lemma {:induction false} ScanComplete(history: seq<Fetched>, cutoff: int, k: nat)
    requires k <= |history|
    requires forall j :: k <= j < |history| ==> history[j].Fetched? && history[j].message.date >= cutoff
    ensures Scan(history, cutoff, k).Some?
    ensures forall j :: k <= j < |history| && history[j].message.text != "" ==>
      history[j].message in Scan(history, cutoff, k).value
    decreases |history| - k
  {
    if k < |history| {
      ScanComplete(history, cutoff, k + 1);
    }
  }

  /** With no failure and no old message, every message with text is returned. */
  lemma Complete(history: seq<Fetched>, cutoff: int)
    requires forall j :: 0 <= j < |history| ==> history[j].Fetched? && history[j].message.date >= cutoff
    ensures forall j :: 0 <= j < |history| && history[j].message.text != "" ==>
      history[j].message in ChannelMessages(history, cutoff)
  {
    ScanComplete(history, cutoff, 0);
    var kept := Scan(history, cutoff, 0).value;
    forall j | 0 <= j < |history| && history[j].message.text != ""
      ensures history[j].message in ChannelMessages(history, cutoff)
    {
      assert history[j].message in multiset(SortByDate(kept));
    }
  }

  // --------------------------------------------------------- building the summary

  /** The line block for message `i` (numbered from 1) handed to the summariser. */
  function Entry(i: nat, m: Message, stamp: string): string {
    "[" + IntToString(i) + "] " + stamp + " | " + (if m.out then "Bot" else "Other") + ":\n" + m.text + "\n"
  }

  /** The numbering loop of `_create_summary`; `stamp` stands for `strftime("%Y-%m-%d %H:%M:%S")`. */
  method NumberMessages(messages: seq<Message>, stamp: int -> string) returns (entries: seq<string>)
    ensures |entries| == |messages|
    ensures forall j :: 0 <= j < |messages| ==> entries[j] == Entry(j + 1, messages[j], stamp(messages[j].date))
  {
    entries := [];
    var i := 1;
    while i <= |messages|
      invariant 1 <= i <= |messages| + 1
      invariant |entries| == i - 1
      invariant forall j :: 0 <= j < i - 1 ==> entries[j] == Entry(j + 1, messages[j], stamp(messages[j].date))
    {
      var msg := messages[i - 1];
      var sender := if msg.out then "Bot" else "Other";
      var entry := "[" + IntToString(i) + "] " + stamp(msg.date) + " | " + sender + ":\n" + msg.text + "\n";
      assert entry == Entry(i, msg, stamp(msg.date));
      entries := entries + [entry];
      i := i + 1;
    }
  }

  /** Entry `i` names its number and sender and carries the message text unchanged. */
  lemma EntryShape(i: nat, m: Message, stamp: string)
    ensures StartsWith(Entry(i, m, stamp), "[" + IntToString(i) + "] " + stamp + " | ")
    ensures EndsWith(Entry(i, m, stamp), ":\n" + m.text + "\n")
  {
    var head := "[" + IntToString(i) + "] " + stamp + " | ";
    var tail := ":\n" + m.text + "\n";
    var sender := if m.out then "Bot" else "Other";
    assert Entry(i, m, stamp) == head + sender + tail;
  }

  /** The header of a summary: `#dailysummary {date}` and the channel line. */
  function SummaryHeader(channelName: string, date: string, count: nat): string {
    "#dailysummary " + date + "\n" + "**" + channelName + "** | " + IntToString(count) + " messages analyzed\n\n"
  }

  /** The end of `_create_summary`, given the summariser's reply (or the exception it raised). */
  function Summarised(reply: Result<string>, channelName: string, date: string, count: nat): Result<string> {
    match reply
    case Err(e) => Err(e)
    case Ok(text) =>
      if text == "" then Err("Empty response from Gemini API")
      else Ok(SummaryHeader(channelName, date, count) + Strip(text))
  }

  /**
   * `_create_summary(messages, channel_name)`: `summarise` stands for the
   * whole prompt (the template with the channel name, the message count and
   * the date filled in) and the model call, applied to the numbered messages
   * joined by line breaks; `date` is today's `"%d %b"`.
   */
  method CreateSummary(messages: seq<Message>, channelName: string, date: string,
                       stamp: int -> string, summarise: string -> Result<string>)
    returns (r: Result<string>)
    ensures r == Summarised(summarise(Join(Entries(messages, stamp), "\n")), channelName, date, |messages|)
  {
    var entries := NumberMessages(messages, stamp);
    assert entries == Entries(messages, stamp);
    var combined := Join(entries, "\n");
    var response := summarise(combined);
    if response.Err? {
      return Err(response.error);
    }
    if response.value == "" {
      return Err("Empty response from Gemini API");
    }
    var summaryText := Strip(response.value);
    var header := "#dailysummary " + date + "\n";
    header := header + "**" + channelName + "** | " + IntToString(|messages|) + " messages analyzed\n\n";
    r := Ok(header + summaryText);
  }

  function Entries(messages: seq<Message>, stamp: int -> string): (entries: seq<string>)
    ensures |entries| == |messages|
  {
    seq(|messages|, j requires 0 <= j < |messages| => Entry(j + 1, messages[j], stamp(messages[j].date)))
  }

  /**
   * A non-empty reply becomes the header followed by the reply without its
   * surrounding whitespace (no other character lost); an empty reply is an
   * error, and a failed call fails with the same error.
   */
  lemma SummarisedShape(reply: Result<string>, channelName: string, date: string, count: nat)
    ensures reply.Err? ==> Summarised(reply, channelName, date, count) == Err(reply.error)
    ensures reply == Ok("") ==> Summarised(reply, channelName, date, count) == Err("Empty response from Gemini API")
    ensures reply.Ok? && reply.value != "" ==>
      var header := SummaryHeader(channelName, date, count);
      var r := Summarised(reply, channelName, date, count);
      && r.Ok?
      && StartsWith(r.value, "#dailysummary " + date + "\n")
      && StartsWith(r.value, header)
      && NonSpace(r.value[|header|..]) == NonSpace(reply.value)
  {
    if reply.Ok? && reply.value != "" {
      var header := SummaryHeader(channelName, date, count);
      var body := Strip(reply.value);
      assert (header + body)[|header|..] == body;
      assert (header + body)[..|header|] == header;
      assert header[..|"#dailysummary " + date + "\n"|] == "#dailysummary " + date + "\n";
      NonSpaceStrip(reply.value);
    }
  }

  // ------------------------------------------------------- no-activity notice

  /** The 50-character horizontal rule. */
  function Rule(): (r: string)
    ensures |r| == 50
  {
    seq(50, _ => '\U{2500}')
  }

  function NoActivityHeader(channelName: string, isoDate: string): string {
    "\U{1F4CA} **Daily Summary - " + channelName + "**\n"
    + "\U{1F4C5} " + isoDate + " | Past 24 Hours\n\n"
    + Rule() + "\n\n"
  }

  function NoActivityBody(): string {
    "\U{1F515} **No Activity**\n\n" + "No messages were posted in this channel over the past 24 hours.\n"
  }

  /** The footer as `_format_no_activity_message` computes it: `"\n\n─" * 50`, then the hashtag line. */
  function FooterAsWritten(): string {
    Repeat("\n\n\U{2500}", 50) + "\n" + "#dailysummary"
  }

  /** The footer evidently meant: a blank line, the same rule as the header's, then the hashtag line. */
  function Footer(): string {
    "\n\n" + Rule() + "\n" + "#dailysummary"
  }

  /** `_format_no_activity_message(channel_name)` as written, with today's `"%Y-%m-%d"` as input. */
  function NoActivityAsWritten(channelName: string, isoDate: string): string {
    NoActivityHeader(channelName, isoDate) + NoActivityBody() + FooterAsWritten()
  }

  /** The no-activity notice as evidently intended, with the footer rule drawn in one line; the summary flow does not send it. */
  function NoActivity(channelName: string, isoDate: string): string {
    NoActivityHeader(channelName, isoDate) + NoActivityBody() + Footer()
  }

  /** No two rule characters stand side by side in `s`. */
  predicate RuleBroken(s: string) {
    forall i :: 0 <= i < |s| - 1 ==> !(s[i] == '\U{2500}' && s[i + 1] == '\U{2500}')
  }

  lemma {:induction false} RepeatedBreaksRule(k: nat)
    ensures RuleBroken(Repeat("\n\n\U{2500}", k))
  {
    if k > 0 {
      RepeatedBreaksRule(k - 1);
      var rest := Repeat("\n\n\U{2500}", k - 1);
      var f := Repeat("\n\n\U{2500}", k);
      assert f == "\n\n\U{2500}" + rest;
      forall i | 0 <= i < |f| - 1 ensures !(f[i] == '\U{2500}' && f[i + 1] == '\U{2500}') {
        if i >= 3 {
          assert f[i] == rest[i - 3] && f[i + 1] == rest[i - 2];
        } else if i == 2 {
          assert rest == "\n\n\U{2500}" + Repeat("\n\n\U{2500}", k - 2);
          assert f[3] == rest[0];
        } else {
          assert f[i] == '\n';
        }
      }
    }
  }

  /**
   * As written, the footer is 50 lines of a single rule character each, 150
   * characters in place of one 50-character rule: the header's rule occurs
   * nowhere in it.
   */
  lemma FooterAsWrittenHasNoRule()
    ensures |FooterAsWritten()| == 164
    ensures forall j: nat :: !OccursAt(FooterAsWritten(), Rule(), j)
  {
    var lines := Repeat("\n\n\U{2500}", 50);
    var tail := "\n" + "#dailysummary";
    RepeatedBreaksRule(50);
    assert RuleBroken(tail);
    RuleBrokenAppend(lines, tail);
    var r := Rule();
    assert r[0] == r[1] == '\U{2500}';
    BrokenHasNoRule(lines + tail, r);
  }

  lemma RuleBrokenAppend(a: string, b: string)
    requires RuleBroken(a) && RuleBroken(b)
    requires b != [] && b[0] != '\U{2500}'
    ensures RuleBroken(a + b)
  {
    var s := a + b;
    forall i | 0 <= i < |s| - 1 ensures !(s[i] == '\U{2500}' && s[i + 1] == '\U{2500}') {
      if i + 1 < |a| {
        assert s[i] == a[i] && s[i + 1] == a[i + 1];
      } else if i + 1 == |a| {
        assert s[i + 1] == b[0];
      } else {
        assert s[i] == b[i - |a|] && s[i + 1] == b[i + 1 - |a|];
      }
    }
  }

  lemma BrokenHasNoRule(s: string, pat: string)
    requires RuleBroken(s)
    requires |pat| >= 2 && pat[0] == '\U{2500}' && pat[1] == '\U{2500}'
    ensures forall j: nat :: !OccursAt(s, pat, j)
  {
    forall j: nat ensures !OccursAt(s, pat, j) {
      if j + |pat| <= |s| {
        assert s[j..j + |pat|][0] == s[j] && s[j..j + |pat|][1] == s[j + 1];
      }
    }
  }

  /** The corrected footer carries the header's rule, after a blank line, and ends with the hashtag line. */
  lemma FooterHasRule()
    ensures OccursAt(Footer(), Rule(), 2)
    ensures EndsWith(Footer(), "\n#dailysummary")
  {
    var r := Rule();
    assert Footer() == "\n\n" + r + "\n#dailysummary";
    assert Footer()[2..52] == r;
  }

  // -------------------------------------------------------- summary per channel

  /** The `send_message` call of a channel that raises: which one (counting from 0) and the exception's text. */
  datatype SendFailure = SendFailure(index: nat, error: string)

  /**
   * The channel to summarise: its display name, its message history (newest
   * first), the cutoff time, and the send that raises, if any.
   */
  datatype Channel = Channel(name: string, history: seq<Fetched>, cutoff: int, sendFailure: Option<SendFailure>)

  /** What a channel's summary did: the actions performed, and the exception re-raised, if any. */
  datatype Run = Run(actions: seq<Action>, error: Option<string>)

  /** The number of `send_message` calls in a plan. */
  function Sends(plan: seq<Action>): nat {
    if plan == [] then 0 else (if plan[0].Send? then 1 else 0) + Sends(plan[1..])
  }

  /**
   * Carrying out a plan when the send `failure` names raises: every action up
   * to and including that send is performed, the rest is not, and the
   * exception propagates.
   */
  function Executed(plan: seq<Action>, failure: Option<SendFailure>): Run
    decreases |plan|
  {
    if plan == [] then Run([], None)
    else if plan[0].Send? && failure.Some? && failure.value.index == 0 then Run([plan[0]], Some(failure.value.error))
    else
      var rest := Executed(plan[1..], After(plan[0], failure));
      Run([plan[0]] + rest.actions, rest.error)
  }

  /** The next send's failure, seen from after `a`: one send fewer to wait for when `a` is a send. */
  function After(a: Action, failure: Option<SendFailure>): Option<SendFailure>
    requires !(a.Send? && failure.Some? && failure.value.index == 0)
  {
    if a.Send? && failure.Some? then Some(SendFailure(failure.value.index - 1, failure.value.error)) else failure
  }

  /** Counting sends over a first action and the rest. */
  lemma SendsCons(a: Action, rest: seq<Action>)
    ensures Sends([a] + rest) == (if a.Send? then 1 else 0) + Sends(rest)
  {
    assert ([a] + rest)[1..] == rest;
  }

  /**
   * `r` carries out `plan` as the send `failure` names dictates: whole
   * exactly when no send raises; otherwise it stops right after the failing
   * send, which is the `index + 1`-th send, and the send's exception is the
   * result.
   */
  predicate StopsAtFailure(plan: seq<Action>, failure: Option<SendFailure>, r: Run) {
    && |r.actions| <= |plan| && r.actions == plan[..|r.actions|]
    && (r.error.None? <==> failure.None? || failure.value.index >= Sends(plan))
    && (r.error.None? ==> r.actions == plan)
    && (r.error.Some? ==> failure.Some? && r.error.value == failure.value.error && r.actions != []
                          && r.actions[|r.actions| - 1].Send? && Sends(r.actions) == failure.value.index + 1)
  }

  /** A plan is carried out whole exactly when no send raises, and otherwise stops right after the failing send. */
  lemma {:induction false} ExecutedStops(plan: seq<Action>, failure: Option<SendFailure>)
    ensures StopsAtFailure(plan, failure, Executed(plan, failure))
    decreases |plan|
  {
    if plan == [] {
    } else if plan[0].Send? && failure.Some? && failure.value.index == 0 {
      FailsAtHead(plan[0], plan[1..], failure.value);
      assert [plan[0]] + plan[1..] == plan;
    } else {
      var next := After(plan[0], failure);
      ExecutedStops(plan[1..], next);
      FailsLater(plan[0], plan[1..], failure, Executed(plan[1..], next));
      assert [plan[0]] + plan[1..] == plan;
    }
  }

  /** The first action is the send that raises: it alone is performed. */
  lemma FailsAtHead(a: Action, rest: seq<Action>, failure: SendFailure)
    requires a.Send? && failure.index == 0
    ensures StopsAtFailure([a] + rest, Some(failure), Run([a], Some(failure.error)))
  {
    SendsCons(a, rest);
    SendsCons(a, []);
    assert ([a] + rest)[..1] == [a];
    assert [a] + [] == [a];
  }

  /** The first action is performed and the rest of the plan goes on with one send fewer to wait for. */
  lemma FailsLater(a: Action, rest: seq<Action>, failure: Option<SendFailure>, tail: Run)
    requires !(a.Send? && failure.Some? && failure.value.index == 0)
    requires StopsAtFailure(rest, After(a, failure), tail)
    ensures StopsAtFailure([a] + rest, failure, Run([a] + tail.actions, tail.error))
  {
    SendsCons(a, rest);
    SendsCons(a, tail.actions);
    var r := Run([a] + tail.actions, tail.error);
    assert r.actions == ([a] + rest)[..|r.actions|] by {
      assert ([a] + rest)[..|r.actions|] == [a] + rest[..|tail.actions|];
    }
    if tail.error.Some? {
      assert r.actions[|r.actions| - 1] == tail.actions[|tail.actions| - 1];
    }
  }

  /** Today's date as `"%Y-%m-%d"` (no-activity notice) and as `"%d %b"` (summary header). */
  datatype Today = Today(isoDate: string, dayMonth: string)

  /** What `_generate_channel_summary` plans to do: the actions it performs when every send succeeds, or the error it re-raises before sending. */
  function ChannelSummary(ch: Channel, today: Today, stamp: int -> string, summarise: string -> Result<string>): Result<seq<Action>> {
    var messages := ChannelMessages(ch.history, ch.cutoff);
    if messages == [] then Ok([Send(NoActivityAsWritten(ch.name, today.isoDate))])
    else AfterReply(summarise(Join(Entries(messages, stamp), "\n")), ch.name, today.dayMonth, |messages|)
  }

  /** The rest of `_generate_channel_summary` once the summariser has replied. */
  function AfterReply(reply: Result<string>, channelName: string, date: string, count: nat): Result<seq<Action>> {
    match Summarised(reply, channelName, date, count)
    case Err(e) => Err(e)
    case Ok(summary) => Ok(LongMessagePlan(summary))
  }

  /** What `_generate_channel_summary` does: its plan, carried out until a send raises. */
  function ChannelRun(ch: Channel, today: Today, stamp: int -> string, summarise: string -> Result<string>): Run {
    match ChannelSummary(ch, today, stamp, summarise)
    case Err(e) => Run([], Some(e))
    case Ok(plan) => Executed(plan, ch.sendFailure)
  }

  /** `_generate_channel_summary(channel, channel_name)`. */
  method GenerateChannelSummary(ch: Channel, today: Today, stamp: int -> string, summarise: string -> Result<string>)
    returns (r: Run)
    ensures r == ChannelRun(ch, today, stamp, summarise)
  {
    var plan := PlanChannel(ch, today, stamp, summarise);
    if plan.Err? {
      return Run([], Some(plan.error));
    }
    r := Executed(plan.value, ch.sendFailure);
  }

  /** The body of `_generate_channel_summary` up to its sends: the plan, or the error raised before any send. */
  method PlanChannel(ch: Channel, today: Today, stamp: int -> string, summarise: string -> Result<string>)
    returns (plan: Result<seq<Action>>)
    ensures plan == ChannelSummary(ch, today, stamp, summarise)
  {
    var messages := GetChannelMessages(ch.history, ch.cutoff);
    if messages == [] {
      var summary := NoActivityAsWritten(ch.name, today.isoDate);
      return Ok([Send(summary)]);
    }
    plan := SummariseAndSend(messages, ch.name, today.dayMonth, stamp, summarise);
  }

  /** The branch of `_generate_channel_summary` for a channel with messages: summarise them, then send the summary. */
  method SummariseAndSend(messages: seq<Message>, channelName: string, date: string, stamp: int -> string, summarise: string -> Result<string>)
    returns (r: Result<seq<Action>>)
    ensures r == AfterReply(summarise(Join(Entries(messages, stamp), "\n")), channelName, date, |messages|)
  {
    var summary := CreateSummary(messages, channelName, date, stamp, summarise);
    if summary.Err? {
      return Err(summary.error);
    }
    var actions := SendLongMessage(summary.value);
    r := Ok(actions);
  }

  /** A quiet channel gets exactly the no-activity notice, and only a quiet channel gets it. */
  lemma QuietChannel(ch: Channel, today: Today, stamp: int -> string, summarise: string -> Result<string>)
    requires ChannelMessages(ch.history, ch.cutoff) == []
    ensures ChannelSummary(ch, today, stamp, summarise) == Ok([Send(NoActivityAsWritten(ch.name, today.isoDate))])
  {
  }

  /**
   * Once there are messages, the channel fails exactly when the summariser
   * fails or replies with nothing, and then nothing is sent; otherwise the
   * summary is sent, first action first.
   */
  lemma AfterReplyCases(reply: Result<string>, channelName: string, date: string, count: nat)
    ensures AfterReply(reply, channelName, date, count).Err? <==> reply.Err? || reply == Ok("")
    ensures AfterReply(reply, channelName, date, count).Ok? ==>
      var actions := AfterReply(reply, channelName, date, count).value;
      actions != [] && actions[0].Send?
  {
    if reply.Ok? && reply.value != "" {
      var summary := Summarised(reply, channelName, date, count).value;
      assert summary[0] == '#';
      assert WithoutNewlines(summary) != "";
      LongPlanStartsWithSend(summary);
    }
  }

  /** Any message with a character besides line breaks is sent, first action first. */
  lemma LongPlanStartsWithSend(message: string)
    requires WithoutNewlines(message) != ""
    ensures LongMessagePlan(message) != [] && LongMessagePlan(message)[0].Send?
  {
    if |message| > MaxLength {
      var parts := Parts(message);
      PartsNonEmpty(message);
      PausesBetweenParts(parts);
      assert SendPlan(parts)[2 * 0] == Send(PartText(parts, 0 + 1));
    }
  }

  /**
   * `generate_daily_summary()`: the crypto channel, then the equities channel.
   * A failure in the crypto channel (the summariser, or a send that raises)
   * leaves the equities channel untouched; the result is true exactly when
   * both channels succeed.
   */
  method GenerateDailySummary(crypto: Channel, equities: Channel, today: Today,
                              stamp: int -> string, summarise: string -> Result<string>)
    returns (cryptoActions: seq<Action>, equitiesActions: seq<Action>, ok: bool)
    ensures var c := ChannelRun(crypto, today, stamp, summarise);
      var e := ChannelRun(equities, today, stamp, summarise);
      && (ok <==> c.error.None? && e.error.None?)
      && cryptoActions == c.actions
      && equitiesActions == (if c.error.None? then e.actions else [])
  {
    var c := GenerateChannelSummary(crypto, today, stamp, summarise);
    cryptoActions, equitiesActions := c.actions, [];
    if c.error.Some? {
      return cryptoActions, equitiesActions, false;
    }
    var e := GenerateChannelSummary(equities, today, stamp, summarise);
    equitiesActions := e.actions;
    ok := e.error.None?;
  }

  /**
   * When no send raises, each channel's run is its whole plan, or nothing
   * and the summariser's error; a send that raises in the crypto channel
   * fails the day and skips the equities channel.
   */
  lemma {:induction false} RunOfChannel(ch: Channel, today: Today, stamp: int -> string, summarise: string -> Result<string>)
    ensures ch.sendFailure.None? ==>
      ChannelRun(ch, today, stamp, summarise) ==
        (match ChannelSummary(ch, today, stamp, summarise)
         case Ok(plan) => Run(plan, None)
         case Err(e) => Run([], Some(e)))
    ensures ChannelSummary(ch, today, stamp, summarise).Ok? && ch.sendFailure.Some? ==>
      (ChannelRun(ch, today, stamp, summarise).error.Some? <==>
        ch.sendFailure.value.index < Sends(ChannelSummary(ch, today, stamp, summarise).value))
  {
    var plan := ChannelSummary(ch, today, stamp, summarise);
    if plan.Ok? {
      ExecutedStops(plan.value, ch.sendFailure);
    }
  }
}
