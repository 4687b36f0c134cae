# yaronotifs, modelled in Dafny

yaronotifs is a Telegram intelligence router. Its **sources** produce `SourceMessage`s:

- the Telegram client, for the monitored channels;
- RSS feeds;
- JSON APIs, including CoinGecko's trending list;
- scraped web pages.

A **registry** starts, stops and health-checks the sources and hands their messages to a handler. The **pipelines** handle the messages:

- the translator pipeline translates Chinese news;
- the analyst pipeline summarises PDF research reports;
- the unified pipeline sends any message to the language model.

All three forward the result to the output channel. **Services** add a daily summary per channel, status reports and PDF downloads.

This project models the deterministic part of that system: the code between the network calls. Every call to Telegram, HTTP, the language model, the PDF libraries, the clock or Python's `hash` is an input to the model. Either it is a parameter, or it is a sequence of outcomes that one run goes through. An exception is an `Err` (or a `Some` error) carrying its message. Concurrent tasks (`asyncio.create_task`, `gather`) run one after another.

One Dafny module per source file:

| module | file | what it holds |
|---|---|---|
| `Wrappers` | — | `Option`, `Result` |
| `PyStr` | — | Python's string operations (`split`, `join`, `strip`, slices, `str(int)`), with their properties |
| `Helpers` | utils/helpers.py | `retry_async` as a loop against `Retry`; `detect_chinese`, `safe_filename`, `truncate_text` |
| `DailySummary` | services/daily_summary_service.py | the long-message splitter and sender, the message filter and sort, the summary numbering and header, the no-activity message |
| `Translator` | pipelines/translator.py | line chunking, chunk translation, the output format and the `process` decision tree |
| `TelegramClient` | core/telegram_client.py | the `_running` flag, the handler list, the reconnect loop |
| `SourceBase` | sources/base.py | `SourceMessage` and its validation, `BaseSource` |
| `Registry` | sources/registry.py | `SourceRegistry` as a class over the `sources` map and its insertion order |
| `Settings` | config/settings.py | environment defaults, routing, `validate` |
| `MessageHandler` | core/message_handler.py | the four counters, routing to tasks, the status report |
| `StatusReporter` | services/status_reporter.py | the enabled gate, report texts, uptime, the periodic task |
| `PipelineBase` | pipelines/base.py | `forward_to_target`, `_get_source_info`, the PDF test, the download path, the error notice and the `from:` footer |
| `Unified`, `Analyst` | pipelines/unified.py, pipelines/analyst.py | each run as the list of its effects (downloads, model calls, sends, clean-ups) and its result |
| `PdfService` | services/pdf_service.py | the download name, size accounting while streaming, retries, text extraction, the two clean-ups, over a map of stored files |
| `SourcePolling` | sources/ | the message queue, the deduplicating scan, the cut of remembered keys, and a `Poller` class holding them |
| `TelegramSource`, `RssSource`, `ApiSource`, `WebScraperSource` | sources/telegram_source.py, sources/examples/ | the conversions to `SourceMessage`, the key of each item, and each source's start, stop and poll |

Where a docstring and the code disagree, the model follows the code. The `start_all` docstring promises true only when every source started; the code returns true when at least one did (`Registry.SourceRegistry.StartAll`).

`services/status_reporter.py` and `core/message_handler.py` hold their emoji and bullets as mis-decoded UTF-8 (the bullet is U+00E2 U+20AC U+00A2). Their report texts use the characters the files hold.

## Model

| member | source | states |
|---|---|---|
| Helpers.RetryAsync | utils/helpers.py:30-57 | the wrapper's loop produces exactly the run `Retry` specifies: the calls made, the sleeps taken and the value or exception |
| Helpers.AttemptsCalls | utils/helpers.py:36-52 | from attempt `a` on, at most `max_attempts - a + 1` calls are made, with one sleep between consecutive calls |
| Helpers.AttemptsSleeps | utils/helpers.py:33-52 | the sleeps start at the current delay and each is `backoff` times the one before |
| Helpers.GeometricClosedForm | utils/helpers.py:33-52 | the k-th sleep is `delay * backoff^k` |
| Helpers.AttemptsOutcome | utils/helpers.py:36-45 | every call before the last raised a caught exception; the last call decides: its value, or its exception re-raised when not caught or on the final attempt |
| Helpers.RetryCallsAndSleeps | utils/helpers.py:30-57 | at most `max_attempts` calls, one fewer sleeps than calls, and the sleeps are `delay * backoff^k` |
| Helpers.RetryOutcome | utils/helpers.py:36-45 | the first successful call ends the run with its value; an uncaught exception, or any on the last attempt, is re-raised unchanged |
| Helpers.RetryAllFail | utils/helpers.py:36-45 | a call that always raises a caught exception is made `max_attempts` times with `max_attempts - 1` sleeps, and the last exception is raised |
| Helpers.RetryNoAttempts | utils/helpers.py:36-54 | with `max_attempts < 1` nothing is called and `raise None` fails with a TypeError |
| Helpers.DetectChinese | utils/helpers.py:60-75 | true exactly when some character lies in U+4E00..U+9FFF or U+3400..U+4DBF (false for the empty text) |
| Helpers.Sanitize | utils/helpers.py:90 | same length; each character of `<>:"/\|?*` or U+0000..U+001F becomes `_`, every other one is kept |
| Helpers.StemSuffix | utils/helpers.py:97 | stem and suffix concatenate back to the name; the suffix is empty or a dot followed by at least one non-dot character |
| Helpers.SafeFilename | utils/helpers.py:78-100 | the result is never empty and holds no unsafe character |
| Helpers.SafeStages | utils/helpers.py:90-98 | stripping and shortening keep the sanitised name free of unsafe characters |
| Helpers.SafeFilenameShort | utils/helpers.py:92-100 | a non-empty sanitised, stripped name within the limit is returned unchanged |
| Helpers.SafeFilenameLong | utils/helpers.py:96-100 | an over-long name keeps its extension; when the extension fits, the result is the stem cut to `max_length - len(ext)` plus the extension, exactly `max_length` long, or the `'unnamed_file'` fallback |
| Helpers.SafeFilenameLongExtension | utils/helpers.py:96-98 | with an extension longer than the limit the negative slice keeps part of the stem: `"ab.cd"` with limit 2 gives `"a.cd"`, longer than the limit |
| Helpers.SanitizeKeepsSafe | utils/helpers.py:90 | a name without unsafe characters is left as it is |
| Helpers.TruncateText | utils/helpers.py:120-134 | text within the limit is returned unchanged; longer text, when the suffix fits, becomes a prefix of it followed by the suffix, exactly `max_length` long |
| DailySummary.SplitIntoParts | services/daily_summary_service.py:137-164 | the paragraph and line loops produce exactly the parts `Parts` specifies |
| DailySummary.PartsNonEmptyAndBounded | services/daily_summary_service.py:143-164 | every part is non-empty, and a part longer than 4000 is a single paragraph or a single line of one (nothing is hard-cut) |
| DailySummary.PartsKeepText | services/daily_summary_service.py:141-164 | with line breaks deleted, the concatenated parts equal the message with line breaks deleted: no other character is lost or reordered |
| DailySummary.FoldParasKeepsText | services/daily_summary_service.py:143-160 | the paragraph loop keeps every character but line breaks, in order |
| DailySummary.FoldLinesKeepsText | services/daily_summary_service.py:151-158 | the line loop keeps every character but line breaks, in order |
| DailySummary.OverlongParagraphNotLineSplit | services/daily_summary_service.py:145-148 | an over-long paragraph arriving while a part is being built becomes its own part, uncut: `"a\n\n" + x` gives `["a", x]` |
| DailySummary.EmptyParagraphsVanish | services/daily_summary_service.py:143-164 | paragraphs that are all empty produce no part at all |
| DailySummary.PartsNonEmpty | services/daily_summary_service.py:141-164 | a message with any character other than a line break yields at least one part |
| DailySummary.SendParts | services/daily_summary_service.py:167-183 | the sending loop performs exactly the sends and pauses `SendPlan` specifies |
| DailySummary.PartMessage | services/daily_summary_service.py:168-179 | part 1 is sent as it is; a later part goes under its `📄 Part i/N` header, cut to `4000 - len(header)` characters only when header and part exceed 4096 |
| DailySummary.SendLongMessage | services/daily_summary_service.py:118-185 | `_send_long_message` performs exactly `LongMessagePlan`: one send when short, else the parts' plan |
| DailySummary.ShortMessageSentWhole | services/daily_summary_service.py:131-134 | a message of at most 4000 characters is sent once, unchanged |
| DailySummary.PausesBetweenParts | services/daily_summary_service.py:167-183 | part `j+1` is sent at position `2j`, and exactly one one-second pause follows each part but the last (N-1 pauses) |
| DailySummary.PlanShape | services/daily_summary_service.py:167-183 | for any texts, the plan alternates sends and one-second pauses, with a send first and last |
| DailySummary.PlanSends | services/daily_summary_service.py:167-179 | text `j` is sent at position `2j` of the plan |
| DailySummary.PlanSleeps | services/daily_summary_service.py:181-183 | the pauses are exactly the odd positions of the plan |
| DailySummary.PlanLength | services/daily_summary_service.py:167-183 | k parts give `2k - 1` actions when they are all of them, `2k` otherwise |
| DailySummary.PartTextShape | services/daily_summary_service.py:167-179 | the first part is sent untouched; a later part starts with its `📄 Part i/N` header followed by a prefix of the part, the whole part when it fits in 4096, and the text sent is at most 4096 characters |
| DailySummary.PartHeaderShort | services/daily_summary_service.py:173 | with fewer than a billion parts the header is at most 28 characters, so trimmed parts fit |
| DailySummary.Insert | services/daily_summary_service.py:227 | inserting adds exactly one message to the multiset |
| DailySummary.SortByDate | services/daily_summary_service.py:227 | the sort is a permutation of its input |
| DailySummary.SortByDateSorted | services/daily_summary_service.py:227 | the sorted messages are oldest first |
| DailySummary.GetChannelMessages | services/daily_summary_service.py:205-235 | the loop and sort return exactly `ChannelMessages`: the kept messages sorted, or `[]` on an exception |
| DailySummary.ScanKeeps | services/daily_summary_service.py:213-224 | every kept message has text, is not older than the cutoff and comes from the history |
| DailySummary.ChannelMessagesSortedAndRecent | services/daily_summary_service.py:213-231 | the result is oldest first, has only messages with text at or after the cutoff from the history, and is a permutation of what the loop kept |
| DailySummary.StopsAtOld | services/daily_summary_service.py:218-220 | nothing after the first message older than the cutoff affects the result |
| DailySummary.FailsOnError | services/daily_summary_service.py:233-235 | an exception while iterating, before any old message, makes the result `[]` |
| DailySummary.Complete | services/daily_summary_service.py:213-224 | with no exception and no old message, every message with text is returned |
| DailySummary.NumberMessages | services/daily_summary_service.py:254-258 | one entry per message, entry `j` numbered `j + 1` with that message's time stamp, sender and text |
| DailySummary.EntryShape | services/daily_summary_service.py:256-258 | entry `i` starts with `[i] {timestamp} \| ` and ends with the message text and a line break |
| DailySummary.CreateSummary | services/daily_summary_service.py:237-294 | `_create_summary` returns `Summarised` of the summariser's reply to the numbered messages joined by line breaks |
| DailySummary.SummarisedShape | services/daily_summary_service.py:278-290 | a failed call fails with its error; an empty reply is the error `Empty response from Gemini API`; otherwise the header `#dailysummary {date}` and channel line, then the stripped reply |
| DailySummary.Rule | services/daily_summary_service.py:385 | the horizontal rule is 50 characters |
| DailySummary.FooterAsWrittenHasNoRule | services/daily_summary_service.py:390-391 | as written, the footer is 164 characters and holds no 50-character rule |
| DailySummary.FooterHasRule | services/daily_summary_service.py:385-391 | the corrected footer holds the header's rule after a blank line and ends with `#dailysummary` |
| DailySummary.GenerateChannelSummary | services/daily_summary_service.py:78-116 | `_generate_channel_summary` yields exactly `ChannelRun`: the no-activity notice for a quiet channel, else the summary's send plan, carried out until a `send_message` raises; a summariser failure sends nothing; the exception is re-raised |
| DailySummary.SummariseAndSend | services/daily_summary_service.py:106-109 | with messages, a failed or empty reply from the model sends nothing and re-raises; otherwise the headed summary is sent in parts |
| DailySummary.QuietChannel | services/daily_summary_service.py:96-102 | a channel without messages plans exactly one send, the no-activity notice as the code builds it (with the footer of line 390) |
| DailySummary.AfterReplyCases | services/daily_summary_service.py:106-116 | with messages, the channel fails exactly when the summariser fails or replies with nothing; otherwise something is sent, a send first |
| DailySummary.LongPlanStartsWithSend | services/daily_summary_service.py:131-183 | a message with any character besides line breaks is sent, a send first |
| DailySummary.GenerateDailySummary | services/daily_summary_service.py:47-76 | crypto first, then equities; a crypto failure (the summariser, or a send that raises) leaves equities untouched; the result is true exactly when both channels run without an exception |
| DailySummary.ExecutedStops | services/daily_summary_service.py:96-116 | a plan is carried out whole exactly when no send raises; otherwise every action up to and including the failing send is performed, nothing after it, and its exception is the result |
| DailySummary.RunOfChannel | services/daily_summary_service.py:78-116 | with no failing send a channel performs its whole plan, or nothing and the summariser's error; with one, it fails exactly when the plan reaches that send |
| Translator.ExtractTextChoice | pipelines/translator.py:72-86 | `.text` wins over `.message`; the text comes back with no whitespace at either end and nothing else removed; `None` exactly when both are empty |
| Translator.SplitIntoChunks | pipelines/translator.py:135-166 | the line loop returns exactly the chunks `Chunks` specifies |
| Translator.ChunksFit | pipelines/translator.py:153-166 | every chunk fits in `max_size` unless it is one over-long line of the input; chunks of a split text have no whitespace at either end |
| Translator.ShortTextOneChunk | pipelines/translator.py:146-147 | a text of at most `max_size` characters is the single chunk `[text]` |
| Translator.ChunksKeepText | pipelines/translator.py:149-166 | splitting drops only whitespace: every other character survives, in order |
| Translator.LinedIsJoin | pipelines/translator.py:153-157 | the lines each followed by a line break are the lines joined by line breaks plus a final break |
| Translator.TranslateText | pipelines/translator.py:102-133 | the body of `_translate_text` returns exactly `Translated`: the direct translation, or the chunks' translations and pauses |
| Translator.FailureSticks | pipelines/translator.py:120-133 | once a chunk has failed, no later chunk is tried |
| Translator.TranslateUpToOutcome | pipelines/translator.py:120-127 | after k chunks, either all were translated in order with a half-second pause after each, or the first failure is the chunk after the pauses taken |
| Translator.TranslatedLong | pipelines/translator.py:114-133 | a long text's result is the chunks' translations, in order, joined by blank lines when every chunk succeeds, `None` as soon as one fails, with a pause after each chunk translated |
| Translator.TranslateNeverRetried | pipelines/translator.py:88-133 | `_translate_text` catches every exception, so the retry decorator calls it exactly once and never sleeps |
| Translator.Preview | pipelines/translator.py:182 | an original of at most 200 characters is kept; a longer one becomes its first 200 characters and `...` |
| Translator.FormatTranslationResult | pipelines/translator.py:168-190 | the message starts with the source heading and the translation and ends with the preview of the original |
| Translator.Process | pipelines/translator.py:24-70 | `process` performs exactly the run `TranslatorOutcome` specifies |
| Translator.ProcessResult | pipelines/translator.py:24-70 | at most one message is sent, as a Markdown message without a file, to the output channel; the result is true exactly when it was sent without error; no text sends nothing |
| Translator.ProcessForwardsOriginal | pipelines/translator.py:47-66 | text without Chinese, or whose translation fails or is empty, is forwarded as it is under the source heading; otherwise the translation is sent with the original quoted after it |
| TelegramClient.StepKeepsDelay | core/telegram_client.py:157-188 | one round of the reconnect loop keeps `reconnect_delay` among 5, 10, 20, …, 160, 300 and sleeps only for such a delay |
| TelegramClient.LoopKeepsDelay | core/telegram_client.py:157-188 | from the initial 5 seconds, the delay never leaves {5, 10, 20, 40, 80, 160, 300} and every reconnect wait is one of them, over any run of the loop |
| TelegramClient.StepCases | core/telegram_client.py:160-188 | a flood wait sleeps the seconds asked and keeps the delay; a disconnect waits the current delay, then doubles it up to 300; a successful connect resets it to 5; a connected client is not reconnected; a disconnect after `stop` leaves the loop |
| TelegramClient.LoopStopsWhenStopped | core/telegram_client.py:160-173 | once `_running` is false the loop ends, and later disconnects have no effect |
| TelegramClient.ClientWrapper.constructor | core/telegram_client.py:31-67 | a new wrapper is not running, not connected and has no handlers |
| TelegramClient.ClientWrapper.Start | core/telegram_client.py:71-107 | start succeeds exactly when no login is forced, the session file exists and the user is authorised; a missing session does not connect; only success sets `_running` |
| TelegramClient.ClientWrapper.Stop | core/telegram_client.py:109-121 | `_running` is always cleared; only a connected client is disconnected; a failed disconnect is swallowed |
| TelegramClient.ClientWrapper.IsRunning | core/telegram_client.py:123-130 | running exactly when the wrapper's flag is set and the client is connected |
| TelegramClient.ClientWrapper.OnNewMessage | core/telegram_client.py:132-149 | exactly one handler for the given chats is appended; nothing else changes |
| TelegramClient.ClientWrapper.RunUntilDisconnected | core/telegram_client.py:151-188 | the loop ends in the state, and performs the sleeps and connects, that `LoopFrom` gives for the client's episodes |
| Registry.SuccessCountPositive | sources/registry.py:118-127 | `start_all` reports success exactly when at least one source's `start()` returned `True`; the count never exceeds the number of sources |
| Registry.DeliveriesCoverStreams | sources/registry.py:160-214 | every message of every source's stream reaches the handler exactly once, in stream order, whatever the handler did with the earlier ones |
| Registry.SourceRegistry.constructor | sources/registry.py:44-47 | a new registry has no sources and is not running |
| Registry.SourceRegistry.Register | sources/registry.py:49-63 | a duplicate `source_id` is refused with an error and changes nothing; a new one is added under its id, after the ids already registered |
| Registry.SourceRegistry.Unregister | sources/registry.py:65-74 | a registered id is removed and the others keep their registration order; an unknown id changes nothing; `running` is unchanged |
| Registry.SourceRegistry.GetSource | sources/registry.py:76-89 | the source registered under the id, and an error exactly when there is none |
| Registry.SourceRegistry.ListSources | sources/registry.py:91-98 | exactly the registered ids, each once, in registration order |
| Registry.SourceRegistry.StartAll | sources/registry.py:100-127 | false without changing `running` when nothing is registered; otherwise `running` is set whatever the results, and the result is true exactly when some source returned `True` |
| Registry.SourceRegistry.StopAll | sources/registry.py:129-141 | `running` is cleared, the registrations stay, and every registered source's `stop()` is awaited in registration order with its outcome collected, so one that raises stops neither the others nor the caller |
| Registry.SourceRegistry.HealthCheck | sources/registry.py:216-231 | one entry per registered id, holding the source's answer, and `False` for a source whose check raised |
| Registry.SourceRegistry.ProcessMessages | sources/registry.py:143-214 | nothing happens without sources; otherwise the deliveries are those `Deliveries` specifies, and the errors logged are the deliveries whose handler raised |
| Registry.DeliverSource | sources/registry.py:173-214 | one source's messages each reach the handler once, in stream order, and the errors logged are exactly the deliveries whose handler raised, none stopping the loop |
| Registry.ErrorsGrow | sources/registry.py:208-214 | the error count grows by one exactly when the newest delivery's handler raised |
| Registry.KeysCount | sources/registry.py:91-98 | a list of distinct keys that enumerates the key set is as long as the set |
| SourceBase.Validate | sources/base.py:82-85 | a message is accepted exactly when its text is non-empty or it has a document, and then unchanged; otherwise the `ValueError` |
| SourceBase.NewMessage | sources/base.py:67-85 | a message built with the defaults is named "Unknown Source" with id "unknown", no URL, id or metadata, and exists exactly when it has text or a document |
| SourceBase.HasTextIffNonSpace | sources/base.py:91-93 | `has_text()` holds exactly when the text has a character that is not whitespace |
| SourceBase.HasDocument | sources/base.py:87-89 | a message has a document exactly when its document path is set |
| SourceBase.ValidWithoutTextOrDocument | sources/base.py:82-93 | validation and `has_text()` disagree: a whitespace-only message is accepted, yet has neither text nor a document |
| SourceBase.SourceLink | sources/base.py:95-99 | a Markdown link from the name to the URL when the URL is non-empty; the bare name otherwise |
| SourceBase.BaseSource.constructor | sources/base.py:152-162 | a new source has its name and id and is not running |
| SourceBase.BaseSource.HealthCheck | sources/base.py:194-201 | the default health check reports healthy exactly while the source is running |
| Settings.Getenv | config/settings.py:24-46 | the environment's value for the key, else the default |
| Settings.FromEnv | config/settings.py:17-46 | construction fails exactly when `TELEGRAM_API_ID` is not a number; the output channels and session name have their documented defaults |
| Settings.OutputChannel | config/settings.py:118-132 | the routed channel for a routed source, else `OUTPUT_CHANNEL_ID` |
| Settings.IsMonitoredChannel | config/settings.py:106-116 | a channel is monitored exactly when it is one of the four configured channel ids |
| Settings.RoutingCoversMonitored | config/settings.py:106-132 | the routing table holds exactly the monitored channels, each routed to the crypto or the equities channel; every other channel falls back to `OUTPUT_CHANNEL_ID` |
| Settings.RequiredErrorInjective | config/settings.py:86-99 | distinct required settings have distinct error texts |
| Settings.ErrorsUpToComplete | config/settings.py:84-99 | after the first k checks, an error is listed for a setting exactly when it is among them and missing |
| Settings.ErrorsUpToMembers | config/settings.py:84-99 | every listed error names some required setting |
| Settings.Validate | config/settings.py:77-104 | `True` exactly when no required setting is missing; otherwise a `ValueError` whose message lists every error |
| Settings.ValidateReportsAll | config/settings.py:77-104 | validation fails exactly when some required setting is missing, and then names each missing one, not just the first |
| StatusReporter.ContextBlock | services/status_reporter.py:114-118 | the context block is empty exactly when there is no context or it is empty |
| StatusReporter.ContextBlockLines | services/status_reporter.py:114-118 | for a context without line breaks, the block is the heading followed by one bullet line per entry, in the context's order |
| StatusReporter.ReportStartup | services/status_reporter.py:40-63 | a disabled reporter sends nothing; an enabled one sends the startup text with the start time and the channel count |
| StatusReporter.ReportPeriodicStatus | services/status_reporter.py:65-96 | a disabled reporter sends nothing; an enabled one sends the periodic text with the uptime and the four metrics |
| StatusReporter.ReportError | services/status_reporter.py:98-132 | a disabled reporter sends nothing; an enabled one sends the error alert with the type, the message and the context block |
| StatusReporter.UptimeFields | services/status_reporter.py:186-189 | hours lie in 0..23 and minutes in 0..59, and days, hours and minutes give back the elapsed time to the minute |
| StatusReporter.UptimeShape | services/status_reporter.py:179-198 | the uptime is its pieces joined by single spaces; it always ends with the minutes, and names the days and the hours exactly when there is at least one |
| StatusReporter.StartPeriodicUpdates | services/status_reporter.py:134-160 | a disabled reporter starts nothing; otherwise the task performs exactly the sleeps and reports `PeriodicFrom` gives for its rounds |
| StatusReporter.PeriodicStep | services/status_reporter.py:147-156 | a round that was not cancelled is followed by the next rounds |
| StatusReporter.PeriodicSleepsFirst | services/status_reporter.py:146-149 | every round begins with a sleep of `interval_hours` hours, before any report |
| StatusReporter.PeriodicStopsAtCancel | services/status_reporter.py:152-154 | the task ends at the first cancellation; later rounds never happen |
| StatusReporter.PeriodicContinuesAfterFailure | services/status_reporter.py:155-156 | a failing round costs one sleep and the task goes on with the next round |
| MessageHandler.HandleCounts | core/message_handler.py:84-123 | each message adds one to the total; a task is created exactly for a truthy chat id routed to the translator or the analyst, and for that chat; `errors` grows exactly when the pipeline lookup raised; the processed counters are untouched |
| MessageHandler.CompleteCountsOnce | core/message_handler.py:125-192 | a finished task adds one to exactly one of its own processed counter and `errors`, never to the total, and reports an error exactly when it did not succeed |
| MessageHandler.ApplyCounts | core/message_handler.py:84-192 | one event adds to the total exactly for a message, and to the outcome counters exactly for a finished task or a failed lookup; no counter goes down |
| MessageHandler.ReplayAccounting | core/message_handler.py:84-192 | from fresh counters, the total is the number of messages received, and the outcome counters sum to the finished tasks plus the failed lookups |
| MessageHandler.ReplayMonotone | core/message_handler.py:95-192 | the counters after a prefix of the events are never above those after all of them |
| MessageHandler.Handler.constructor | core/message_handler.py:29-63 | the counters start at zero; the reporter is built on the status destination |
| MessageHandler.Handler.HandleMessage | core/message_handler.py:84-123 | the counters and the created task are those `Handle` gives |
| MessageHandler.Handler.ProcessTask | core/message_handler.py:125-192 | the counters become those `Complete` gives; an error report is sent only by an enabled reporter, for a failure or an exception |
| MessageHandler.Handler.GetMetrics | core/message_handler.py:194-201 | a copy of the current counters |
| MessageHandler.Handler.SendStatusReport | core/message_handler.py:203-233 | nothing without a status destination; otherwise the report of the current counters, to that destination |
| PipelineBase.ForwardToTarget | pipelines/base.py:49-83 | a file path makes it a file send with the text as caption, no path a plain message; both to the output channel with the given parse mode; true exactly when the client did not raise |
| PipelineBase.SourceInfo | pipelines/base.py:85-104 | the chat's title when it has one, else a name starting with `@` or `Channel `; `Unknown Source` when the chat cannot be read |
| PipelineBase.SourceInfoNames | pipelines/base.py:96-102 | without a title, the name is `@` and the chat's username when it has one, else `Channel ` and the chat id |
| PipelineBase.CheckPdf | pipelines/analyst.py:56-61 | a document is a PDF exactly when its media type is the PDF one or its name ends with `.pdf`; the test raises exactly when the type is another and the file has no name |
| PipelineBase.PdfPathInDirectory | pipelines/analyst.py:119-122 | the path is the temporary directory, a `/`, then a non-empty sanitised name free of path separators and other unsafe characters |
| PipelineBase.PdfPathDotDot | pipelines/analyst.py:119-122 | a document named `..` keeps its name through `safe_filename`, so it is stored at `temp_dir/..`, the directory's parent |
| PipelineBase.ErrorNotice | pipelines/unified.py:77 | the notice starts with its lead and holds at most the first 200 characters of the error, and all of an error of at most 200 |
| PipelineBase.FooterShape | pipelines/analyst.py:146-150 | the output starts with the content unchanged and, for a one-line source, ends with the line `from: ` and the source, after the last line break |
| Unified.Process | pipelines/unified.py:38-82 | `process` performs exactly the run `Outcome` specifies: a document first, then text, else nothing; an exception sends the notice |
| Unified.ProcessText | pipelines/unified.py:84-136 | `_process_text` performs exactly the run `TextRun` specifies |
| Unified.ProcessDocument | pipelines/unified.py:138-204 | `_process_document` performs exactly the run `DocumentRun` specifies |
| Unified.ProcessDownloaded | pipelines/unified.py:168-204 | the steps after the download are exactly those `AfterDownload` specifies |
| Unified.Dispatch | pipelines/unified.py:59-70 | a message with a document takes the PDF way even when it has text, so its text never reaches the model; otherwise text or raw text takes the text way; a message with neither does nothing |
| Unified.NonPdfNoDownload | pipelines/unified.py:158-163 | a document that is not a PDF by type or name is refused before any download and nothing is sent |
| Unified.DocumentAtShape | pipelines/unified.py:166-204 | the download comes first; the clean-up of that same path comes last exactly when the download succeeded; the model sees only the document, without Chinese detection |
| Unified.CleanupOnEveryPath | pipelines/unified.py:154-204 | the temporary file is cleaned up exactly when it was downloaded, whatever fails afterwards, and the clean-up is the last step |
| Unified.AfterDownloadIsForward | pipelines/unified.py:174-195 | after the download, a true result means the model's non-empty reply, with its footer, went out as the caption of that PDF |
| Unified.TextIsForward | pipelines/unified.py:100-132 | for text, a true result means the model's non-empty reply, with its footer, went out as a message of its own |
| Unified.DocumentIsForward | pipelines/unified.py:138-199 | for a document, a true result means it was a named PDF and the footed reply went out as the caption of the file stored for it |
| Unified.TextContext | pipelines/unified.py:250-268 | a text run never downloads or cleans up; the model gets the detector's answer, the message's own source and its chat id |
| Unified.ReadErrorNotice | pipelines/unified.py:72-82 | when reading the message raises, the only thing sent is the failure notice with at most 200 characters of the error, and the result is false |
| Analyst.Process | pipelines/analyst.py:29-101 | `process` performs exactly the run `Outcome` specifies: the document and PDF checks, then the download, analysis and forward |
| Analyst.ProcessPdf | pipelines/analyst.py:66-101 | from the download on, the run is exactly `StoredAt`: the `finally` clause cleans up once the path is set |
| Analyst.ProcessStored | pipelines/analyst.py:70-96 | after the download, the run is exactly `AfterDownload`: analysis, formatting and forwarding, with the notice for whichever step raises |
| Analyst.SkippedSilently | pipelines/analyst.py:51-61 | a message without a document, or with one that is not a PDF, sends nothing and returns false |
| Analyst.StoredAtOrder | pipelines/analyst.py:66-101 | the download comes first; the model analyses the file only after a successful download; the clean-up of that file comes last exactly when the download succeeded |
| Analyst.StoredAtReports | pipelines/analyst.py:66-96 | exactly one request is sent: the notice of the step that raised, else the footed analysis with the PDF attached; the result is true exactly when nothing raised and the send succeeded |
| Analyst.ReportOrNotice | pipelines/analyst.py:29-132 | end to end, a PDF or a document whose name cannot be read gets exactly one request, the notice of the first exception or the footed analysis, and the result is true exactly when no exception was raised and the client sent it |
| Analyst.CleanupOnEveryPath | pipelines/analyst.py:47-101 | the last step is a clean-up exactly when a named PDF was downloaded, whatever failed afterwards, and nothing else cleans up |
| Analyst.NoticeShape | pipelines/analyst.py:86-94 | the notice goes out on its own, is the fixed lead plus at most the first 200 characters of the error |
| PdfService.LastSegment | services/pdf_service.py:45 | the last segment of the URL holds no `/`, and `document.pdf` stands in for an empty one |
| PdfService.DownloadName | services/pdf_service.py:44-50 | the stored name always ends in `.pdf` and holds no unsafe character |
| PdfService.WithPdfExtension | services/pdf_service.py:49-50 | a safe name gains `.pdf` and stays safe |
| PdfService.DownloadNameKeepsBase | services/pdf_service.py:44-50 | the name is the sanitised given name, or the URL's last segment when none is given, with `.pdf` added exactly when it does not already end so |
| PdfService.StreamTotal | services/pdf_service.py:71-82 | the chunk loop stops exactly when the whole body goes over the limit, and otherwise returns the body's full size |
| PdfService.FetchWithinLimit | services/pdf_service.py:61-85 | a stored download holds every byte of the body and never more than `max_size_mb` MiB; a body over the limit always fails, even with no `Content-Length` |
| PdfService.DownloadRetriesOversize | services/pdf_service.py:28-90 | a body over the limit is an ordinary failure, so it is retried, and a second attempt that fits succeeds after one two-second sleep |
| PdfService.DownloadAttemptsBounded | services/pdf_service.py:28-90 | whatever the server does, one to three attempts, with sleeps of 2 s and then 4 s between them; a success returns the stored path |
| PdfService.PageTexts | services/pdf_service.py:145-146 | one text per page, `''` for a page without text |
| PdfService.ExtractedKeepsPages | services/pdf_service.py:139-160 | the text has no whitespace at either end and loses no other character of the pages it keeps; the fallback reader runs only after the first one raised, and what the first collected is kept |
| PdfService.ExtractTextSync | services/pdf_service.py:127-160 | the two page loops return exactly `Extracted`: the pages joined by blank lines and stripped, or the fallback's error |
| PdfService.SweepDeletesStale | services/pdf_service.py:186-203 | with no failure and every listed path present, the sweep deletes exactly the listed files older than the cutoff, keeps all the others unchanged, and counts what it deleted |
| PdfService.CountStaleFrame | services/pdf_service.py:192-195 | the stale count from the k-th listed file on depends only on the files listed from there |
| PdfService.SweepOnlyStale | services/pdf_service.py:186-203 | whatever fails, the sweep deletes only listed files older than the cutoff, at most one per listed path, and leaves every other file as it was |
| PdfService.PdfService.constructor | services/pdf_service.py:23-26 | the service holds the temporary directory, the size limit and the files present |
| PdfService.PdfService.DownloadAttempt | services/pdf_service.py:29-90 | one attempt returns the stored path exactly when the fetch succeeds, and the error otherwise; on failure the path is removed; no other file changes |
| PdfService.PdfService.Store | services/pdf_service.py:55-90 | the size stored at the path is the whole body exactly when the header and the running total stay within the limit and the stream is not broken; on any failure the path is removed |
| PdfService.PdfService.WriteBody | services/pdf_service.py:70-82 | the chunk loop's total is `Stream`'s; the file holds that many bytes, or is removed once the limit is passed; a stored file never exceeds the limit |
| PdfService.PdfService.ExtractText | services/pdf_service.py:92-125 | a missing file gives `FileNotFoundError`; otherwise the extraction's text or error |
| PdfService.PdfService.CleanupFile | services/pdf_service.py:162-174 | the file is removed unless `unlink` raises, which is logged and not raised |
| PdfService.PdfService.CleanupOldFiles | services/pdf_service.py:176-203 | the deleted count and the files left are those of the sweep with cutoff `now - max_age_hours * 3600` |
| SourcePolling.MessageQueue.constructor | sources/telegram_source.py:43 | a new queue is empty |
| SourcePolling.MessageQueue.Put | sources/telegram_source.py:103 | the message is appended behind those already queued |
| SourcePolling.MessageQueue.Get | sources/telegram_source.py:187-193 | the oldest message is taken off the front; an empty queue gives nothing and stays empty |
| SourcePolling.NextMessage | sources/telegram_source.py:177-196 | a stopped source yields nothing and leaves the queue alone; a running one yields the oldest queued message, in arrival order |
| SourcePolling.Scan | sources/examples/rss_source.py:130-155 | the poll loop's remembered keys, queue and new count are exactly those `ScanFrom` gives; an exception ends the loop and keeps what was done |
| SourcePolling.ScanAccounting | sources/examples/rss_source.py:133-152 | a poll remembers exactly the keys of the messages it queued, one per message, none seen before and no two alike |
| SourcePolling.ScanCovers | sources/examples/rss_source.py:133-152 | after a poll that nothing interrupted, every item's key is remembered unless the item was skipped before being remembered |
| SourcePolling.ScanQuiet | sources/examples/rss_source.py:136-144 | a poll whose every item is already remembered or skipped queues nothing and remembers nothing new |
| SourcePolling.RescanQueuesNothing | sources/examples/rss_source.py:136-137 | polling the same items again, with at least the keys the first poll remembered, queues nothing: no item is delivered twice |
| SourcePolling.SubsetOfSize | sources/examples/rss_source.py:158-159 | a set of at least n keys has a subset of exactly n keys |
| SourcePolling.Trim | sources/examples/rss_source.py:158-159 | more than 1000 remembered keys are cut to 500 of them; up to 1000 are kept as they are |
| SourcePolling.DefaultId | sources/examples/rss_source.py:52-53 | a default source id is the prefix followed by at least one digit and nothing but digits |
| SourcePolling.Poller.constructor | sources/examples/rss_source.py:60-61 | a new poller is stopped, remembers no key and has an empty queue |
| SourcePolling.Poller.Stop | sources/examples/rss_source.py:104-107 | the poller stops and keeps its remembered keys |
| SourcePolling.Poller.Poll | sources/examples/rss_source.py:109-162 | the queue grows by exactly the messages the scan queued, `new_count` counts them, and the keys are cut back after a poll that nothing interrupted |
| TelegramSource.ChatPartStripsPrefix | sources/telegram_source.py:133-136 | the `-100` replacement strips the channel prefix at the start of the id and nothing else; a positive id is kept whole |
| TelegramSource.NoMinusNoPrefix | sources/telegram_source.py:135 | digits alone never contain `-100`, so the rest of the id is untouched |
| TelegramSource.DownloadTarget | sources/telegram_source.py:144-156 | a download is attempted only for a PDF, by type or name, whose name can be read |
| TelegramSource.ConvertContract | sources/telegram_source.py:110-175 | a converted message carries the chat's id, link and name and its text; it has a document exactly when a PDF was downloaded; the conversion fails exactly when the PDF test raises or there is neither text nor a downloaded document |
| TelegramSource.DownloadFailureKeepsText | sources/telegram_source.py:150-159 | a text message whose PDF download fails is still converted, with its text and without the document |
| TelegramSource.TelegramSource.constructor | sources/telegram_source.py:26-43 | the monitored channels default to none; the queue is empty; no client exists and the source is not running |
| TelegramSource.TelegramSource.Start | sources/telegram_source.py:45-74 | the client is created; the start succeeds exactly when the client starts and nothing raises; only success sets `running` |
| TelegramSource.TelegramSource.Stop | sources/telegram_source.py:76-82 | `running` is cleared, and the client is stopped exactly when one was created |
| TelegramSource.TelegramSource.OnMessage | sources/telegram_source.py:85-108 | a converted message is appended to the queue; one whose conversion raises is dropped and the queue is unchanged |
| RssSource.EntryKey | sources/examples/rss_source.py:133 | the key is the entry's id, else its link, else the title's hash; an entry without a title raises even when it has an id |
| RssSource.Entries | sources/examples/rss_source.py:130-152 | entry j is keyed by `EntryKey`; a too-old entry is skipped; any other fails exactly on an empty content list and otherwise is its conversion |
| RssSource.ConvertContract | sources/examples/rss_source.py:167-202 | a converted entry has the bold title (`Untitled` when it has none), a blank line, then the first content value or else the summary; its timestamp is the publication time when known; its link and id are the entry's; conversion fails exactly on an empty content list |
| RssSource.TooOldSkipped | sources/examples/rss_source.py:139-144 | an entry older than `max_age` is skipped before conversion and not remembered |
| RssSource.StaleFeedQueuesNothing | sources/examples/rss_source.py:130-152 | a feed whose entries all have titles and are all too old queues nothing and remembers nothing |
| RssSource.SameIdQueuedOnce | sources/examples/rss_source.py:133-152 | two entries with the same id are one article: the second is skipped once the first is queued |
| RssSource.RssSource.constructor | sources/examples/rss_source.py:34-61 | the name defaults to "RSS Feed", the id to `rss_` and the URL's hash; the intervals are turned into seconds |
| RssSource.RssSource.Start | sources/examples/rss_source.py:63-102 | the start succeeds exactly when the feed is fetched and not bozo; a source still named "RSS Feed" takes the feed's title |
| RssSource.RssSource.Stop | sources/examples/rss_source.py:104-107 | the source stops and keeps its remembered keys |
| RssSource.RssSource.PollOnce | sources/examples/rss_source.py:109-165 | a feed that cannot be fetched, or a bozo one, changes nothing; otherwise the poll scans the feed's entries as `Entries` gives them |
| ApiSource.HeadersAuthorization | sources/examples/api_source.py:67-74 | the bearer header is added exactly when a key is given; every other header is the caller's |
| ApiSource.DefaultTransform | sources/examples/api_source.py:164-205 | the transform's loop returns exactly `DefaultItems`: the unwrapped list, or a single dict, as items |
| ApiSource.ItemsFromContract | sources/examples/api_source.py:189-205 | the transform succeeds exactly when every kept text is hashable; it gives one ready item per kept element, carrying that element's text, in order |
| ApiSource.TrendingTransform | sources/examples/api_source.py:245-274 | the trending loop returns exactly `TrendingItems` |
| ApiSource.LinesFromContract | sources/examples/api_source.py:256-262 | one line per listed coin, at most seven, numbered from 1, in the order of the coins |
| ApiSource.LinesFromFails | sources/examples/api_source.py:256-262 | the trending transform raises exactly when one of the listed coins' lines raises |
| ApiSource.TrendingShape | sources/examples/api_source.py:245-274 | missing or empty coins give no item; otherwise exactly one, with the header, one line per listed coin, and the hour's id |
| ApiSource.Entries | sources/examples/api_source.py:132-150 | item j is keyed by its `id`, else its text's hash, exactly when the text is present and both are hashable; no item is skipped; a message of this source with `str()` of the key as its id exactly when the text is truthy |
| ApiSource.DefaultItemsQueueable | sources/examples/api_source.py:135-203 | every default item is keyed exactly when its id is hashable, and then converts to a message |
| ApiSource.TrendingItemReady | sources/examples/api_source.py:264-272 | the trending item has a truthy text and the id of its hour |
| ApiSource.KeyOfReadyItem | sources/examples/api_source.py:135 | an item with a hashable text and a hashable id is keyed by that id |
| ApiSource.TrendingOncePerHour | sources/examples/api_source.py:266-272 | once an hour's trending item is remembered, polls in the same hour queue nothing, whatever the coins are by then |
| ApiSource.ApiSource.constructor | sources/examples/api_source.py:35-74 | the id defaults to `api_` and the URL's hash; the headers carry the bearer key when given; the transform defaults to the built-in one |
| ApiSource.ApiSource.CoinGeckoTrending | sources/examples/api_source.py:236-243 | the CoinGecko source: its fixed name, id, hourly interval, no headers and the trending transform |
| ApiSource.ApiSource.Start | sources/examples/api_source.py:76-107 | the start succeeds exactly when the test request answers 200 or 201 |
| ApiSource.ApiSource.Stop | sources/examples/api_source.py:109-112 | the source stops and keeps its remembered keys |
| ApiSource.ApiSource.ApplyTransform | sources/examples/api_source.py:68-130 | the default, trending or caller's transform, as configured |
| ApiSource.ApiSource.PollOnce | sources/examples/api_source.py:114-162 | a failed request or a status other than 200 changes nothing; otherwise the transformed items are scanned as `Entries` gives them |
| WebScraperSource.ItemUrl | sources/examples/webscraper_source.py:179-185 | no link or no `href` gives no URL; an `href` starting with `/` is joined to the page URL; any other is kept |
| WebScraperSource.ScrapePage | sources/examples/webscraper_source.py:150-193 | the scrape returns exactly `Scraped`: the error of a failed request, no items for a status other than 200, else the items |
| WebScraperSource.ItemsFromContract | sources/examples/webscraper_source.py:171-191 | elements without text are skipped; item i is the text and link of the i-th element with text, in page order, and there are exactly as many items as such elements |
| WebScraperSource.Entries | sources/examples/webscraper_source.py:119-137 | item j is keyed by its text's hash and is a message of this source, stamped now, with its own text and link, exactly when its text is not empty |
| WebScraperSource.ScrapedItemQueued | sources/examples/webscraper_source.py:121-135 | a scraped item is keyed by its text's hash and converts to a message with its text; an element without a link gives a message without a URL |
| WebScraperSource.WebScraperSource.constructor | sources/examples/webscraper_source.py:35-67 | the name defaults to "Web Scraper", the id to `scraper_` and the URL's hash, the headers to the bot's user agent |
| WebScraperSource.WebScraperSource.Start | sources/examples/webscraper_source.py:69-103 | the start succeeds exactly when the test request answers 200 |
| WebScraperSource.WebScraperSource.Stop | sources/examples/webscraper_source.py:105-108 | the source stops and keeps its remembered keys |
| WebScraperSource.WebScraperSource.PollOnce | sources/examples/webscraper_source.py:110-148 | a scrape that raises changes nothing; otherwise the items are scanned as `Entries` gives them |

## Left out

- `services/gemini_service.py` is not part of this model. It is a thin wrapper over `google.generativeai`, which is not shown, and its prompts are fixed templates. The language model is an input to every pipeline: a function, or a sequence of answers and exceptions.
- Process bootstrap, interactive scripts and logging (`main.py`, `scripts/`, `test_message.py`, `utils/logger.py`) are not modelled: they are terminal I/O and set-up, with no logic of the router in them. `main.py` also reads a `processed` metric that the handler never defines.
- `format_file_size` is not modelled: it is floating-point division and formatting. For the same reason the "PDF too large" error of `PdfService` leaves out the formatted size, and delays are reals only where the source computes them.
- Concurrency is not modelled. The tasks that `asyncio.create_task` and `gather` start run one after another, in order, over sequences of outcomes. Nothing is claimed about non-blocking behaviour, cancellation timing or interleavings.
- Sleeps, timeouts, `datetime.now()`, `strftime` and the comparison between naive UTC and local time in the daily summary's cutoff are inputs. Timestamps are whole seconds, formatted dates are strings passed in, and the cutoff is a number given to `DailySummary.GetChannelMessages`.
- Telegram, aiohttp, feedparser, BeautifulSoup, `urljoin`, PyPDF2/pypdf and the file system are inputs. Their results and exceptions are `Result` values or sequences of outcomes. The pipelines' sends are effects in a trace, and the PDF service's files form a map from paths to sizes and times.
- Python's `hash()` is a function passed in (`titleHash`, `textHash`, `urlHash`). It is not stable across runs, so nothing is proved about which ids collide.
- Names the router uses but never defines are inputs: `get_pipeline_for_channel`, `_format_via_source` and `_get_message_link`. `register_handlers` of the message handler reads the undefined `ALL_CHANNELS`, so it is left out.
- `send_message`, `send_file` and `download_media` of the Telegram client wrapper are pass-throughs to Telethon. Their outcome is an input to the pipelines.
- The process lock file and the daily scheduler are absent from the code, so they are not modelled. The daily summary runs only when it is called.
- A source's own `get_messages` stream is modelled once, by `SourcePolling.NextMessage`, for all four sources. The registry's `process_messages` takes each source's messages as a sequence: a stream that raises part-way is not modelled.
- SourcePolling.Trim: keeps an arbitrary 500-element subset of the remembered keys. Python's choice follows the iteration order of its set, which the model does not fix.
- PipelineBase.SourceInfo: its own contract names only the prefixes `@` and `Channel ` of a title-less chat. The exact names are the contract of `PipelineBase.SourceInfoNames`.
- PipelineBase.PdfPathInDirectory: does not promise that the stored file lies inside the temporary directory. `safe_filename` keeps the names `.` and `..`, which name the directory itself and its parent (`PipelineBase.PdfPathDotDot`).
- DailySummary.CreateSummary: the summariser is one function of the numbered messages. The channel name, message count and date that the prompt also holds are fixed inside it, and the same function serves both channels.
- Helpers.SafeFilenameLong: the length bound is stated only for an extension that fits in `max_length`. For a longer extension the result is longer than the limit, which `Helpers.SafeFilenameLongExtension` shows.
- Source metadata is simplified. The RSS entry's tags are dropped, and only the author is kept. The API item's metadata is dropped. The Telegram source keeps only `chat_id`, not the raw message object.
- ApiSource: a `url` that is not a string is left out (only strings are modelled). A `text` that is not a string is queued as its `str()`, while Python queues the value itself, which then raises `AttributeError` in `has_text()` and wherever the text is stripped. `str()` of a list or a dict is the empty string in the model. JSON floats are not modelled. Python's merging of `True` and `1` as dictionary keys is not modelled. A timestamp that is not a number is taken as the current time. The header dictionary is copied, not shared with the caller.
- The text of the `TypeError` that `re.sub` raises on `None` in the analyst pipeline depends on the Python version. The model uses one fixed text (`SubNoneError`).
- The report and status texts of `services/status_reporter.py` and `core/message_handler.py` use the mis-decoded characters the files hold, not the emoji intended.
- The RSS key `entry.get('id', entry.get('link', str(hash(entry.title))))` evaluates its default first. An entry without a title aborts the poll even when it has an id. This is modelled as written (`RssSource.EntryKey`).
- `_split_into_chunks` of the translator can produce an empty chunk when a chunk holds only whitespace. This is modelled as written.
- The dictionary that `_build_message_context` of the unified pipeline returns is the record `Unified.MessageContext`, with one field per key. Key order is not modelled.

## Findings

| source | as written | input that shows it | evidently intended | confidence | as-written member | corrected member |
|---|---|---|---|---|---|---|
| services/daily_summary_service.py:390 | `footer = "\n\n─" * 50 + "\n"` repeats the line breaks with the rule character, giving 50 lines that each hold one `─` | any channel with no messages in the period: the no-activity message ends with 150 characters of breaks and single rule characters, and the header's 50-character rule occurs nowhere in the footer | `"\n\n" + "─" * 50 + "\n"`, the same rule as the header at line 385 after a blank line | not executed | DailySummary.FooterAsWrittenHasNoRule | DailySummary.FooterHasRule |
