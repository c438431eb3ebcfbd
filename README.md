# EOM bot export pipeline, modelled in Dafny

The EOM ("end of month") bot is a Discord bot with one export command, `/eom <month> [year] [include_bots]`.
It resolves the month to a date window. It then walks the guild's channels and collects every non-bot message in
that window as an 8-field record. Finally it writes the records to a new Google Sheet: a header row, then one row
per record, appended in batches of 100. This project models the four pieces of sequential logic in `eom_bot.py`
and proves what they promise:

- `MonthWindow` (`get_month_dates`): a case-insensitive lookup in the 24-token month table, then the window from
  day 1 at 00:00:00 to the last day at 23:59:59. `Calendar` holds the proleptic Gregorian leap-year and
  month-length rules that `calendar.monthrange` uses.
- `Collector` (`collect_messages`): an imperative, fault-tolerant loop over the guild's channels, with its counter
  and progress callback. The callback is a `ProgressSink` object that logs its calls. The method is proved equal
  to a left fold (`Collect`), and the fold's properties are proved as lemmas.
- `SheetExport` (`create_google_sheet`): a `Worksheet` class whose `rows` grow with `append_row`/`append_rows`.
  The batching loop is proved to produce `[Header] + Rows(messages)` for any batch size.
- `Handler` (`export_messages`): the two guards, then resolve, collect and export, in the source's order.
- `Text` models the Python built-ins the code relies on: `str.lower`, `s[:n]`, `str(int)` and `str.title`.
- `Wrappers` holds `Option` and `Result`.

Modelling choices:

- A channel is a value. It records whether it is a `discord.TextChannel`, whether the bot has
  `read_message_history`, and how iterating its history ends. The history either completes (`Complete`) or
  raises `discord.Forbidden` or another exception after yielding a prefix (`Forbidden`, `Failed`). The history
  stands for what `channel.history(after=start, before=end, oldest_first=True)` yields for the window.
- Which callback calls raise is given by the sink's `raisesAt` set of call numbers. The handler's own
  `update_progress` never raises, so the handler uses a sink with an empty set.
- The spreadsheet backend is a `Backend(acceptedWrites, errorText)`. It accepts the first `acceptedWrites` write
  calls and fails the next one. This gives the re-wrapped exception and the partly written sheet.

Behaviours of the code worth knowing, each proved below:

- Only a channel whose history completes calls the progress callback. A channel that raises `Forbidden` or
  another error is counted but not reported. A text channel without history permission is neither counted nor
  reported, but it still counts in `total_channels`. So with three text channels, one of them forbidden, the
  callback fires twice, not three times (`ForbiddenChannelScenario`). With an unreadable text channel and a
  callback that does not raise, no progress report made during collection reaches `total_channels`, so none of
  them shows 100% (`ReportsStayBelowTotal`).
- A callback that raises does not abort collection, but the code then counts the channel twice (lines 135 and
  141/145). The next report can then exceed the total (`RaisingCallbackOvercounts`).
- The command takes `include_bots`, but the handler never passes it on, so bot messages are always dropped.
- The window runs from 00:00:00 on day 1 to 23:59:59 on the last day. Read as an inclusive interval, the pair
  covers exactly the month (`WindowCoversMonth`).
- The `datetime` constructor converts the year to a C `int` before it checks the range 1..9999. A year outside
  the C `int` range raises `OverflowError`, not `ValueError`. The handler then reports it as a failed export
  ("An error occurred: ..."), not as an invalid request (`HugeYearOverflows`, `ExportMessages`). The messages
  follow CPython on a platform with a 64-bit C `long`.

## Model

| member | source | states |
|---|---|---|
| `Text.Lower` | eom_bot.py:85 | lowering keeps the length and leaves no upper-case letter; each character is lowered on its own |
| `Text.LowerIdempotent` | eom_bot.py:85 | lowering twice is lowering once |
| `Text.Take` | eom_bot.py:128 | `s[:n]` is a prefix of `s` of length min(len(s), n) |
| `Text.NatToDecimal` | eom_bot.py:176-180 | `str(n)` is a non-empty run of decimal digits with no leading zero unless n is 0 |
| `Text.DecimalRoundTrip` | eom_bot.py:176-180 | the digits `str(n)` writes denote n again |
| `Text.DecimalInjective` | eom_bot.py:176-180 | different ids and counts give different cells |
| `Text.IntToDecimal` | eom_bot.py:90 | `str(year)` starts with '-' exactly for a negative year, and the digits after the sign have no leading zero and denote the year's magnitude |
| `Text.IntDecimalInjective` | eom_bot.py:90 | different years give different texts |
| `Text.TitleCase` | eom_bot.py:295 | `str.title` keeps the length |
| `Text.TitleCaseKeepsLetters` | eom_bot.py:295 | title-casing changes letter case only: lowered, it equals the lowered input |
| `Text.TitleCaseShape` | eom_bot.py:295 | a letter starting a word is upper case, and a letter after a letter is lower case |
| `Calendar.IsLeap` | eom_bot.py:91 | the Gregorian rule behind `calendar.isleap`: leap years are multiples of 4; a century year is leap exactly when it is a multiple of 400 |
| `Calendar.LeapCycle` | eom_bot.py:91 | the leap-year pattern repeats every 400 years |
| `Calendar.DaysInMonth` | eom_bot.py:91 | months have 28..31 days; 31 exactly for months 1,3,5,7,8,10,12; 30 exactly for 4,6,9,11; February has 29 exactly in a leap year |
| `Calendar.YearLength` | eom_bot.py:91 | the twelve month lengths add up to 366 in a leap year and 365 otherwise |
| `Calendar.FebruaryExamples` | eom_bot.py:91 | February has 29 days in 2024 and 2000, and 28 in 1900 and 2023 |
| `MonthWindow.TableMonths` | eom_bot.py:70-83 | every token maps to a month number 1..12 |
| `MonthWindow.MonthError.Message` | eom_bot.py:87-90 | `str(e)` of each exception: an invalid month's text follows "Invalid month: " unchanged; an out-of-range year reads "year ", then `str(year)`, then " is out of range"; a year that is no C int gives the argument parser's overflow text, by the year's width |
| `MonthWindow.LookupMonth` | eom_bot.py:70-85 | the lookup succeeds exactly when the lowered input is one of the table's tokens, and yields that token's month |
| `MonthWindow.GetMonthDates` | eom_bot.py:64-94 | an unknown token fails with `InvalidMonth` carrying the original text; after the lookup, a year outside the C int range fails with the `OverflowError` case and a C int outside 1..9999 with the `ValueError` case; otherwise both bounds are valid date-times in the given year and month, with start before end |
| `MonthWindow.WindowCoversMonth` | eom_bot.py:89-92 | a valid date-time lies within the window, both bounds included, exactly when it falls in that year and month |
| `MonthWindow.WindowEndsOnLastDay` | eom_bot.py:91-92 | the end is on the month's last day: the day after it is not a valid date |
| `MonthWindow.LookupIgnoresCase` | eom_bot.py:85 | two inputs with the same lower-case form resolve to the same month and window |
| `MonthWindow.TokenResolves` | eom_bot.py:70-85 | every table token, written in any case, resolves to its month |
| `MonthWindow.UnknownTokenRejected` | eom_bot.py:85-87 | any other text is rejected, with message "Invalid month: " followed by the input unchanged |
| `MonthWindow.TableQuirks` | eom_bot.py:75-79 | 'sept' maps to 9, and 'may' is the only token for May |
| `MonthWindow.HugeYearOverflows` | eom_bot.py:90 | "May" with year 2^32 raises the `OverflowError` "signed integer is greater than maximum", which is no `ValueError` |
| `MonthWindow.February2024` | eom_bot.py:89-92 | "February" 2024 gives 2024-02-01 00:00:00 to 2024-02-29 23:59:59 |
| `Collector.ToRecord` | eom_bot.py:123-132 | the `message_data` of a message carries its timestamp, author, ids and the channel name, counts its attachments and reactions, and keeps a prefix of its content of length min(len, 1000) |
| `Collector.MessagesToRecords` | eom_bot.py:113-133 | one channel's records are no more than its messages, and each comes from a non-bot message it yielded |
| `Collector.TextChannelCount` | eom_bot.py:100-101 | `total_channels` never exceeds the number of channels |
| `Collector.Visit` | eom_bot.py:104-146 | one pass of the channel loop only appends records and callback calls (at most one), raises the counter by at most 2, and leaves everything unchanged for a skipped channel |
| `Collector.Collect` | eom_bot.py:104-146 | after the loop there are no more callback calls than readable text channels, and the counter is at most twice their number |
| `Collector.ProgressSink.Notify` | eom_bot.py:136-137 | a callback call is logged, and it raises exactly when its call number is in `raisesAt` |
| `Collector.AppendChannelMessages` | eom_bot.py:113-133 | the inner loop appends, in order, one record for each non-bot message the history yields |
| `Collector.VisitChannel` | eom_bot.py:104-146 | the loop body, with its `continue` guards and callback call, performs exactly one step of the fold and logs the call it makes |
| `Collector.CollectMessages` | eom_bot.py:97-148 | the loop returns the records of the fold `Collect` over the channels, and appends the fold's callback calls to the sink's log |
| `Collector.CollectIsConcatenation` | eom_bot.py:104-148 | the records are the concatenation, in channel order, of each readable text channel's non-bot records; a channel that raised keeps what it yielded before |
| `Collector.NonBotMessagesKept` | eom_bot.py:119-133 | every non-bot message a channel yields produces its record |
| `Collector.RecordsComeFromNonBotMessages` | eom_bot.py:119-133 | every record comes from a non-bot message of a readable text channel; it carries that channel's name, the message's fields and counts, and content truncated to at most 1000 characters |
| `Collector.SkippedChannelsInvisible` | eom_bot.py:104-111 | for a fixed total, inserting a non-text channel, or a text channel without history permission, changes no record, counter or callback call |
| `Collector.SkippedChannelsWithCountedTotal` | eom_bot.py:100-111 | with `total_channels` counted from the channels: inserting a non-text channel changes nothing; inserting an unreadable text channel changes no record, counter, reported count or channel name, but raises every call's total by one |
| `Collector.EventsFollowCompletedChannels` | eom_bot.py:135-137 | the callback is called once for each readable text channel whose history completed, in order, with that channel's name and a constant total; without a callback there are no calls |
| `Collector.ProcessedStrictlyIncreases` | eom_bot.py:135-145 | the `processed` argument strictly increases across calls and never exceeds the final counter |
| `Collector.ReadableTextCount` | eom_bot.py:100-111 | readable text channels are never more than text channels |
| `Collector.QuietProcessedBound` | eom_bot.py:100-145 | with a callback that does not raise, the counter ends at the number of readable text channels, and no call reports more than `total_channels` |
| `Collector.ReportsStayBelowTotal` | eom_bot.py:100-137 | with a callback that does not raise and an unreadable text channel, every call reports fewer processed channels than its total |
| `Collector.EventsTotalIndependent` | eom_bot.py:100-137 | the total passed to the callback changes only the calls' `total` field |
| `Collector.RaisingCallbackOvercounts` | eom_bot.py:135-146 | with two text channels and a first callback call that raises, the second call reports 3 of 2 |
| `Collector.ForbiddenChannelScenario` | eom_bot.py:104-146 | with three text channels and the middle one forbidden, the records come from the other two and the callback fires twice |
| `SheetExport.ToRow` | eom_bot.py:171-181 | a row has one cell per header column |
| `SheetExport.RowRoundTrip` | eom_bot.py:171-181 | reading a row back, cell by cell, gives the record it came from |
| `SheetExport.Chunks` | eom_bot.py:167-168 | there are slices exactly when there are messages, and never more slices than messages |
| `SheetExport.ChunksFlatten` | eom_bot.py:166-168 | joining the slices `messages[i:i+batch_size]` gives back the messages |
| `SheetExport.ChunkSizes` | eom_bot.py:166-168 | there are ceil(n / batch_size) slices, each non-empty and at most batch_size long |
| `SheetExport.SlicedRowsAreRows` | eom_bot.py:165-185 | for any positive batch size, the rows built for the slices, joined, are one row per record in input order |
| `SheetExport.BatchSizeIrrelevant` | eom_bot.py:165-185 | two positive batch sizes give the same rows |
| `SheetExport.BatchesOf250` | eom_bot.py:166-185 | 250 records in batches of 100 are appended in calls of 100, 100 and 50 rows |
| `SheetExport.FailureMessage` | eom_bot.py:202 | the re-raised text is the fixed prefix "Failed to create Google Sheet: " followed by the cause unchanged |
| `SheetExport.Worksheet.constructor` | eom_bot.py:155-156 | a new sheet has no rows and no write calls |
| `SheetExport.Worksheet.AppendRows` | eom_bot.py:185 | a call is accepted exactly while the backend still takes writes; an accepted call appends the batch's rows and logs their number; a refused call changes nothing |
| `SheetExport.Worksheet.AppendRow` | eom_bot.py:163 | an accepted call appends one row as a write of size 1; a refused call changes nothing |
| `SheetExport.BuildRows` | eom_bot.py:169-181 | `rows_to_add` holds one row per record of the batch, in order |
| `SheetExport.AppendBatches` | eom_bot.py:165-185 | the loop succeeds exactly when the backend takes one write per slice; it then adds one row per record in input order, whatever the batch size, in writes sized like the slices; when a write is refused after k accepted ones, exactly the first k slices stay written: the rows of the first k * batch_size records, in writes sized like those slices |
| `SheetExport.CreateGoogleSheet` | eom_bot.py:151-202 | the export succeeds exactly when the backend takes 1 + ceil(n / 100) writes; then the sheet is the header followed by one row per record, written as 1 row then slices of at most 100; on a failed write the accepted writes stay: nothing when no write was accepted, otherwise the header and the rows of the first (accepted - 1) * 100 records; the error becomes "Failed to create Google Sheet: " followed by the cause |
| `Handler.SheetName` | eom_bot.py:295 | the sheet name is the guild name, " - ", the month text as `str.title` writes it (equal to it once lowered), a space, `str(year)` and " Messages" |
| `Handler.SheetNameYear` | eom_bot.py:295 | for one guild and month text, different years give different sheet names |
| `Handler.ExportMessages` | eom_bot.py:211-323 | a non-administrator is rejected first, then a missing Sheets client; a `ValueError` from the month or year is reported with its message; an overflowing year is reported as a failed export; collection happens only after all three checks; no records means "no messages" and no sheet; otherwise the sheet holds every record, or the export error is reported |

## Left out

- Everything that talks to Discord: the bot class, intents, `setup_hook`, `on_ready`, embeds, deferring, follow-ups, editing the status message, the help command, `on_app_command_error` and `bot.run`. These are platform I/O.
- Google credentials (lines 25-39), and the `format`, `columns_auto_resize` and `share` calls. These are network calls with no effect on the rows. Failures of `create`, `format`, `columns_auto_resize` and `share` are not modelled either; only failures of the write calls are.
- `spreadsheet.url`: the model returns the worksheet object in its place.
- The clock: the year defaults to `datetime.now().year` (lines 66-67, 239-240). Here the caller always supplies the year.
- What `channel.history` yields for a window, including whether its bounds are inclusive. Each channel's history is an input that already stands for that. `strftime` is not modelled either: timestamps are opaque strings.
- The progress percentage `int((processed / total) * 100)` (line 259). It uses floating point.
- `print` of per-channel errors (line 144). It is logging only.
- `async`/`await`: the pipeline runs sequentially.
- Microseconds: `DateTime` has whole seconds. In Python, a message at 23:59:59.5 on the last day lies after the window's end.
- Text.Lower: only ASCII letters are lowered. No month token contains a letter that a non-ASCII character lowers to, so the month lookup is unaffected.
- Text.TitleCase: only ASCII letters count as cased, so non-ASCII letters in the month text are title-cased differently than Python does. This only affects the sheet name.
