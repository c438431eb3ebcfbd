/**
 * The `/eom` command handler `export_messages`: two guards, then the
 * pipeline resolve window -> collect messages -> create sheet, with the
 * requester told how it ended.
 */
module Handler {
  import opened Wrappers
  import opened Text
  import opened MonthWindow
  import opened Collector
  import opened SheetExport

  /** What the requester is finally shown. */
  datatype Reply =
    | NeedAdministrator                  // private rejection: not an administrator
    | SheetsNotConfigured                // private rejection: no Sheets client at start-up
    | InvalidRequest(message: string)    // a `ValueError` from `get_month_dates`, sent back privately as is
    | NoMessagesFound                    // collection found nothing; no sheet is made
    | ExportComplete(sheet: Worksheet, count: nat, window: Window)
    | ExportError(message: string)       // any other exception, sent as "An error occurred: <message>"

  /** `f"{guild.name} - {month.title()} {year} Messages"`. */
  function SheetName(guildName: string, month: string, year: int): (name: string)
    ensures |name| == |guildName| + |month| + |IntToDecimal(year)| + 13
    ensures guildName + " - " <= name
    ensures name[|guildName| + 3..|guildName| + 3 + |month|] == TitleCase(month)
    ensures Lower(name[|guildName| + 3..|guildName| + 3 + |month|]) == Lower(month)
    ensures name[|guildName| + 3 + |month|] == ' '
    ensures name[|guildName| + 4 + |month|..|name| - 9] == IntToDecimal(year)
    ensures name[|name| - 9..] == " Messages"
  {
    TitleCaseKeepsLetters(month);
    var prefix, title, digits := guildName + " - ", TitleCase(month), IntToDecimal(year);
    Pieces(prefix, title, " ", digits, " Messages");
    prefix + title + " " + digits + " Messages"
  }

  /** Each piece of a five-piece concatenation can be cut back out. */
  lemma Pieces(a: string, b: string, c: string, d: string, e: string)
    ensures var n := a + b + c + d + e;
            && n[..|a|] == a
            && n[|a|..|a| + |b|] == b
            && n[|a| + |b|..|a| + |b| + |c|] == c
            && n[|a| + |b| + |c|..|n| - |e|] == d
            && n[|n| - |e|..] == e
  {
  }

  /** For one guild and month text, the sheet name tells the year apart. */
  lemma SheetNameYear(guildName: string, month: string, y1: int, y2: int)
    requires SheetName(guildName, month, y1) == SheetName(guildName, month, y2)
    ensures y1 == y2
  {
    var n1, n2 := SheetName(guildName, month, y1), SheetName(guildName, month, y2);
    assert n1[|guildName| + 4 + |month|..|n1| - 9] == n2[|guildName| + 4 + |month|..|n2| - 9];
    IntDecimalInjective(y1, y2);
  }

  /** The guards and the window: the request reaches collection exactly when this holds. */
  predicate ReachesCollection(isAdmin: bool, sheetsConfigured: bool, month: string, year: int)
  {
    isAdmin && sheetsConfigured && GetMonthDates(month, year).Success?
  }

  /**
   * `export_messages(interaction, month, year, include_bots)`. `progress`
   * lists the calls made to `update_progress`; that callback never raises,
   * since it swallows failed edits. `includeBots` is accepted and never
   * used: bot messages are always dropped.
   */
  method ExportMessages(isAdmin: bool, sheetsConfigured: bool, month: string, year: int, includeBots: bool,
                        guildName: string, guild: seq<Channel>, backend: Backend)
    returns (reply: Reply, progress: seq<ProgressEvent>)
    ensures reply == NeedAdministrator <==> !isAdmin
    ensures reply == SheetsNotConfigured <==> isAdmin && !sheetsConfigured
    ensures reply.InvalidRequest? <==>
              isAdmin && sheetsConfigured && GetMonthDates(month, year).Failure? &&
              GetMonthDates(month, year).error.IsValueError()
    ensures reply.InvalidRequest? ==> reply.message == GetMonthDates(month, year).error.Message()
    ensures !ReachesCollection(isAdmin, sheetsConfigured, month, year) ==> progress == []
    ensures ReachesCollection(isAdmin, sheetsConfigured, month, year) ==>
              progress == Collect(guild, TextChannelCount(guild), Callback(0, {})).events
    ensures reply == NoMessagesFound <==>
              ReachesCollection(isAdmin, sheetsConfigured, month, year) &&
              Collect(guild, TextChannelCount(guild), Callback(0, {})).records == []
    ensures reply.ExportComplete? ==>
              var records := Collect(guild, TextChannelCount(guild), Callback(0, {})).records;
              && ReachesCollection(isAdmin, sheetsConfigured, month, year)
              && records != []
              && reply.count == |records|
              && reply.window == GetMonthDates(month, year).value
              && reply.sheet.title == SheetName(guildName, month, year)
              && reply.sheet.rows == [Header] + Rows(records)
    ensures reply.ExportError? <==>
              var records := Collect(guild, TextChannelCount(guild), Callback(0, {})).records;
              || (isAdmin && sheetsConfigured && GetMonthDates(month, year).Failure? &&
                  !GetMonthDates(month, year).error.IsValueError())
              || (ReachesCollection(isAdmin, sheetsConfigured, month, year) && records != [] &&
                  1 + |Chunks(records, BatchSize)| > backend.acceptedWrites)
    ensures reply.ExportError? ==>
              reply.message == if GetMonthDates(month, year).Failure?
                               then GetMonthDates(month, year).error.Message()
                               else FailureMessage(backend)
  {
    progress := [];
    if !isAdmin {
      return NeedAdministrator, progress;
    }
    if !sheetsConfigured {
      return SheetsNotConfigured, progress;
    }
    var dates := GetMonthDates(month, year);
    if dates.Failure? {
      if dates.error.IsValueError() {
        return InvalidRequest(dates.error.Message()), progress;
      }
      // the `OverflowError` falls through to `except Exception`
      return ExportError(dates.error.Message()), progress;
    }
    var updateProgress := new ProgressSink({});
    var messages := CollectMessages(guild, updateProgress);
    progress := updateProgress.events;
    if messages == [] {
      return NoMessagesFound, progress;
    }
    var sheet, status := CreateGoogleSheet(SheetName(guildName, month, year), messages, backend);
    match status
    case Exported =>
      reply := ExportComplete(sheet, |messages|, dates.value);
    case ExportFailed(message) =>
      reply := ExportError(message);
  }
}
