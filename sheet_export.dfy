/**
 * `create_google_sheet`: the header row, then every record as an 8-cell row,
 * appended to a fresh worksheet in slices of `batch_size = 100`.
 */
module SheetExport {
  import opened Wrappers
  import opened Text
  import opened Collector

  /** The fixed 8-column header. */
  const Header: seq<string> :=
    ["Timestamp", "Channel", "Author", "Author ID", "Content", "Attachments", "Reactions", "Message ID"]

  /** `batch_size`. */
  const BatchSize: nat := 100

  /** One record as a row, in header order; ids and counts go through `str`. */
  function ToRow(r: MessageRecord): (row: seq<string>)
    ensures |row| == |Header|
  {
    [r.timestamp, r.channel, r.author, NatToDecimal(r.authorId), r.content,
     NatToDecimal(r.attachments), NatToDecimal(r.reactions), NatToDecimal(r.messageId)]
  }

  /** Reads a row back: the inverse of `ToRow`. */
  function ParseRow(row: seq<string>): Option<MessageRecord>
  {
    if |row| == |Header| && IsDecimal(row[3]) && IsDecimal(row[5]) && IsDecimal(row[6]) && IsDecimal(row[7])
    then Some(MessageRecord(row[0], row[1], row[2], DecimalValue(row[3]), row[4],
                            DecimalValue(row[5]), DecimalValue(row[6]), DecimalValue(row[7])))
    else None
  }

  /** A row loses nothing of its record: every field can be read back from its cell. */
  lemma RowRoundTrip(r: MessageRecord)
    ensures ParseRow(ToRow(r)) == Some(r)
  {
    DecimalRoundTrip(r.authorId);
    DecimalRoundTrip(r.attachments);
    DecimalRoundTrip(r.reactions);
    DecimalRoundTrip(r.messageId);
  }

  /** The rows of the records, one each, in order. */
  function Rows(rs: seq<MessageRecord>): (rows: seq<seq<string>>)
  {
    seq(|rs|, i requires 0 <= i < |rs| => ToRow(rs[i]))
  }

  /** The cells of consecutive rows, concatenated. */
  function Flatten<T>(ss: seq<seq<T>>): seq<T>
  {
    if ss == [] then [] else Flatten(ss[..|ss| - 1]) + ss[|ss| - 1]
  }

  lemma {:induction false} FlattenAppend<T>(a: seq<seq<T>>, b: seq<seq<T>>)
    ensures Flatten(a + b) == Flatten(a) + Flatten(b)
    decreases |b|
  {
    if b == [] {
      assert a + b == a;
    } else {
      var n := |b| - 1;
      FlattenAppend(a, b[..n]);
      assert (a + b)[..|a| + n] == a + b[..n];
    }
  }

  /**
   * Python's `[s[i:i + size] for i in range(0, len(s), size)]`: the slices
   * the loop hands to `append_rows`.
   */
  function Chunks<T>(s: seq<T>, size: nat): (slices: seq<seq<T>>)
    requires size > 0
    ensures slices == [] <==> s == []
    ensures |slices| <= |s|
    decreases |s|
  {
    if s == [] then []
    else if |s| <= size then [s]
    else [s[..size]] + Chunks(s[size..], size)
  }

  lemma FlattenCons<T>(c: seq<T>, rest: seq<seq<T>>)
    ensures Flatten([c] + rest) == c + Flatten(rest)
  {
    FlattenAppend([c], rest);
    assert [c][..0] == [];
  }

  /** Joining the slices gives back the sequence. */
  lemma {:induction false} ChunksFlatten<T>(s: seq<T>, size: nat)
    requires size > 0
    ensures Flatten(Chunks(s, size)) == s
    decreases |s|
  {
    if s != [] {
      if |s| <= size {
        FlattenCons(s, []);
      } else {
        ChunksFlatten(s[size..], size);
        FlattenCons(s[..size], Chunks(s[size..], size));
        assert s[..size] + s[size..] == s;
      }
    }
  }

  /** Integer division by a positive divisor, pinned down by its bounds. */
  lemma DivByBounds(x: int, d: int, q: int)
    requires d > 0 && q * d <= x < q * d + d
    ensures x / d == q
  {
    var k := x / d;
    assert x == k * d + x % d;
    MulMonotone(k + 1, q, d);
    MulMonotone(q + 1, k, d);
    assert (k + 1) * d == k * d + d;
    assert (q + 1) * d == q * d + d;
  }

  lemma {:induction false} MulMonotone(a: int, b: int, d: nat)
    ensures a <= b ==> a * d <= b * d
    decreases d
  {
    if d > 0 && a <= b {
      MulMonotone(a, b, d - 1);
      assert a * d == a * (d - 1) + a;
      assert b * d == b * (d - 1) + b;
    }
  }

  /** There are ceil(|s| / size) slices, each non-empty and at most `size` long. */
  lemma ChunkSizes<T>(s: seq<T>, size: nat)
    requires size > 0
    ensures |Chunks(s, size)| == (|s| + size - 1) / size
    ensures forall i :: 0 <= i < |Chunks(s, size)| ==> 0 < |Chunks(s, size)[i]| <= size
  {
    ChunkCount(s, size);
    ChunkBounds(s, size);
  }

  lemma {:induction false} ChunkCount<T>(s: seq<T>, size: nat)
    requires size > 0
    ensures |Chunks(s, size)| == (|s| + size - 1) / size
    decreases |s|
  {
    if |s| > size {
      var rest := s[size..];
      ChunkCount(rest, size);
      var q := (|rest| + size - 1) / size;
      DivRemBounds(|rest| + size - 1, size);
      NextMultiple(q, size);
      DivByBounds(|s| + size - 1, size, q + 1);
    } else if s != [] {
      DivByBounds(|s| + size - 1, size, 1);
    } else {
      DivByBounds(size - 1, size, 0);
    }
  }

  lemma DivRemBounds(x: int, d: int)
    requires d > 0
    ensures (x / d) * d <= x < (x / d) * d + d
  {
  }

  lemma {:induction false} ChunkBounds<T>(s: seq<T>, size: nat)
    requires size > 0
    ensures forall i :: 0 <= i < |Chunks(s, size)| ==> 0 < |Chunks(s, size)[i]| <= size
    decreases |s|
  {
    if |s| > size {
      var rest := s[size..];
      ChunkBounds(rest, size);
      assert Chunks(s, size) == [s[..size]] + Chunks(rest, size);
    }
  }

  /** The slices after the one at `i`. */
  function NextSlices<T>(s: seq<T>, i: nat, size: nat): (next: seq<seq<T>>)
    requires size > 0 && i < |s|
    ensures Chunks(s[i..], size) == [s[i..Min(i + size, |s|)]] + next
    ensures i + size < |s| ==> next == Chunks(s[i + size..], size)
    ensures i + size >= |s| ==> next == []
  {
    if i + size < |s| then
      assert s[i..][size..] == s[i + size..];
      assert s[i..][..size] == s[i..i + size];
      Chunks(s[i + size..], size)
    else
      assert s[i..Min(i + size, |s|)] == s[i..];
      []
  }

  /** The rows of each slice, as handed to one `append_rows` call. */
  function BatchRows(batches: seq<seq<MessageRecord>>): (calls: seq<seq<seq<string>>>)
  {
    seq(|batches|, i requires 0 <= i < |batches| => Rows(batches[i]))
  }

  lemma {:induction false} FlattenBatchRows(batches: seq<seq<MessageRecord>>)
    ensures Flatten(BatchRows(batches)) == Rows(Flatten(batches))
    decreases |batches|
  {
    if batches != [] {
      var n := |batches| - 1;
      FlattenBatchRows(batches[..n]);
      assert BatchRows(batches)[..n] == BatchRows(batches[..n]);
      assert Rows(Flatten(batches[..n]) + batches[n]) == Rows(Flatten(batches[..n])) + Rows(batches[n]);
    }
  }

  /** Whatever the batch size, the rows of the slices, joined, are one row per record in input order. */
  lemma SlicedRowsAreRows(messages: seq<MessageRecord>, batchSize: nat)
    requires batchSize > 0
    ensures Flatten(BatchRows(Chunks(messages, batchSize))) == Rows(messages)
  {
    FlattenBatchRows(Chunks(messages, batchSize));
    ChunksFlatten(messages, batchSize);
  }

  /** Two batch sizes give the same rows. */
  lemma BatchSizeIrrelevant(messages: seq<MessageRecord>, b1: nat, b2: nat)
    requires b1 > 0 && b2 > 0
    ensures Flatten(BatchRows(Chunks(messages, b1))) == Flatten(BatchRows(Chunks(messages, b2)))
  {
    SlicedRowsAreRows(messages, b1);
    SlicedRowsAreRows(messages, b2);
  }

  /** The number of rows in each slice: the size of each `append_rows` call. */
  function SliceSizes(slices: seq<seq<MessageRecord>>): seq<nat>
  {
    seq(|slices|, i requires 0 <= i < |slices| => |slices[i]|)
  }

  /** 250 records with batches of 100 are appended in calls of 100, 100 and 50 rows. */
  lemma BatchesOf250(messages: seq<MessageRecord>)
    requires |messages| == 250
    ensures SliceSizes(Chunks(messages, BatchSize)) == [100, 100, 50]
  {
    var s1 := messages[100..];
    var s2 := s1[100..];
    assert Chunks(s2, 100) == [s2];
    assert Chunks(s1, 100) == [s1[..100]] + [s2];
    assert Chunks(messages, 100) == [messages[..100]] + [s1[..100], s2];
  }

  /** The rows of a prefix, then the rows of the next stretch. */
  lemma RowsSplit(messages: seq<MessageRecord>, i: nat, j: nat)
    requires i <= j <= |messages|
    ensures Rows(messages[..j]) == Rows(messages[..i]) + Rows(messages[i..j])
  {
  }

  lemma RowsPrefix(messages: seq<MessageRecord>, i: nat)
    requires i <= |messages|
    ensures Rows(messages[..i]) <= Rows(messages)
  {
    RowsSplit(messages, i, |messages|);
    assert messages[..|messages|] == messages;
  }

  lemma Regroup<T>(a: seq<T>, b: seq<T>, c: seq<T>)
    ensures (a + b) + c == a + (b + c)
  {
  }

  /** The slice bookkeeping of the batching loop, one slice further. */
  lemma SliceStep(messages: seq<MessageRecord>, size: nat, i: nat, done: seq<seq<MessageRecord>>,
                  rest: seq<seq<MessageRecord>>, next: seq<seq<MessageRecord>>)
    requires size > 0 && i < |messages| && i == |done| * size
    requires Chunks(messages, size) == done + rest && rest == Chunks(messages[i..], size)
    requires next == NextSlices(messages, i, size)
    ensures var batch := messages[i..Min(i + size, |messages|)];
            && Chunks(messages, size) == (done + [batch]) + next
            && i + size == |done + [batch]| * size
            && SliceSizes(done + [batch]) == SliceSizes(done) + [|batch|]
  {
    var batch := messages[i..Min(i + size, |messages|)];
    SliceSizesSnoc(done, batch);
    Regroup(done, [batch], next);
    NextMultiple(|done|, size);
  }

  /** The slices already written are the first ones. */
  lemma DonePrefix<T>(slices: seq<T>, done: seq<T>, rest: seq<T>)
    requires slices == done + rest && rest != []
    ensures |done| < |slices| && slices[..|done|] == done
  {
  }

  lemma NextMultiple(k: nat, size: nat)
    ensures (k + 1) * size == k * size + size
  {
  }

  /** The rows written before a refused write lie between the old rows and the full sheet. */
  lemma RowsKept(before: seq<seq<string>>, after: seq<seq<string>>, messages: seq<MessageRecord>, i: nat)
    requires i <= |messages| && after == before + Rows(messages[..i])
    ensures before <= after <= before + Rows(messages)
  {
    RowsPrefix(messages, i);
  }

  lemma SliceSizesSnoc(slices: seq<seq<MessageRecord>>, slice: seq<MessageRecord>)
    ensures SliceSizes(slices + [slice]) == SliceSizes(slices) + [|slice|]
  {
  }

  /** What the spreadsheet backend does with write calls: it accepts the first `acceptedWrites`
      and fails every later one with the error text `errorText`. */
  datatype Backend = Backend(acceptedWrites: nat, errorText: string)

  /** `spreadsheet.sheet1`: its rows, and how many rows each accepted write call added. */
  class Worksheet {
    const title: string
    const acceptedWrites: nat
    var rows: seq<seq<string>>
    var writeSizes: seq<nat>

    ghost predicate Valid()
      reads this
    {
      |writeSizes| <= acceptedWrites
    }

    /** `gc.create(title).sheet1`: an empty sheet. */
    constructor (title: string, acceptedWrites: nat)
      ensures Valid()
      ensures this.title == title && this.acceptedWrites == acceptedWrites
      ensures rows == [] && writeSizes == []
    {
      this.title := title;
      this.acceptedWrites := acceptedWrites;
      rows := [];
      writeSizes := [];
    }

    /** `worksheet.append_rows(batch)`; `ok` is false when the backend raised. */
    method AppendRows(batch: seq<seq<string>>) returns (ok: bool)
      requires Valid()
      modifies this
      ensures Valid()
      ensures ok == (|old(writeSizes)| < acceptedWrites)
      ensures rows == if ok then old(rows) + batch else old(rows)
      ensures writeSizes == if ok then old(writeSizes) + [|batch|] else old(writeSizes)
    {
      ok := |writeSizes| < acceptedWrites;
      if ok {
        rows := rows + batch;
        writeSizes := writeSizes + [|batch|];
      }
    }

    /** `worksheet.append_row(row)`: one call that adds one row. */
    method AppendRow(row: seq<string>) returns (ok: bool)
      requires Valid()
      modifies this
      ensures Valid()
      ensures ok == (|old(writeSizes)| < acceptedWrites)
      ensures rows == if ok then old(rows) + [row] else old(rows)
      ensures writeSizes == if ok then old(writeSizes) + [1] else old(writeSizes)
    {
      ok := AppendRows([row]);
    }
  }

  /** How `create_google_sheet` ends: normally, or with the re-raised exception's text. */
  datatype ExportStatus = Exported | ExportFailed(message: string)

  /** `f"Failed to create Google Sheet: {str(e)}"`: the cause follows a fixed prefix. */
  function FailureMessage(backend: Backend): (message: string)
    ensures |message| == 31 + |backend.errorText|
    ensures message[..31] == "Failed to create Google Sheet: " && message[31..] == backend.errorText
  {
    "Failed to create Google Sheet: " + backend.errorText
  }

  /** The inner loop: `rows_to_add` gets one row per record of the batch, in order. */
  method BuildRows(batch: seq<MessageRecord>) returns (rowsToAdd: seq<seq<string>>)
    ensures rowsToAdd == Rows(batch)
  {
    rowsToAdd := [];
    for j := 0 to |batch|
      invariant rowsToAdd == Rows(batch[..j])
    {
      rowsToAdd := rowsToAdd + [ToRow(batch[j])];
    }
    assert batch[..|batch|] == batch;
  }

  /**
   * The batching loop of `create_google_sheet`: for each slice of at most
   * `batchSize` records, build its rows and append them in one call. Stops
   * at the first call the backend refuses. The rows it adds do not depend
   * on `batchSize`.
   */
  method AppendBatches(sheet: Worksheet, messages: seq<MessageRecord>, batchSize: nat) returns (ok: bool)
    requires batchSize > 0 && sheet.Valid()
    modifies sheet
    ensures sheet.Valid()
    ensures ok <==> |old(sheet.writeSizes)| + |Chunks(messages, batchSize)| <= sheet.acceptedWrites
    ensures ok ==> sheet.rows == old(sheet.rows) + Rows(messages)
    ensures ok ==> sheet.writeSizes == old(sheet.writeSizes) + SliceSizes(Chunks(messages, batchSize))
    ensures !ok ==> |sheet.writeSizes| == sheet.acceptedWrites
    ensures !ok ==> old(sheet.rows) <= sheet.rows <= old(sheet.rows) + Rows(messages)
    ensures !ok ==>
              var k := sheet.acceptedWrites - |old(sheet.writeSizes)|;
              && 0 <= k < |Chunks(messages, batchSize)|
              && k * batchSize < |messages|
              && sheet.writeSizes == old(sheet.writeSizes) + SliceSizes(Chunks(messages, batchSize)[..k])
              && sheet.rows == old(sheet.rows) + Rows(messages[..k * batchSize])
  {
    ok := true;
    var i := 0;
    ghost var upTo := 0;
    ghost var done: seq<seq<MessageRecord>> := [];
    ghost var rest := Chunks(messages, batchSize);
    while i < |messages|
      invariant sheet.Valid()
      invariant upTo == Min(i, |messages|)
      invariant i == |done| * batchSize
      invariant Chunks(messages, batchSize) == done + rest
      invariant i < |messages| ==> rest == Chunks(messages[i..], batchSize)
      invariant i >= |messages| ==> rest == []
      invariant sheet.rows == old(sheet.rows) + Rows(messages[..upTo])
      invariant sheet.writeSizes == old(sheet.writeSizes) + SliceSizes(done)
      decreases |messages| - i
    {
      var batch := messages[i..Min(i + batchSize, |messages|)];
      var rowsToAdd := BuildRows(batch);
      ghost var next := NextSlices(messages, i, batchSize);
      SliceStep(messages, batchSize, i, done, rest, next);
      RowsSplit(messages, i, Min(i + batchSize, |messages|));
      if rowsToAdd != [] {
        ok := sheet.AppendRows(rowsToAdd);
        if !ok {
          RowsKept(old(sheet.rows), sheet.rows, messages, i);
          DonePrefix(Chunks(messages, batchSize), done, rest);
          assert |SliceSizes(done)| == |done|;
          return;
        }
      }
      Regroup(old(sheet.rows), Rows(messages[..i]), Rows(batch));
      done, rest := done + [batch], next;
      i := i + batchSize;
      upTo := Min(i, |messages|);
    }
    assert done == Chunks(messages, batchSize) by { assert done + [] == done; }
    assert messages[..|messages|] == messages;
  }

  /**
   * `create_google_sheet(sheet_name, messages)`. On success the sheet holds
   * the header and one row per record; when a write fails the rows written
   * so far stay (a prefix of the full sheet) and the error is re-raised.
   */
  method CreateGoogleSheet(sheetName: string, messages: seq<MessageRecord>, backend: Backend)
    returns (sheet: Worksheet, status: ExportStatus)
    ensures fresh(sheet) && sheet.Valid() && sheet.title == sheetName
    ensures status.Exported? <==> 1 + |Chunks(messages, BatchSize)| <= backend.acceptedWrites
    ensures status.Exported? ==> sheet.rows == [Header] + Rows(messages)
    ensures status.Exported? ==> sheet.writeSizes == [1] + SliceSizes(Chunks(messages, BatchSize))
    ensures status.ExportFailed? ==>
              && sheet.rows <= [Header] + Rows(messages)
              && |sheet.writeSizes| == backend.acceptedWrites
              && status.message == FailureMessage(backend)
    ensures status.ExportFailed? && backend.acceptedWrites == 0 ==> sheet.rows == [] && sheet.writeSizes == []
    ensures status.ExportFailed? && backend.acceptedWrites > 0 ==>
              var k := backend.acceptedWrites - 1;
              && k * BatchSize < |messages|
              && sheet.rows == [Header] + Rows(messages[..k * BatchSize])
              && sheet.writeSizes == [1] + SliceSizes(Chunks(messages, BatchSize)[..k])
  {
    sheet := new Worksheet(sheetName, backend.acceptedWrites);
    var ok := sheet.AppendRow(Header);
    if !ok {
      return sheet, ExportFailed(FailureMessage(backend));
    }
    ok := AppendBatches(sheet, messages, BatchSize);
    if !ok {
      return sheet, ExportFailed(FailureMessage(backend));
    }
    return sheet, Exported;
  }
}
