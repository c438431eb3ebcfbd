/**
 * `collect_messages`: a fault-tolerant walk over the guild's channels that
 * turns every non-bot message a channel's history yields into an 8-field
 * record and reports progress through a callback.
 *
 * A channel's `history` stands for what `channel.history(after=start,
 * before=end, oldest_first=True)` yields for the requested window: either
 * all of it, or a prefix followed by `discord.Forbidden` or another error.
 */
module Collector {
  import opened Text

  /** The attributes of a `discord.Message` the bot reads. */
  datatype Message = Message(
    id: nat,
    author: string,            // str(message.author)
    authorId: nat,
    authorIsBot: bool,
    createdAt: string,         // message.created_at.strftime('%Y-%m-%d %H:%M:%S')
    content: string,
    attachments: seq<string>,
    reactions: seq<string>)

  /** How iterating a channel's history ends. */
  datatype History =
    | Complete(messages: seq<Message>)
    | Forbidden(prefix: seq<Message>)   // raises discord.Forbidden after yielding `prefix`
    | Failed(prefix: seq<Message>)      // raises any other exception after yielding `prefix`
  {
    /** The messages yielded before the iteration ended. */
    function Yielded(): seq<Message>
    {
      match this
      case Complete(ms) => ms
      case Forbidden(ms) => ms
      case Failed(ms) => ms
    }
  }

  /** A guild channel: `isText` is `isinstance(channel, discord.TextChannel)`,
      `canReadHistory` is `channel.permissions_for(guild.me).read_message_history`. */
  datatype Channel = Channel(name: string, isText: bool, canReadHistory: bool, history: History)

  /** The `message_data` dictionary; its eight fields are its eight keys. */
  datatype MessageRecord = MessageRecord(
    timestamp: string,
    channel: string,
    author: string,
    authorId: nat,
    content: string,
    attachments: nat,
    reactions: nat,
    messageId: nat)

  /** `message.content[:1000]`. */
  const ContentLimit: nat := 1000

  /** The `message_data` dictionary for message `m` read in channel `channel`. */
  function ToRecord(channel: string, m: Message): (r: MessageRecord)
    ensures RecordOf(r, channel, m)
  {
    MessageRecord(m.createdAt, channel, m.author, m.authorId, Take(m.content, ContentLimit),
                  |m.attachments|, |m.reactions|, m.id)
  }

  /** A record is what `collect_messages` makes of message `m` read in channel `channel`. */
  predicate RecordOf(r: MessageRecord, channel: string, m: Message)
  {
    && r.timestamp == m.createdAt
    && r.channel == channel
    && r.author == m.author
    && r.authorId == m.authorId
    && r.content <= m.content
    && |r.content| == Min(|m.content|, ContentLimit)
    && r.attachments == |m.attachments|
    && r.reactions == |m.reactions|
    && r.messageId == m.id
  }

  /** The records the inner `async for` appends for the messages `ms`, in yield order. */
  function MessagesToRecords(channel: string, ms: seq<Message>): (rs: seq<MessageRecord>)
    ensures |rs| <= |ms|
    ensures forall r :: r in rs ==> exists m :: m in ms && !m.authorIsBot && RecordOf(r, channel, m)
  {
    if ms == [] then []
    else
      var m := ms[|ms| - 1];
      MessagesToRecords(channel, ms[..|ms| - 1]) + (if m.authorIsBot then [] else [ToRecord(channel, m)])
  }

  /** One call of `progress_callback(processed, total, channel.name)`. */
  datatype ProgressEvent = ProgressEvent(processed: nat, total: nat, channel: string)

  /**
   * The progress callback as the collector sees it: a log of its calls. Call
   * number `k` (counting from 0 over the sink's lifetime) raises exactly
   * when `k` is in `raisesAt`.
   */
  class ProgressSink {
    var events: seq<ProgressEvent>
    const raisesAt: set<nat>

    constructor (raisesAt: set<nat>)
      ensures events == [] && this.raisesAt == raisesAt
    {
      events := [];
      this.raisesAt := raisesAt;
    }

    /** `await progress_callback(...)`: the call is logged whether or not it raises. */
    method Notify(e: ProgressEvent) returns (raised: bool)
      modifies this
      ensures events == old(events) + [e]
      ensures raised == (|old(events)| in raisesAt)
    {
      raised := |events| in raisesAt;
      events := events + [e];
    }
  }

  /** The callback argument: `None`, or a sink that has already been called `priorCalls` times. */
  datatype Callback = NoCallback | Callback(priorCalls: nat, raisesAt: set<nat>)

  /** The locals of `collect_messages` after some prefix of `guild.channels`. */
  datatype Progress = Progress(records: seq<MessageRecord>, processed: nat, events: seq<ProgressEvent>)

  /** `len([ch for ch in guild.channels if isinstance(ch, discord.TextChannel)])`. */
  function TextChannelCount(channels: seq<Channel>): (n: nat)
    ensures n <= |channels|
  {
    if channels == [] then 0
    else TextChannelCount(channels[..|channels| - 1]) + (if channels[|channels| - 1].isText then 1 else 0)
  }

  /** One iteration of the channel loop. */
  function Visit(p: Progress, ch: Channel, total: nat, cb: Callback): (q: Progress)
    ensures p.records <= q.records && p.events <= q.events && |q.events| <= |p.events| + 1
    ensures p.processed <= q.processed <= p.processed + 2
    ensures !ch.isText || !ch.canReadHistory ==> q == p
  {
    if !ch.isText || !ch.canReadHistory then p
    else
      var records := p.records + MessagesToRecords(ch.name, ch.history.Yielded());
      var processed := p.processed + 1;
      if !ch.history.Complete? || cb.NoCallback? then Progress(records, processed, p.events)
      else
        var raised := cb.priorCalls + |p.events| in cb.raisesAt;
        Progress(records, if raised then processed + 1 else processed,
                 p.events + [ProgressEvent(processed, total, ch.name)])
  }

  /** The state after visiting `channels` in order. */
  function Collect(channels: seq<Channel>, total: nat, cb: Callback): (p: Progress)
    ensures |p.events| <= ReadableTextCount(channels)
    ensures p.processed <= 2 * ReadableTextCount(channels)
  {
    if channels == [] then Progress([], 0, [])
    else Visit(Collect(channels[..|channels| - 1], total, cb), channels[|channels| - 1], total, cb)
  }

  /** The fold over one more channel is one more `Visit`. */
  lemma CollectStep(channels: seq<Channel>, k: nat, total: nat, cb: Callback)
    requires k < |channels|
    ensures Collect(channels[..k + 1], total, cb) == Visit(Collect(channels[..k], total, cb), channels[k], total, cb)
  {
    assert channels[..k + 1][..k] == channels[..k];
  }

  lemma CollectSnoc(channels: seq<Channel>, ch: Channel, total: nat, cb: Callback)
    ensures Collect(channels + [ch], total, cb) == Visit(Collect(channels, total, cb), ch, total, cb)
  {
    assert (channels + [ch])[..|channels|] == channels;
  }

  function CallbackOf(sink: ProgressSink?): Callback
    reads sink
  {
    if sink == null then NoCallback else Callback(|sink.events|, sink.raisesAt)
  }

  /**
   * The inner `async for` loop over one channel's history: every non-bot
   * message the history yields is appended to `allMessages` as a record.
   */
  method AppendChannelMessages(allMessages: seq<MessageRecord>, channelName: string, yielded: seq<Message>)
    returns (result: seq<MessageRecord>)
    ensures result == allMessages + MessagesToRecords(channelName, yielded)
  {
    result := allMessages;
    for j := 0 to |yielded|
      invariant result == allMessages + MessagesToRecords(channelName, yielded[..j])
    {
      assert yielded[..j + 1][..j] == yielded[..j];
      var message := yielded[j];
      if message.authorIsBot {
        continue;
      }
      result := result + [ToRecord(channelName, message)];
    }
    assert yielded[..|yielded|] == yielded;
  }

  /**
   * One pass of the channel loop of `collect_messages`: the two `continue`
   * guards, the inner loop, and the counter and callback updates. `base` is
   * the sink's log before the loop and `events` the calls made since.
   */
  method VisitChannel(channel: Channel, totalChannels: nat, allMessages: seq<MessageRecord>, processedChannels: nat,
                      sink: ProgressSink?, ghost cb: Callback, ghost base: seq<ProgressEvent>,
                      ghost events: seq<ProgressEvent>)
    returns (allMessages': seq<MessageRecord>, processedChannels': nat, ghost events': seq<ProgressEvent>)
    requires sink == null ==> cb.NoCallback?
    requires sink != null ==>
               cb == Callback(|base|, sink.raisesAt) && sink.events == base + events
    modifies sink
    ensures Visit(Progress(allMessages, processedChannels, events), channel, totalChannels, cb) ==
            Progress(allMessages', processedChannels', events')
    ensures sink != null ==> sink.events == base + events'
  {
    allMessages', processedChannels', events' := allMessages, processedChannels, events;
    if !channel.isText {
      return;
    }
    if !channel.canReadHistory {
      return;
    }
    allMessages' := AppendChannelMessages(allMessages, channel.name, channel.history.Yielded());
    match channel.history
    case Complete(_) =>
      processedChannels' := processedChannels' + 1;
      if sink != null {
        var raised := sink.Notify(ProgressEvent(processedChannels', totalChannels, channel.name));
        events' := events + [ProgressEvent(processedChannels', totalChannels, channel.name)];
        if raised {
          // the callback's exception reaches an `except` clause, which counts the channel again
          processedChannels' := processedChannels' + 1;
        }
      }
    case Forbidden(_) =>
      processedChannels' := processedChannels' + 1;
    case Failed(_) =>
      processedChannels' := processedChannels' + 1;
  }

  /**
   * `collect_messages(guild, start_date, end_date, progress_callback)`:
   * returns `all_messages`; the calls made to the callback are appended to
   * the sink's log.
   */
  method CollectMessages(guild: seq<Channel>, sink: ProgressSink?) returns (allMessages: seq<MessageRecord>)
    modifies sink
    ensures allMessages == Collect(guild, TextChannelCount(guild), old(CallbackOf(sink))).records
    ensures sink != null ==>
              sink.events == old(sink.events) + Collect(guild, TextChannelCount(guild), old(CallbackOf(sink))).events
  {
    ghost var cb := CallbackOf(sink);
    ghost var base := if sink == null then [] else sink.events;
    var totalChannels := TextChannelCount(guild);
    var processedChannels := 0;
    allMessages := [];
    ghost var events: seq<ProgressEvent> := [];

    for k := 0 to |guild|
      invariant Collect(guild[..k], totalChannels, cb) == Progress(allMessages, processedChannels, events)
      invariant sink != null ==> sink.events == base + events && cb == Callback(|base|, sink.raisesAt)
      invariant sink == null ==> cb.NoCallback?
    {
      CollectStep(guild, k, totalChannels, cb);
      allMessages, processedChannels, events :=
        VisitChannel(guild[k], totalChannels, allMessages, processedChannels, sink, cb, base, events);
    }
    assert guild[..|guild|] == guild;
  }

  // ---------------------------------------------------------------------
  // What the fold computes

  /** The records one channel contributes: nothing unless it is a readable text channel. */
  function ChannelRecords(ch: Channel): seq<MessageRecord>
  {
    if ch.isText && ch.canReadHistory then MessagesToRecords(ch.name, ch.history.Yielded()) else []
  }

  /** The channels' contributions concatenated in channel order. */
  function AllRecords(channels: seq<Channel>): seq<MessageRecord>
  {
    if channels == [] then [] else ChannelRecords(channels[0]) + AllRecords(channels[1..])
  }

  lemma {:induction false} AllRecordsSnoc(channels: seq<Channel>, ch: Channel)
    ensures AllRecords(channels + [ch]) == AllRecords(channels) + ChannelRecords(ch)
    decreases |channels|
  {
    if channels == [] {
      assert [ch][1..] == [];
    } else {
      assert (channels + [ch])[1..] == channels[1..] + [ch];
      AllRecordsSnoc(channels[1..], ch);
    }
  }

  /**
   * The result is the concatenation, in channel order, of each readable text
   * channel's non-bot records; a channel that raised midway keeps what it
   * yielded before. The callback has no influence on the records.
   */
  lemma {:induction false} CollectIsConcatenation(channels: seq<Channel>, total: nat, cb: Callback)
    ensures Collect(channels, total, cb).records == AllRecords(channels)
    decreases |channels|
  {
    if channels != [] {
      var init := channels[..|channels| - 1];
      CollectIsConcatenation(init, total, cb);
      assert init + [channels[|channels| - 1]] == channels;
      AllRecordsSnoc(init, channels[|channels| - 1]);
    }
  }

  /** Every non-bot message a readable channel yields gives a record. */
  lemma {:induction false} NonBotMessagesKept(channel: string, ms: seq<Message>, m: Message)
    requires m in ms && !m.authorIsBot
    ensures ToRecord(channel, m) in MessagesToRecords(channel, ms)
    decreases |ms|
  {
    if m != ms[|ms| - 1] {
      assert m in ms[..|ms| - 1];
      NonBotMessagesKept(channel, ms[..|ms| - 1], m);
    }
  }

  /**
   * Every emitted record comes from a non-bot message yielded by a readable
   * text channel, carries that channel's name and at most 1000 characters of
   * the content.
   */
  lemma {:induction false} RecordsComeFromNonBotMessages(channels: seq<Channel>, total: nat, cb: Callback)
    ensures forall r :: r in Collect(channels, total, cb).records ==>
              exists k, m :: 0 <= k < |channels| && channels[k].isText && channels[k].canReadHistory &&
                             m in channels[k].history.Yielded() && !m.authorIsBot &&
                             RecordOf(r, channels[k].name, m)
    ensures forall r :: r in Collect(channels, total, cb).records ==> |r.content| <= ContentLimit
    decreases |channels|
  {
    if channels != [] {
      var n := |channels| - 1;
      var init := channels[..n];
      RecordsComeFromNonBotMessages(init, total, cb);
      forall r | r in Collect(channels, total, cb).records
        ensures exists k, m :: 0 <= k < |channels| && channels[k].isText && channels[k].canReadHistory &&
                               m in channels[k].history.Yielded() && !m.authorIsBot &&
                               RecordOf(r, channels[k].name, m)
      {
        if r in Collect(init, total, cb).records {
          var k, m :| 0 <= k < |init| && init[k].isText && init[k].canReadHistory &&
                      m in init[k].history.Yielded() && !m.authorIsBot && RecordOf(r, init[k].name, m);
          assert channels[k] == init[k];
        } else {
          assert r in MessagesToRecords(channels[n].name, channels[n].history.Yielded());
          var m :| m in channels[n].history.Yielded() && !m.authorIsBot && RecordOf(r, channels[n].name, m);
          assert channels[n].isText && channels[n].canReadHistory;
        }
      }
    }
  }

  /**
   * For a fixed `total`, a channel that is not a text channel, or lacks
   * history permission, leaves no trace at all.
   */
  lemma {:induction false} SkippedChannelsInvisible(front: seq<Channel>, ch: Channel, back: seq<Channel>,
                                                    total: nat, cb: Callback)
    requires !ch.isText || !ch.canReadHistory
    ensures Collect(front + [ch] + back, total, cb) == Collect(front + back, total, cb)
    decreases |back|
  {
    if back == [] {
      assert front + [ch] + back == front + [ch];
      assert front + back == front;
      CollectSnoc(front, ch, total, cb);
    } else {
      var n := |back| - 1;
      SkippedChannelsInvisible(front, ch, back[..n], total, cb);
      assert front + [ch] + back == (front + [ch] + back[..n]) + [back[n]];
      assert front + back == (front + back[..n]) + [back[n]];
      CollectSnoc(front + [ch] + back[..n], back[n], total, cb);
      CollectSnoc(front + back[..n], back[n], total, cb);
    }
  }

  // ---------------------------------------------------------------------
  // What the callback sees

  /** The names of the readable text channels whose history completed, in order. */
  function CompletedChannels(channels: seq<Channel>): seq<string>
  {
    if channels == [] then []
    else
      var ch := channels[|channels| - 1];
      CompletedChannels(channels[..|channels| - 1]) +
        (if ch.isText && ch.canReadHistory && ch.history.Complete? then [ch.name] else [])
  }

  /**
   * The callback is called once per readable text channel whose history
   * completed, after it and with its name, and always with the same total;
   * without a callback nothing is logged.
   */
  lemma {:induction false} EventsFollowCompletedChannels(channels: seq<Channel>, total: nat, cb: Callback)
    ensures var ev := Collect(channels, total, cb).events;
            && (cb.NoCallback? ==> ev == [])
            && (cb.Callback? ==> |ev| == |CompletedChannels(channels)|)
            && (cb.Callback? ==> forall i :: 0 <= i < |ev| ==> ev[i].channel == CompletedChannels(channels)[i])
            && (forall i :: 0 <= i < |ev| ==> ev[i].total == total)
    decreases |channels|
  {
    if channels != [] {
      EventsFollowCompletedChannels(channels[..|channels| - 1], total, cb);
    }
  }

  /** The calls' `processed` arguments increase strictly and stay within 1..`processed`. */
  predicate IncreasingProgress(p: Progress)
  {
    && (forall i, j :: 0 <= i < j < |p.events| ==> p.events[i].processed < p.events[j].processed)
    && (forall i :: 0 <= i < |p.events| ==> 1 <= p.events[i].processed <= p.processed)
  }

  /**
   * The `processed` argument strictly increases from one call to the next,
   * and no call reports more than the counter ends at.
   */
  lemma {:induction false} ProcessedStrictlyIncreases(channels: seq<Channel>, total: nat, cb: Callback)
    ensures IncreasingProgress(Collect(channels, total, cb))
    decreases |channels|
  {
    if channels != [] {
      var init := channels[..|channels| - 1];
      ProcessedStrictlyIncreases(init, total, cb);
      var q := Collect(init, total, cb);
      var p := Collect(channels, total, cb);
      assert p == Visit(q, channels[|channels| - 1], total, cb);
      assert p.processed >= q.processed;
      if p.events != q.events {
        var e := ProgressEvent(q.processed + 1, total, channels[|channels| - 1].name);
        assert p.events == q.events + [e] && p.processed >= e.processed;
        forall i, j | 0 <= i < j < |p.events|
          ensures p.events[i].processed < p.events[j].processed
        {
          if j == |q.events| {
            assert p.events[i] == q.events[i] && p.events[j] == e;
            assert q.events[i].processed <= q.processed;
          } else {
            assert p.events[i] == q.events[i] && p.events[j] == q.events[j];
          }
        }
      }
    }
  }

  /** The number of text channels the bot may read. */
  function ReadableTextCount(channels: seq<Channel>): (n: nat)
    ensures n <= TextChannelCount(channels)
  {
    if channels == [] then 0
    else
      var ch := channels[|channels| - 1];
      ReadableTextCount(channels[..|channels| - 1]) + (if ch.isText && ch.canReadHistory then 1 else 0)
  }

  /** A callback that never raises (the bot's own `update_progress` is one). */
  predicate Quiet(cb: Callback) { cb.NoCallback? || cb.raisesAt == {} }

  /**
   * With a callback that does not raise, `processed_channels` ends at the
   * number of readable text channels, so the callback never reports more than
   * `total_channels`; a text channel without permission keeps it below.
   */
  lemma {:induction false} QuietProcessedBound(channels: seq<Channel>, cb: Callback)
    requires Quiet(cb)
    ensures var p := Collect(channels, TextChannelCount(channels), cb);
            && p.processed == ReadableTextCount(channels)
            && forall i :: 0 <= i < |p.events| ==> p.events[i].processed <= TextChannelCount(channels)
    decreases |channels|
  {
    if channels != [] {
      var init := channels[..|channels| - 1];
      QuietProcessedBound(init, cb);
      EventsTotalIndependent(init, TextChannelCount(init), TextChannelCount(channels), cb);
      ProcessedStrictlyIncreases(channels, TextChannelCount(channels), cb);
    }
  }

  /** The total passed to the callback changes nothing but the events' `total` field. */
  lemma {:induction false} EventsTotalIndependent(channels: seq<Channel>, t1: nat, t2: nat, cb: Callback)
    ensures Collect(channels, t1, cb).records == Collect(channels, t2, cb).records
    ensures Collect(channels, t1, cb).processed == Collect(channels, t2, cb).processed
    ensures |Collect(channels, t1, cb).events| == |Collect(channels, t2, cb).events|
    ensures forall i :: 0 <= i < |Collect(channels, t1, cb).events| ==>
              && Collect(channels, t1, cb).events[i].processed == Collect(channels, t2, cb).events[i].processed
              && Collect(channels, t1, cb).events[i].channel == Collect(channels, t2, cb).events[i].channel
    decreases |channels|
  {
    if channels != [] {
      EventsTotalIndependent(channels[..|channels| - 1], t1, t2, cb);
    }
  }

  lemma {:induction false} TextChannelCountAppend(a: seq<Channel>, b: seq<Channel>)
    ensures TextChannelCount(a + b) == TextChannelCount(a) + TextChannelCount(b)
    decreases |b|
  {
    if b == [] {
      assert a + b == a;
    } else {
      var n := |b| - 1;
      TextChannelCountAppend(a, b[..n]);
      assert (a + b)[..|a| + n] == a + b[..n];
    }
  }

  /**
   * With `total_channels` counted from the channels, as the code does: a
   * skipped channel changes no record, no counter and no call's `processed`
   * or channel name, but a text channel without history permission still
   * counts in `total_channels`, so every call's `total` grows by one. A
   * channel that is not a text channel changes nothing at all.
   */
  lemma SkippedChannelsWithCountedTotal(front: seq<Channel>, ch: Channel, back: seq<Channel>, cb: Callback)
    requires !ch.isText || !ch.canReadHistory
    ensures var long := front + [ch] + back;
            var short := front + back;
            var pl := Collect(long, TextChannelCount(long), cb);
            var ps := Collect(short, TextChannelCount(short), cb);
            && pl.records == ps.records
            && pl.processed == ps.processed
            && |pl.events| == |ps.events|
            && (forall i :: 0 <= i < |pl.events| ==>
                  && pl.events[i].processed == ps.events[i].processed
                  && pl.events[i].channel == ps.events[i].channel
                  && pl.events[i].total == ps.events[i].total + (if ch.isText then 1 else 0))
            && (!ch.isText ==> pl == ps)
  {
    var long := front + [ch] + back;
    var short := front + back;
    TextChannelCountAppend(front + [ch], back);
    TextChannelCountAppend(front, [ch]);
    TextChannelCountAppend(front, back);
    assert TextChannelCount([ch]) == (if ch.isText then 1 else 0) by {
      assert [ch][..0] == [];
    }
    SkippedChannelsInvisible(front, ch, back, TextChannelCount(long), cb);
    EventsTotalIndependent(short, TextChannelCount(long), TextChannelCount(short), cb);
    EventsFollowCompletedChannels(short, TextChannelCount(long), cb);
    EventsFollowCompletedChannels(short, TextChannelCount(short), cb);
  }

  lemma {:induction false} UnreadableTextChannelLowersCount(channels: seq<Channel>, k: nat)
    requires k < |channels| && channels[k].isText && !channels[k].canReadHistory
    ensures ReadableTextCount(channels) < TextChannelCount(channels)
    decreases |channels|
  {
    var n := |channels| - 1;
    if k < n {
      UnreadableTextChannelLowersCount(channels[..n], k);
    }
  }

  /**
   * With a callback that does not raise and a text channel the bot may not
   * read, no call reports `processed` as much as `total_channels`: no
   * progress report made during collection shows 100%.
   */
  lemma ReportsStayBelowTotal(channels: seq<Channel>, cb: Callback, k: nat)
    requires Quiet(cb)
    requires k < |channels| && channels[k].isText && !channels[k].canReadHistory
    ensures forall e :: e in Collect(channels, TextChannelCount(channels), cb).events ==> e.processed < e.total
  {
    QuietProcessedBound(channels, cb);
    UnreadableTextChannelLowersCount(channels, k);
    ProcessedStrictlyIncreases(channels, TextChannelCount(channels), cb);
    EventsFollowCompletedChannels(channels, TextChannelCount(channels), cb);
  }

  /**
   * A callback that raises makes the channel count twice: with two text
   * channels and a first call that raises, the second call reports 3 of 2.
   */
  lemma RaisingCallbackOvercounts(a: Channel, b: Channel)
    requires a.isText && a.canReadHistory && a.history.Complete?
    requires b.isText && b.canReadHistory && b.history.Complete?
    ensures Collect([a, b], 2, Callback(0, {0})).events ==
            [ProgressEvent(1, 2, a.name), ProgressEvent(3, 2, b.name)]
  {
  }

  /**
   * Three text channels, the middle one forbidden before yielding anything:
   * the records come from the other two and the callback fires twice, not
   * three times.
   */
  lemma ForbiddenChannelScenario(a: Channel, b: Channel, c: Channel)
    requires a.isText && a.canReadHistory && a.history.Complete?
    requires b.isText && b.canReadHistory && b.history == Forbidden([])
    requires c.isText && c.canReadHistory && c.history.Complete?
    ensures Collect([a, b, c], 3, Callback(0, {})).records ==
            MessagesToRecords(a.name, a.history.messages) + MessagesToRecords(c.name, c.history.messages)
    ensures Collect([a, b, c], 3, Callback(0, {})).events ==
            [ProgressEvent(1, 3, a.name), ProgressEvent(3, 3, c.name)]
  {
    assert [a, b, c][..2] == [a, b];
    assert [a, b][..1] == [a];
    assert [a][..0] == [];
    var cb := Callback(0, {});
    var ra := MessagesToRecords(a.name, a.history.messages);
    assert Collect([a], 3, cb) == Progress(ra, 1, [ProgressEvent(1, 3, a.name)]);
    assert MessagesToRecords(b.name, []) == [];
    assert Collect([a, b], 3, cb) == Progress(ra, 2, [ProgressEvent(1, 3, a.name)]);
  }
}
