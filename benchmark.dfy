/** The flow-controlled benchmark engine of the client: the send bursts run by the
    data-channel callbacks, the byte counters, and the once-per-second statistics
    loop. The data channel is an abstract object whose replies to `send` come from
    a script, so every burst is a deterministic function of the channel's state. */
module Benchmark {
  import opened Wrappers

  /** Every benchmark message is 65535 bytes, all 0xFF. */
  const MessageSize: nat := 65535
  const MessageData: seq<bv8> := seq(MessageSize, _ => 0xFF)

  // ---------------------------------------------------------------------------
  // The data channel, as the send loop sees it

  /** What one `send` call does: it returns, after which the channel reports the
      given buffered amount and open state, or it throws. */
  datatype SendOutcome = Delivered(bufferedAfter: nat, openAfter: bool) | Throws

  /** The channel's open state, its buffered amount, and the outcomes of the
      `send` calls still to come. A call on an exhausted script throws. */
  datatype ChannelView = ChannelView(open: bool, buffered: nat, script: seq<SendOutcome>)

  /** The loop condition: `bufferedAmount() == 0`, and in the resume loops also
      `isOpen()`. */
  predicate Guard(v: ChannelView, checkOpen: bool) {
    (!checkOpen || v.open) && v.buffered == 0
  }

  predicate SendSucceeds(v: ChannelView) {
    v.script != [] && v.script[0].Delivered?
  }

  /** The channel after one `send` call. */
  function AfterSend(v: ChannelView): ChannelView {
    if v.script == [] then v
    else match v.script[0]
      case Delivered(b, o) => ChannelView(o, b, v.script[1..])
      case Throws => ChannelView(v.open, v.buffered, v.script[1..])
  }

  /** The channel after its first `k` sends, all of which returned. */
  function StateAfter(v: ChannelView, k: nat): ChannelView
    requires k <= |v.script|
    requires forall j :: 0 <= j < k ==> v.script[j].Delivered?
  {
    if k == 0 then v
    else ChannelView(v.script[k - 1].openAfter, v.script[k - 1].bufferedAfter, v.script[k..])
  }

  /** The result of one burst: how many sends returned, whether one threw (ending
      the burst inside the `try`), and the channel afterwards. */
  datatype Burst = Burst(sends: nat, threw: bool, final: ChannelView)

  /** The number of `send` calls a burst issued: the returned ones and the throwing one. */
  function Attempts(b: Burst): nat {
    b.sends + if b.threw then 1 else 0
  }

  /** What a burst `b` run on channel `v` must be: every send was issued with the
      guard true, all sends before the last returned, and the burst ended either
      with the guard false or at the first send that threw. */
  ghost predicate Performs(v: ChannelView, checkOpen: bool, b: Burst) {
    && b.sends <= |v.script|
    && (forall j :: 0 <= j < b.sends ==> v.script[j].Delivered?)
    && (forall k :: 0 <= k < Attempts(b) ==> Guard(StateAfter(v, k), checkOpen))
    && (b.threw ==> (!SendSucceeds(StateAfter(v, b.sends))
                     && b.final == AfterSend(StateAfter(v, b.sends))))
    && (!b.threw ==> (!Guard(StateAfter(v, b.sends), checkOpen)
                      && b.final == StateAfter(v, b.sends)))
  }

  /** One run of `while (guard) { send(messageData); sentSize += messageSize; }`
      inside its `try`. Every send is issued with the guard true; the burst ends as
      soon as the guard is false or at the first send that throws. */
  function RunBurst(v: ChannelView, checkOpen: bool): (b: Burst)
    ensures b.sends <= |v.script|
    decreases |v.script|
  {
    if !Guard(v, checkOpen) then Burst(0, false, v)
    else if !SendSucceeds(v) then Burst(0, true, AfterSend(v))
    else
      var rest := RunBurst(AfterSend(v), checkOpen);
      Burst(rest.sends + 1, rest.threw, rest.final)
  }

  /** Every burst does what a burst must: sends only under the guard, and stops
      exactly when the guard fails or a send throws. */
  lemma {:induction false} RunBurstPerforms(v: ChannelView, checkOpen: bool)
    ensures Performs(v, checkOpen, RunBurst(v, checkOpen))
    decreases |v.script|
  {
    if Guard(v, checkOpen) && SendSucceeds(v) {
      RunBurstPerforms(AfterSend(v), checkOpen);
      PerformsAfterSend(v, checkOpen, RunBurst(AfterSend(v), checkOpen));
    }
  }

  /** A burst that starts with a send that returned is that send followed by the
      burst on the channel it left. */
  lemma PerformsAfterSend(v: ChannelView, checkOpen: bool, rest: Burst)
    requires Guard(v, checkOpen) && SendSucceeds(v)
    requires Performs(AfterSend(v), checkOpen, rest)
    ensures Performs(v, checkOpen, Burst(rest.sends + 1, rest.threw, rest.final))
  {
    var b := Burst(rest.sends + 1, rest.threw, rest.final);
    StateAfterShift(v, rest.sends);
    assert StateAfter(v, b.sends) == StateAfter(AfterSend(v), rest.sends);
    forall k | 0 <= k < Attempts(b) ensures Guard(StateAfter(v, k), checkOpen) {
      if k > 0 {
        assert StateAfter(v, k) == StateAfter(AfterSend(v), k - 1);
      }
    }
  }

  /** One unfolding of `RunBurst`, as the loop in `SendWhileEmpty` uses it. */
  lemma RunBurstUnfold(v: ChannelView, checkOpen: bool)
    ensures !Guard(v, checkOpen) ==> RunBurst(v, checkOpen) == Burst(0, false, v)
    ensures Guard(v, checkOpen) && !SendSucceeds(v) ==> RunBurst(v, checkOpen) == Burst(0, true, AfterSend(v))
    ensures Guard(v, checkOpen) && SendSucceeds(v) ==>
      var rest := RunBurst(AfterSend(v), checkOpen);
      RunBurst(v, checkOpen) == Burst(rest.sends + 1, rest.threw, rest.final)
  {
  }

  lemma RepeatMessage(n: nat)
    ensures seq(n + 1, _ => MessageData) == seq(n, _ => MessageData) + [MessageData]
  {
  }

  /** After a successful first send, counting states from the new channel is
      counting from the old one shifted by one. */
  lemma StateAfterShift(v: ChannelView, n: nat)
    requires SendSucceeds(v)
    requires n <= |AfterSend(v).script|
    requires forall j :: 0 <= j < n ==> AfterSend(v).script[j].Delivered?
    ensures forall j :: 0 <= j < n + 1 ==> v.script[j].Delivered?
    ensures forall k :: 0 <= k <= n ==> StateAfter(AfterSend(v), k) == StateAfter(v, k + 1)
  {
    forall j | 0 <= j < n + 1 ensures v.script[j].Delivered? {
      if j > 0 { assert v.script[j] == AfterSend(v).script[j - 1]; }
    }
    forall k | 0 <= k <= n ensures StateAfter(AfterSend(v), k) == StateAfter(v, k + 1) {
      if k > 0 {
        assert AfterSend(v).script[k - 1] == v.script[k];
        assert AfterSend(v).script[k..] == v.script[k + 1..];
      }
    }
  }

  /** The data channel. Its replies come from `script`; `attempts` records the
      channel as each `send` call found it, `delivered` the messages it accepted. */
  class Channel {
    var open: bool
    var buffered: nat
    var script: seq<SendOutcome>
    var delivered: seq<seq<bv8>>
    ghost var attempts: seq<ChannelView>

    constructor (open: bool, buffered: nat, script: seq<SendOutcome>)
      ensures View() == ChannelView(open, buffered, script)
      ensures delivered == [] && attempts == []
    {
      this.open, this.buffered, this.script := open, buffered, script;
      delivered, attempts := [], [];
    }

    function View(): ChannelView
      reads this
    {
      ChannelView(open, buffered, script)
    }

    function IsOpen(): bool
      reads this
    {
      open
    }

    function BufferedAmount(): nat
      reads this
    {
      buffered
    }

    /** `send`, with the exception turned into `ok == false`. */
    method Send(message: seq<bv8>) returns (ok: bool)
      modifies this
      ensures ok == SendSucceeds(old(View()))
      ensures View() == AfterSend(old(View()))
      ensures attempts == old(attempts) + [old(View())]
      ensures delivered == if ok then old(delivered) + [message] else old(delivered)
    {
      attempts := attempts + [View()];
      if script == [] {
        ok := false;
        return;
      }
      var outcome := script[0];
      script := script[1..];
      match outcome
      case Delivered(b, o) =>
        open, buffered := o, b;
        delivered := delivered + [message];
        ok := true;
      case Throws =>
        ok := false;
    }

    /** The engine drained the buffer to the low-water mark (0 by default), the
        condition under which it fires `onBufferedAmountLow`. */
    method Drain()
      modifies this
      ensures View() == old(View()).(buffered := 0)
      ensures delivered == old(delivered) && attempts == old(attempts)
    {
      buffered := 0;
    }
  }

  /** The process-wide `receivedSize` and `sentSize` window counters. */
  class Counters {
    var receivedSize: nat
    var sentSize: nat

    constructor ()
      ensures receivedSize == 0 && sentSize == 0
    {
      receivedSize, sentSize := 0, 0;
    }

    /** The data channel's `onMessage`: a binary message adds its length to the
        received counter, a text message is ignored. */
    method OnMessage(data: ChannelData)
      modifies this
      ensures receivedSize == old(receivedSize) + (if data.BinaryData? then |data.bytes| else 0)
      ensures sentSize == old(sentSize)
    {
      if data.BinaryData? {
        receivedSize := receivedSize + |data.bytes|;
      }
    }
  }

  datatype ChannelData = BinaryData(bytes: seq<bv8>) | TextData(text: string)

  /** One send burst. `checkOpen` is false for the burst started on channel open
      and true for the bursts resumed on `onBufferedAmountLow`. */
  method SendWhileEmpty(dc: Channel, counters: Counters, checkOpen: bool) returns (sends: nat, failed: bool)
    modifies dc, counters
    ensures sends == RunBurst(old(dc.View()), checkOpen).sends
    ensures failed == RunBurst(old(dc.View()), checkOpen).threw
    ensures dc.View() == RunBurst(old(dc.View()), checkOpen).final
    ensures counters.sentSize == old(counters.sentSize) + MessageSize * sends
    ensures counters.receivedSize == old(counters.receivedSize)
    ensures dc.delivered == old(dc.delivered) + seq(sends, _ => MessageData)
    ensures |dc.attempts| == |old(dc.attempts)| + sends + (if failed then 1 else 0)
    ensures forall k :: |old(dc.attempts)| <= k < |dc.attempts| ==> Guard(dc.attempts[k], checkOpen)
    ensures !failed ==> !Guard(dc.View(), checkOpen)
  {
    ghost var whole := RunBurst(dc.View(), checkOpen);
    sends, failed := 0, false;
    while (!checkOpen || dc.IsOpen()) && dc.BufferedAmount() == 0
      invariant whole.sends == sends + RunBurst(dc.View(), checkOpen).sends
      invariant whole.threw == RunBurst(dc.View(), checkOpen).threw
      invariant whole.final == RunBurst(dc.View(), checkOpen).final
      invariant counters.sentSize == old(counters.sentSize) + MessageSize * sends
      invariant counters.receivedSize == old(counters.receivedSize)
      invariant dc.delivered == old(dc.delivered) + seq(sends, _ => MessageData)
      invariant |dc.attempts| == |old(dc.attempts)| + sends
      invariant forall k :: |old(dc.attempts)| <= k < |dc.attempts| ==> Guard(dc.attempts[k], checkOpen)
      decreases |dc.script|
    {
      RunBurstUnfold(dc.View(), checkOpen);
      RepeatMessage(sends);
      var ok := dc.Send(MessageData);
      if !ok {
        failed := true;
        break;
      }
      counters.sentSize := counters.sentSize + |MessageData|;
      sends := sends + 1;
    }
    RunBurstUnfold(dc.View(), checkOpen);
  }

  /** `dc->onOpen` on the offering side: the channel is held through a weak
      pointer, so an expired one (`null`) makes the callback a no-op. */
  method OnOpen(dc: Channel?, counters: Counters) returns (sends: nat)
    modifies dc, counters
    ensures dc == null ==> sends == 0 && counters.sentSize == old(counters.sentSize)
    ensures dc != null ==> (sends == RunBurst(old(dc.View()), false).sends
                            && dc.View() == RunBurst(old(dc.View()), false).final)
    ensures counters.sentSize == old(counters.sentSize) + MessageSize * sends
    ensures counters.receivedSize == old(counters.receivedSize)
  {
    sends := 0;
    if dc != null {
      var failed;
      sends, failed := SendWhileEmpty(dc, counters, false);
    }
  }

  /** `dc->onBufferedAmountLow` (both copies in main.cpp): a no-op on an
      expired channel, otherwise a burst that also requires the channel open. */
  method OnBufferedAmountLow(dc: Channel?, counters: Counters) returns (sends: nat)
    modifies dc, counters
    ensures dc == null ==> sends == 0 && counters.sentSize == old(counters.sentSize)
    ensures dc != null ==> (sends == RunBurst(old(dc.View()), true).sends
                            && dc.View() == RunBurst(old(dc.View()), true).final)
    ensures counters.sentSize == old(counters.sentSize) + MessageSize * sends
    ensures counters.receivedSize == old(counters.receivedSize)
  {
    sends := 0;
    if dc != null {
      var failed;
      sends, failed := SendWhileEmpty(dc, counters, true);
    }
  }

  /** A burst that keeps the buffer empty for three sends and fills it on the
      fourth stops after exactly four sends, and the burst resumed once the engine
      drains the buffer sends again. */
  lemma BackpressureScenario()
    ensures var v := ChannelView(true, 0, [Delivered(0, true), Delivered(0, true), Delivered(0, true),
                                           Delivered(MessageSize, true), Delivered(0, true),
                                           Delivered(MessageSize, true)]);
            var b := RunBurst(v, false);
            && b == Burst(4, false, ChannelView(true, MessageSize, [Delivered(0, true), Delivered(MessageSize, true)]))
            && RunBurst(b.final.(buffered := 0), true) == Burst(2, false, ChannelView(true, MessageSize, []))
  {
    var d0, dm := Delivered(0, true), Delivered(MessageSize, true);
    var v4 := ChannelView(true, MessageSize, [d0, dm]);
    assert RunBurst(v4, false) == Burst(0, false, v4);
    assert RunBurst(ChannelView(true, 0, [dm, d0, dm]), false) == Burst(1, false, v4);
    assert RunBurst(ChannelView(true, 0, [d0, dm, d0, dm]), false) == Burst(2, false, v4);
    assert RunBurst(ChannelView(true, 0, [d0, d0, dm, d0, dm]), false) == Burst(3, false, v4);
    var full := ChannelView(true, MessageSize, []);
    assert RunBurst(full, true) == Burst(0, false, full);
    assert RunBurst(ChannelView(true, 0, [dm]), true) == Burst(1, false, full);
  }

  /** The same run on a `Channel` object: the first burst on open, the engine's
      drain, and the resume on `onBufferedAmountLow`; six messages are counted. */
  method ResumeAfterDrain() returns (first: nat, resumed: nat, sent: nat)
    ensures first == 4 && resumed == 2 && sent == 6 * MessageSize
  {
    var d0, dm := Delivered(0, true), Delivered(MessageSize, true);
    var dc := new Channel(true, 0, [d0, d0, d0, dm, d0, dm]);
    var counters := new Counters();
    BackpressureScenario();
    first := OnOpen(dc, counters);
    dc.Drain();
    resumed := OnBufferedAmountLow(dc, counters);
    sent := counters.sentSize;
  }

  // ---------------------------------------------------------------------------
  // The statistics loop

  const Int32Max: int := 0x7FFF_FFFF
  const Int32Min: int := -0x8000_0000

  /** `params.durationInSec() > 0 ? params.durationInSec() : INT32_MAX`. */
  function Duration(durationInSec: int): (n: nat)
    ensures n >= 1
    ensures durationInSec > 0 ==> n == durationInSec
    ensures durationInSec <= 0 ==> n == Int32Max
  {
    if durationInSec > 0 then durationInSec else Int32Max
  }

  /** Integer kilobytes: the largest whole number of 1024-byte units in `bytes`. */
  function KB(bytes: nat): (k: nat)
    ensures k * 1024 <= bytes < (k + 1) * 1024
  {
    bytes / 1024
  }

  /** Integer megabytes, `bytes / (1024 * 1024)`. */
  function MB(bytes: nat): (m: nat)
    ensures m * 1048576 <= bytes < (m + 1) * 1048576
  {
    bytes / (1024 * 1024)
  }

  /** What the peer connection reports: lifetime bytes and the RTT in ms, if any. */
  datatype ConnectionStats = ConnectionStats(bytesReceived: nat, bytesSent: nat, rttMs: Option<nat>)

  datatype Totals = Totals(receivedMB: nat, sentMB: nat, rttMs: nat)

  /** One `#i` line, with the `Stats#` line when it is printed. */
  datatype Report = Report(tick: nat, receivedKBps: nat, sentKBps: nat, bufferSize: nat, totals: Option<Totals>)

  /** The report of tick `tick` given the window counters read at that tick. */
  function TickReport(tick: nat, received: nat, sent: nat, bufferSize: nat, stats: ConnectionStats): (r: Report)
    ensures r.tick == tick && r.bufferSize == bufferSize
    ensures r.receivedKBps * 1024 <= received < (r.receivedKBps + 1) * 1024
    ensures r.sentKBps * 1024 <= sent < (r.sentKBps + 1) * 1024
    ensures r.totals.Some? <==> tick % 5 == 0
    ensures r.totals.Some? ==> r.totals.value.receivedMB * 1048576 <= stats.bytesReceived
                                 < (r.totals.value.receivedMB + 1) * 1048576
    ensures r.totals.Some? ==> r.totals.value.sentMB * 1048576 <= stats.bytesSent
                                 < (r.totals.value.sentMB + 1) * 1048576
    ensures r.totals.Some? ==> r.totals.value.rttMs == (if stats.rttMs.Some? then stats.rttMs.value else 0)
  {
    Report(tick, KB(received), KB(sent), bufferSize,
           if tick % 5 == 0
           then Some(Totals(MB(stats.bytesReceived), MB(stats.bytesSent),
                            match stats.rttMs case Some(ms) => ms case None => 0))
           else None)
  }

  /** What happens during the sleep before one tick: the bytes the callbacks add to
      the two window counters, and what the channel and the connection report at
      the tick. */
  datatype Interval = Interval(received: nat, sent: nat, bufferSize: nat, stats: ConnectionStats)

  /** Bytes already in a window counter when the loop starts count toward tick 1. */
  function Carried(k: nat, initial: nat): nat {
    if k == 0 then initial else 0
  }

  /** The `for (int i = 1; i <= duration; ++i)` loop with the 32-bit index replaced by
      a mathematical one: it makes exactly `Duration(durationInSec)` reports, resets both
      window counters at every tick, and reports totals on every fifth tick. */
  method StatsLoop(counters: Counters, durationInSec: int, intervals: seq<Interval>) returns (reports: seq<Report>)
    requires |intervals| == Duration(durationInSec)
    modifies counters
    ensures |reports| == Duration(durationInSec)
    ensures forall k :: 0 <= k < |reports| ==>
      reports[k] == TickReport(k + 1,
                               Carried(k, old(counters.receivedSize)) + intervals[k].received,
                               Carried(k, old(counters.sentSize)) + intervals[k].sent,
                               intervals[k].bufferSize, intervals[k].stats)
    ensures counters.receivedSize == 0 && counters.sentSize == 0
  {
    var duration := Duration(durationInSec);
    var printStatCounter := 0;
    reports := [];
    var i := 1;
    while i <= duration
      invariant 1 <= i <= duration + 1
      invariant printStatCounter == i - 1 == |reports|
      invariant forall k :: 0 <= k < |reports| ==>
        reports[k] == TickReport(k + 1,
                                 Carried(k, old(counters.receivedSize)) + intervals[k].received,
                                 Carried(k, old(counters.sentSize)) + intervals[k].sent,
                                 intervals[k].bufferSize, intervals[k].stats)
      invariant i > 1 ==> counters.receivedSize == 0 && counters.sentSize == 0
      invariant i == 1 ==> (counters.receivedSize == old(counters.receivedSize)
                            && counters.sentSize == old(counters.sentSize))
    {
      var interval := intervals[i - 1];
      counters.receivedSize := counters.receivedSize + interval.received;
      counters.sentSize := counters.sentSize + interval.sent;
      var report := Report(i, counters.receivedSize / 1024, counters.sentSize / 1024, interval.bufferSize, None);
      counters.receivedSize, counters.sentSize := 0, 0;
      printStatCounter := printStatCounter + 1;
      if printStatCounter % 5 == 0 {
        var rtt := if interval.stats.rttMs.Some? then interval.stats.rttMs.value else 0;
        report := report.(totals := Some(Totals(interval.stats.bytesReceived / (1024 * 1024),
                                                interval.stats.bytesSent / (1024 * 1024), rtt)));
      }
      reports := reports + [report];
      i := i + 1;
    }
  }

  /** How many of the reports carry lifetime totals. */
  function TotalsCount(reports: seq<Report>): nat {
    if reports == [] then 0
    else TotalsCount(reports[..|reports| - 1]) + (if reports[|reports| - 1].totals.Some? then 1 else 0)
  }

  /** A run of reports numbered from 1 carries totals in exactly one report out of
      every five: `n / 5` of the first `n`. */
  lemma {:induction false} TotalsEveryFifthTick(reports: seq<Report>)
    requires forall k :: 0 <= k < |reports| ==> (reports[k].totals.Some? <==> (k + 1) % 5 == 0)
    ensures TotalsCount(reports) == |reports| / 5
  {
    if reports != [] {
      var n := |reports|;
      TotalsEveryFifthTick(reports[..n - 1]);
      assert reports[n - 1].totals.Some? <==> n % 5 == 0;
    }
  }

  /** Two 65535-byte messages in one window are reported as 127 KB/s: the
      division truncates 131070 / 1024 = 127.99. */
  lemma TwoMessagesInOneWindow(tick: nat, stats: ConnectionStats)
    ensures TickReport(tick, 2 * MessageSize, 0, 0, stats).receivedKBps == 127
  {
  }

  // ---------------------------------------------------------------------------
  // The loop index as main.cpp declares it

  /** `++i` on a 32-bit `int` with two's-complement wrap-around (in C++ the
      overflow is undefined behaviour; wrapping is what the hardware does). */
  function Int32Increment(i: int): (j: int)
    requires Int32Min <= i <= Int32Max
    ensures Int32Min <= j <= Int32Max
    ensures i < Int32Max ==> j == i + 1
  {
    if i == Int32Max then Int32Min else i + 1
  }

  /** The loop guard `i <= duration` as written, on the 32-bit index. */
  predicate TickLoopContinues(i: int, duration: int) {
    i <= duration
  }

  /** With `durationInSec <= 0` the bound is INT32_MAX, and no 32-bit index exceeds
      it: after tick 2147483647 the increment overflows and the guard still holds,
      so the as-written loop never reaches its cleanup code. */
  lemma AsWrittenTickLoopNeverExits(durationInSec: int, i: int)
    requires durationInSec <= 0
    requires Int32Min <= i <= Int32Max
    ensures TickLoopContinues(Int32Increment(i), Duration(durationInSec))
    ensures Int32Increment(Int32Max) == Int32Min
  {
  }
}
