/**
 * What main's scheduler loop does with the two protothreads: one frame
 * byte crosses the channel per pass, in the order the transmitter writes
 * them; the first attempt's frame is refused, the transmitter times out
 * and resends, the second frame is acknowledged, and the loop ends with
 * the values main asserts.
 */
module ReliableLinkRun {
  import opened Common
  import opened ReliableLink

  /** The frame an attempt sends: STX, TEST_LEN, test_data, its CHK byte, ETX. */
  function FrameOf(pkt: Byte): (f: seq<Byte>)
    ensures |f| == TestLen + 4
  {
    [STX, TestLen] + TestData() + [pkt, ETX]
  }

  /** Only the last byte of a frame is ETX, unless CHK happens to be. */
  lemma OnlyLastIsEtx(pkt: Byte, k: nat)
    requires pkt != ETX && k < TestLen + 3
    ensures FrameOf(pkt)[k] != ETX
  {
  }

  predicate IsTaken(pc: TxPc) {
    pc in {StxTaken, LenTaken, DataTaken, ChkTaken, EtxTaken}
  }

  /** The frame position of the byte whose `...Taken` wait the transmitter is at. */
  function TxPos(ts: TxSide): nat
    requires TxValid(ts) && IsTaken(ts.pc)
  {
    match ts.pc
    case StxTaken => 0
    case LenTaken => 1
    case DataTaken => 2 + ts.j
    case ChkTaken => TestLen + 2
    case EtxTaken => TestLen + 3
  }

  /** `k` scheduler passes. */
  function Passes(c: Sched, k: nat): (d: Sched)
    requires SchedValid(c)
    ensures SchedValid(d) && d.sh.ticks == c.sh.ticks + k
    decreases k
  {
    if k == 0 then c else Passes(Pass(c), k - 1)
  }

  /** The receiver taking the bytes `bytes` one per invocation, until it acknowledges a frame. */
  function RxOnAll(rs: RxSide, bytes: seq<Byte>): (r: (RxSide, bool))
    requires RxValid(rs) && rs.pc != RxBegin
    ensures RxValid(r.0)
    decreases |bytes|
  {
    if bytes == [] then (rs, false)
    else
      var (r1, acked) := RxOnByte(rs, bytes[0]);
      if acked then (r1, true) else RxOnAll(r1, bytes[1..])
  }

  lemma RxOnAllCons(rs: RxSide, b: Byte, t: seq<Byte>)
    requires RxValid(rs) && rs.pc != RxBegin
    ensures var (r1, acked) := RxOnByte(rs, b);
      RxOnAll(rs, [b] + t) == if acked then (r1, true) else RxOnAll(r1, t)
  {
    assert ([b] + t)[1..] == t;
  }

  // ---------------------------------------------------------------------------
  // One invocation of each thread
  // ---------------------------------------------------------------------------

  lemma TxInvokeStep(sh: Shared, ts: TxSide)
    requires TxValid(ts)
    ensures var r := TxResume(sh, ts);
      TxInvoke(sh, ts) ==
        if r.2 == Continue then TxInvoke(r.0, r.1)
        else (r.0, r.1, if r.2 == Blocked then Waiting else Exited)
  {
  }

  lemma RxInvokeStep(sh: Shared, rs: RxSide)
    requires RxValid(rs)
    ensures var r := RxResume(sh, rs);
      RxInvoke(sh, rs) ==
        if r.2 == Continue then RxInvoke(r.0, r.1)
        else (r.0, r.1, if r.2 == Blocked then Waiting else Exited)
  {
  }

  /** From a `...Taken` wait with the channel emptied, the transmitter writes the frame's next byte and blocks. */
  lemma TxSendsNext(sh: Shared, ts: TxSide)
    requires TxValid(ts) && IsTaken(ts.pc) && ts.pc != EtxTaken && sh.channelFlag == 0
    ensures var r := TxInvoke(sh, ts);
      r.2 == Waiting && r.0 == sh.(channelByte := FrameOf(ts.pktChk)[TxPos(ts) + 1], channelFlag := 1) &&
      IsTaken(r.1.pc) && TxPos(r.1) == TxPos(ts) + 1 &&
      r.1.attempts == ts.attempts && r.1.pktChk == ts.pktChk && r.1.timer == ts.timer &&
      r.1.success == ts.success
  {
    var f := FrameOf(ts.pktChk);
    var (sh1, ts1, r1) := TxResume(sh, ts);
    TxInvokeStep(sh, ts);
    assert r1 == Continue && sh1 == sh;
    var (sh2, ts2, r2) := TxResume(sh1, ts1);
    TxInvokeStep(sh1, ts1);
    assert r2 == Continue && IsTaken(ts2.pc) && sh2.channelFlag == 1;
    assert sh2 == sh.(channelByte := f[TxPos(ts) + 1], channelFlag := 1);
    var (sh3, ts3, r3) := TxResume(sh2, ts2);
    TxInvokeStep(sh2, ts2);
    assert r3 == Blocked;
  }

  /** At a wait with the channel full, the receiver takes the byte, handles it and blocks or exits. */
  lemma RxTakes(sh: Shared, rs: RxSide)
    requires RxValid(rs) && rs.pc != RxBegin && sh.channelFlag == 1
    ensures var (rs1, acked) := RxOnByte(rs, sh.channelByte);
      RxInvoke(sh, rs) ==
        if acked then (sh.(channelFlag := 0, ackByte := ACK, ackFlag := 1), rs1, Exited)
        else (sh.(channelFlag := 0), rs1, Waiting)
  {
    var (rs1, acked) := RxOnByte(rs, sh.channelByte);
    RxInvokeStep(sh, rs);
    if !acked {
      RxInvokeStep(sh.(channelFlag := 0), rs1);
      var r := RxResume(sh.(channelFlag := 0), rs1);
      assert r.2 == Blocked;
    }
  }

  /** At a wait with the channel empty, the receiver blocks and changes nothing. */
  lemma RxIdle(sh: Shared, rs: RxSide)
    requires RxValid(rs) && rs.pc != RxBegin && sh.channelFlag != 1
    ensures RxInvoke(sh, rs) == (sh, rs, Waiting)
  {
  }

  // ---------------------------------------------------------------------------
  // Passes that move one frame byte
  // ---------------------------------------------------------------------------

  /**
   * Between passes while a frame is in flight: the transmitter waits after
   * frame byte `p`, which the receiver has taken, and no ACK is pending.
   */
  predicate Mid(c: Sched, p: nat) {
    SchedValid(c) && !c.doneTx && !c.doneRx &&
    c.sh.channelFlag == 0 && c.sh.ackFlag == 0 &&
    IsTaken(c.ts.pc) && TxPos(c.ts) == p && c.rs.pc != RxBegin
  }

  /** The receiver sees the bytes in the order they were written, each exactly once: one pass moves byte p + 1. */
  lemma BytePass(c: Sched, p: nat)
    requires Mid(c, p) && p < TestLen + 3
    ensures var b := FrameOf(c.ts.pktChk)[p + 1];
      var (rs1, acked) := RxOnByte(c.rs, b);
      var d := Pass(c);
      d.rs == rs1 && d.doneRx == acked && !d.doneTx &&
      d.sh.channelFlag == 0 && d.sh.ackFlag == (if acked then 1 else 0) &&
      d.sh.ackByte == (if acked then ACK else c.sh.ackByte) &&
      IsTaken(d.ts.pc) && TxPos(d.ts) == p + 1 &&
      d.ts.attempts == c.ts.attempts && d.ts.pktChk == c.ts.pktChk &&
      d.ts.timer == c.ts.timer && d.ts.success == c.ts.success
  {
    TxSendsNext(c.sh, c.ts);
    var t := TxInvoke(c.sh, c.ts);
    RxTakes(t.0, c.rs);
  }

  /** One pass of a frame in flight, with what it means for the rest of the frame and for main's loop. */
  lemma FrameStep(c: Sched, p: nat) returns (d: Sched)
    requires Mid(c, p) && p < TestLen + 3 && c.ts.pktChk != ETX && c.sh.ticks < 1000
    ensures var f := FrameOf(c.ts.pktChk);
      var (rs1, acked) := RxOnByte(c.rs, f[p + 1]);
      d == Pass(c) && d.rs == rs1 && d.doneRx == acked && !d.doneTx &&
      d.sh.channelFlag == 0 && d.sh.ackFlag == (if acked then 1 else 0) &&
      d.sh.ackByte == (if acked then ACK else c.sh.ackByte) &&
      IsTaken(d.ts.pc) && TxPos(d.ts) == p + 1 &&
      d.ts.attempts == c.ts.attempts && d.ts.pktChk == c.ts.pktChk &&
      d.ts.timer == c.ts.timer && d.ts.success == c.ts.success &&
      RxOnAll(c.rs, f[p + 1..]) == (if acked then (rs1, true) else RxOnAll(rs1, f[p + 2..]))
    ensures RunMain(c) == RunMain(d) && Passes(c, TestLen + 3 - p) == Passes(d, TestLen + 2 - p)
    ensures p + 1 < TestLen + 3 ==> Mid(d, p + 1)
  {
    var f := FrameOf(c.ts.pktChk);
    d := Pass(c);
    BytePass(c, p);
    RxOnAllCons(c.rs, f[p + 1], f[p + 2..]);
    assert f[p + 1..] == [f[p + 1]] + f[p + 2..];
    RunOn(c);
    if p + 1 < TestLen + 3 {
      OnlyLastIsEtx(c.ts.pktChk, p + 1);
    }
  }

  /** The passes that carry the rest of a frame, from byte p + 1 to ETX. */
  lemma {:induction false} FramePasses(c: Sched, p: nat)
    requires Mid(c, p) && p <= TestLen + 3 && c.ts.pktChk != ETX
    requires c.sh.ticks + (TestLen + 3 - p) <= 1000
    ensures var f := FrameOf(c.ts.pktChk);
      var (rs1, acked) := RxOnAll(c.rs, f[p + 1..]);
      var d := Passes(c, TestLen + 3 - p);
      d.rs == rs1 && d.doneRx == acked && !d.doneTx &&
      d.sh.channelFlag == 0 && d.sh.ackFlag == (if acked then 1 else 0) &&
      d.sh.ackByte == (if acked then ACK else c.sh.ackByte) &&
      d.ts.pc == EtxTaken && d.ts.attempts == c.ts.attempts && d.ts.pktChk == c.ts.pktChk &&
      d.ts.timer == c.ts.timer && d.ts.success == c.ts.success &&
      RunMain(c) == RunMain(d)
    decreases TestLen + 3 - p
  {
    var f := FrameOf(c.ts.pktChk);
    if p == TestLen + 3 {
      assert f[p + 1..] == [];
    } else {
      var d1 := FrameStep(c, p);
      if p + 1 < TestLen + 3 {
        FramePasses(d1, p + 1);
      } else {
        assert f[p + 2..] == [];
      }
    }
  }

  // ---------------------------------------------------------------------------
  // The receiver's view of one frame
  // ---------------------------------------------------------------------------

  lemma PrefixGrows(m: seq<Byte>, d: seq<Byte>, k: nat)
    requires k < |m| && k < |d| && m[..k] == d[..k]
    ensures m[k := d[k]][..k + 1] == d[..k + 1]
  {
    assert forall x :: 0 <= x < k ==> m[x] == m[..k][x];
  }

  lemma {:induction false} RxDataLoop(rs: RxSide, k: nat, t: seq<Byte>) returns (r: RxSide)
    requires RxValid(rs) && rs.pc == DataWait && rs.len == TestLen && rs.i == k < TestLen
    requires rs.lastMessage[..k] == TestData()[..k] && rs.sum == Sum8(TestData()[..k])
    ensures RxValid(r) && r.pc == ChkWait && r.lastLength == TestLen && r.len == TestLen
    ensures r.lastMessage[..TestLen] == TestData() && r.sum == Sum8(TestData())
    ensures r.successCount == rs.successCount
    ensures RxOnAll(rs, TestData()[k..] + t) == RxOnAll(r, t)
    decreases TestLen - k
  {
    var d := TestData();
    var (r1, acked) := RxOnByte(rs, d[k]);
    assert d[k..] + t == [d[k]] + (d[k + 1..] + t);
    RxOnAllCons(rs, d[k], d[k + 1..] + t);
    assert r1.lastMessage == rs.lastMessage[k := d[k]];
    PrefixGrows(rs.lastMessage, d, k);
    assert d[..k + 1][..k] == d[..k];
    if k + 1 < TestLen {
      r := RxDataLoop(r1, k + 1, t);
    } else {
      assert d[k + 1..] + t == t && d[..k + 1] == d;
      r := r1;
    }
  }

  /**
   * A receiver that has just taken STX, fed the rest of a frame of "HELLO"
   * with CHK byte `pkt`, stores "HELLO" and its length and acknowledges
   * exactly when `pkt` is the data's checksum; otherwise it is back waiting
   * for STX.
   */
  lemma RxFrame(rs: RxSide, pkt: Byte) returns (r: RxSide)
    requires RxValid(rs) && rs.pc == LenWait
    ensures RxOnAll(rs, FrameOf(pkt)[1..]) == (r, pkt == Sum8(TestData()))
    ensures r.lastMessage[..TestLen] == TestData() && r.lastLength == TestLen
    ensures r.successCount == rs.successCount + (if pkt == Sum8(TestData()) then 1 else 0)
    ensures pkt != Sum8(TestData()) ==> r.pc == StxWait
  {
    var d := TestData();
    var f := FrameOf(pkt);
    assert f[1..] == [TestLen] + (d[0..] + [pkt, ETX]);
    var (r1, _) := RxOnByte(rs, TestLen);
    RxOnAllCons(rs, TestLen, d[0..] + [pkt, ETX]);
    assert r1.lastMessage[..0] == d[..0];
    var r2 := RxDataLoop(r1, 0, [pkt, ETX]);
    var (r3, _) := RxOnByte(r2, pkt);
    RxOnAllCons(r2, pkt, [ETX]);
    var (r4, acked) := RxOnByte(r3, ETX);
    RxOnAllCons(r3, ETX, []);
    r := r4;
  }

  // ---------------------------------------------------------------------------
  // The run
  // ---------------------------------------------------------------------------

  /** A pass that leaves RunMain's result as it was, because it does not end the loop. */
  lemma RunOn(c: Sched)
    requires SchedValid(c) && !Pass(c).doneTx && Pass(c).sh.ticks <= 1000
    ensures RunMain(c) == RunMain(Pass(c))
  {
  }

  /** Pass 1: the transmitter counts attempt 1, writes STX and blocks; the receiver takes it. */
  lemma FirstPass() returns (d: Sched)
    ensures d == Pass(SchedInitial()) && Mid(d, 0) && d.sh.ticks == 1 && d.sh.ackByte == 0
    ensures d.ts.attempts == 1 && d.ts.pktChk == Sum8(TestData()) + 1 && d.ts.success == 0
    ensures d.rs.pc == LenWait && d.rs.successCount == 0
    ensures RunMain(SchedInitial()) == RunMain(d)
  {
    var c := SchedInitial();
    HelloChecksum();
    var (sh1, ts1, r1) := TxResume(c.sh, c.ts);
    var (sh2, ts2, r2) := TxResume(sh1, ts1);
    var (sh3, ts3, r3) := TxResume(sh2, ts2);
    TxInvokeStep(c.sh, c.ts);
    TxInvokeStep(sh1, ts1);
    TxInvokeStep(sh2, ts2);
    assert r1 == Continue && r2 == Continue && r3 == Blocked;
    var (sh4, rs4, r4) := RxResume(sh2, c.rs);
    RxInvokeStep(sh2, c.rs);
    assert r4 == Continue && sh4 == sh2;
    RxTakes(sh2, rs4);
    d := Pass(c);
  }

  /** After the frame's last byte, the transmitter sets the timer and waits; no ACK has come, so it blocks. */
  lemma ArmPass(c: Sched) returns (d: Sched)
    requires SchedValid(c) && !c.doneTx && !c.doneRx && c.ts.pc == EtxTaken
    requires c.sh.channelFlag == 0 && c.sh.ackFlag == 0 && c.rs.pc != RxBegin && c.sh.ticks < 1000
    ensures d == Pass(c) && RunMain(c) == RunMain(d)
    ensures d == c.(sh := c.sh.(ticks := c.sh.ticks + 1), ts := c.ts.(timer := Timer(c.sh.ticks, Timeout), pc := AckWait))
  {
    var (sh1, ts1, r1) := TxResume(c.sh, c.ts);
    var (sh2, ts2, r2) := TxResume(sh1, ts1);
    TxInvokeStep(c.sh, c.ts);
    TxInvokeStep(sh1, ts1);
    assert r1 == Continue && r2 == Blocked;
    RxIdle(c.sh, c.rs);
    d := Pass(c);
  }

  /** While no ACK has come and the timer has not expired, passes change nothing but the clock. */
  lemma {:induction false} WaitPasses(c: Sched, k: nat)
    requires SchedValid(c) && !c.doneTx && !c.doneRx && c.ts.pc == AckWait
    requires c.sh.channelFlag == 0 && c.sh.ackFlag == 0 && c.rs.pc != RxBegin
    requires c.sh.ticks + k <= c.ts.timer.start + c.ts.timer.interval && c.sh.ticks + k <= 1000
    ensures Passes(c, k) == c.(sh := c.sh.(ticks := c.sh.ticks + k))
    ensures RunMain(c) == RunMain(Passes(c, k))
    decreases k
  {
    if k > 0 {
      assert TxResume(c.sh, c.ts).2 == Blocked;
      RxIdle(c.sh, c.rs);
      var d := Pass(c);
      assert d == c.(sh := c.sh.(ticks := c.sh.ticks + 1));
      WaitPasses(d, k - 1);
    }
  }

  /** The pass at which the timer has expired with no ACK: the transmitter starts the next attempt and writes STX. */
  lemma RetryPass(c: Sched) returns (d: Sched)
    requires SchedValid(c) && !c.doneTx && !c.doneRx && c.ts.pc == AckWait
    requires c.sh.channelFlag == 0 && c.sh.ackFlag == 0 && c.rs.pc == StxWait && c.sh.ticks < 1000
    requires Expired(c.ts.timer, c.sh.ticks)
    ensures d == Pass(c) && Mid(d, 0) && RunMain(c) == RunMain(d)
    ensures d.ts.attempts == c.ts.attempts + 1 && d.ts.success == c.ts.success
    ensures d.ts.pktChk == PacketChk(c.ts.attempts + 1, Sum8(TestData()))
    ensures d.rs == c.rs.(byte := STX, pc := LenWait) && d.sh.ackByte == c.sh.ackByte
  {
    var (sh1, ts1, r1) := TxResume(c.sh, c.ts);
    var (sh2, ts2, r2) := TxResume(sh1, ts1);
    var (sh3, ts3, r3) := TxResume(sh2, ts2);
    TxInvokeStep(c.sh, c.ts);
    TxInvokeStep(sh1, ts1);
    TxInvokeStep(sh2, ts2);
    assert r1 == Continue && r2 == Continue && r3 == Blocked;
    RxTakes(sh2, c.rs);
    d := Pass(c);
  }

  /** The pass after an acknowledged frame: the transmitter sets the timer, consumes the ACK and exits. */
  lemma FinalPass(c: Sched) returns (d: Sched)
    requires SchedValid(c) && !c.doneTx && c.doneRx && c.ts.pc == EtxTaken
    requires c.sh.channelFlag == 0 && c.sh.ackFlag == 1 && c.sh.ackByte == ACK
    ensures d == Pass(c) && d.doneTx && RunMain(c) == d
    ensures d.ts.success == 1 && d.ts.attempts == c.ts.attempts && d.rs == c.rs
    ensures d.sh.ticks == c.sh.ticks + 1 && d.sh.ackFlag == 0
  {
    var (sh1, ts1, r1) := TxResume(c.sh, c.ts);
    var (sh2, ts2, r2) := TxResume(sh1, ts1);
    TxInvokeStep(c.sh, c.ts);
    TxInvokeStep(sh1, ts1);
    assert r1 == Continue && r2 == Ended;
    d := Pass(c);
  }

  /**
   * Passes 1 to 14: attempt 1's frame, with CHK one too high, is refused, so
   * no ACK comes; the timer set at tick 9 has expired when pass 15 begins.
   */
  lemma FirstAttempt() returns (c: Sched)
    ensures SchedValid(c) && !c.doneTx && !c.doneRx && c.ts.pc == AckWait
    ensures RunMain(SchedInitial()) == RunMain(c)
    ensures c.sh.channelFlag == 0 && c.sh.ackFlag == 0 && c.rs.pc == StxWait
    ensures c.sh.ticks == 14 && Expired(c.ts.timer, c.sh.ticks)
    ensures c.ts.attempts == 1 && c.ts.success == 0 && c.rs.successCount == 0
  {
    HelloChecksum();
    var c1 := FirstPass();
    FramePasses(c1, 0);
    var c9 := Passes(c1, TestLen + 3);
    var r1 := RxFrame(c1.rs, c1.ts.pktChk);
    var c10 := ArmPass(c9);
    WaitPasses(c10, 4);
    c := Passes(c10, 4);
  }

  /**
   * Passes 15 to 23: attempt 2 resends the frame with the right CHK; the
   * receiver stores "HELLO", acknowledges and exits.
   */
  lemma SecondAttempt(c: Sched) returns (d: Sched)
    requires SchedValid(c) && !c.doneTx && !c.doneRx && c.ts.pc == AckWait
    requires c.sh.channelFlag == 0 && c.sh.ackFlag == 0 && c.rs.pc == StxWait
    requires c.sh.ticks == 14 && Expired(c.ts.timer, c.sh.ticks)
    requires c.ts.attempts == 1 && c.ts.success == 0 && c.rs.successCount == 0
    ensures SchedValid(d) && !d.doneTx && d.doneRx && d.ts.pc == EtxTaken
    ensures d.sh.channelFlag == 0 && d.sh.ackFlag == 1 && d.sh.ackByte == ACK
    ensures RunMain(c) == RunMain(d) && d.sh.ticks == 23
    ensures d.ts.attempts == 2 && d.ts.success == 0 && d.rs.successCount == 1
    ensures d.rs.lastLength == TestLen && d.rs.lastMessage[..TestLen] == TestData()
  {
    var c15 := RetryPass(c);
    HelloChecksum();
    FramePasses(c15, 0);
    d := Passes(c15, TestLen + 3);
    var r2 := RxFrame(c15.rs, c15.ts.pktChk);
  }

  /**
   * End to end: main's loop stops because the transmitter exited, after 24
   * passes, with transmission_success == 1, success_count == 1,
   * last_length == 5, last_message starting with "HELLO" and
   * attempts_count == 2 -- every value main asserts.
   */
  lemma ProgramOutcome()
    ensures var d := RunMain(SchedInitial());
      d.doneTx && d.sh.ticks == 24 &&
      d.ts.success == 1 && d.rs.successCount == 1 && d.rs.lastLength == TestLen &&
      d.rs.lastMessage[..TestLen] == TestData() && d.ts.attempts == 2
  {
    var c14 := FirstAttempt();
    var c23 := SecondAttempt(c14);
    // Pass 24: the ACK is there; the transmitter exits.
    var c24 := FinalPass(c23);
  }
}
