/**
 * The protothreads reliability layer: a transmitter and a receiver thread,
 * run cooperatively, that pass a frame STX LEN DATA CHK ETX through a
 * one-byte channel; the receiver acknowledges a good frame through a
 * one-byte ACK slot, and the transmitter resends when no ACK comes within
 * a timeout counted in scheduler passes.
 *
 * A protothread is a function resumed where it last blocked.  Here each
 * thread's resumption point is an explicit program counter naming the
 * PT_WAIT_UNTIL it waits at, and its `static` locals are fields of a record.
 * The program's variables are split by who writes them: `Shared` holds the
 * channel, the ACK slot and the clock; `TxSide` and `RxSide` hold what only
 * the transmitter or only the receiver writes.
 */
module ReliableLink {
  import opened Common

  const ACK: Byte := 0x06
  /** TIMEOUT, in ticks (scheduler passes). */
  const Timeout: int := 5
  const TestLen: nat := 5

  /** test_data: "HELLO". */
  function TestData(): (d: seq<Byte>)
    ensures |d| == TestLen
  {
    [0x48, 0x45, 0x4C, 0x4C, 0x4F]
  }

  // ---------------------------------------------------------------------------
  // Checksum: an unsigned char accumulator, so each addition wraps mod 256
  // ---------------------------------------------------------------------------

  function AddByte(acc: Byte, b: Byte): Byte {
    (acc + b) % 0x100
  }

  /** The data-only checksum as both threads compute it, one wrapping addition per byte. */
  function Sum8(d: seq<Byte>): Byte {
    if d == [] then 0 else AddByte(Sum8(d[..|d| - 1]), d[|d| - 1])
  }

  function Sum(d: seq<Byte>): nat {
    if d == [] then 0 else Sum(d[..|d| - 1]) + d[|d| - 1]
  }

  /** Wrapping at every step is the same as wrapping once at the end: the checksum is the data's sum mod 256. */
  lemma {:induction false} Sum8IsSumMod(d: seq<Byte>)
    ensures Sum8(d) == Sum(d) % 0x100
  {
    if d != [] {
      Sum8IsSumMod(d[..|d| - 1]);
    }
  }

  /** The checksum of "HELLO": (0x48 + 0x45 + 0x4C + 0x4C + 0x4F) mod 256 = 0x74. */
  lemma HelloChecksum()
    ensures Sum8(TestData()) == 0x74
  {
    var d := TestData();
    assert d[..4][..3][..2][..1][..0] == [];
    assert Sum8(d[..1]) == 0x48;
    assert Sum8(d[..2]) == 0x8D by { assert d[..2][..1] == d[..1]; }
    assert Sum8(d[..3]) == 0xD9 by { assert d[..3][..2] == d[..2]; }
    assert Sum8(d[..4]) == 0x25 by { assert d[..4][..3] == d[..3]; }
    assert d[..5] == d;
  }

  // ---------------------------------------------------------------------------
  // Timer (struct timer, timer_set, timer_expired)
  // ---------------------------------------------------------------------------

  datatype Timer = Timer(start: int, interval: int)

  /** timer_expired: `interval` ticks or more have passed since `start`. */
  predicate Expired(t: Timer, ticks: int) {
    ticks - t.start >= t.interval
  }

  // ---------------------------------------------------------------------------
  // What both threads touch
  // ---------------------------------------------------------------------------

  /** channel_byte / channel_flag, ack_byte / ack_flag, and the clock `ticks`. */
  datatype Shared = Shared(channelByte: Byte, channelFlag: int, ackByte: Byte, ackFlag: int, ticks: int)

  /** ack_received: true exactly when an ACK byte is waiting, which it then consumes. */
  function AckReceived(sh: Shared): (r: (bool, Shared))
    ensures r.0 <==> sh.ackFlag != 0 && sh.ackByte == ACK
    ensures r.0 ==> r.1 == sh.(ackFlag := 0)
    ensures !r.0 ==> r.1 == sh
  {
    if sh.ackFlag != 0 && sh.ackByte == ACK then (true, sh.(ackFlag := 0)) else (false, sh)
  }

  /** What one resumption ends with: blocked at a wait, on to the next wait, or at PT_END. */
  datatype Resume = Blocked | Continue | Ended

  /** A thread function's return value: 0 (waiting) or 2 (exited). */
  datatype Status = Waiting | Exited

  // ---------------------------------------------------------------------------
  // transmitter_thread
  // ---------------------------------------------------------------------------

  /**
   * Where the transmitter resumes: at its start, or at one of its waits.
   * Each byte has two waits on an empty channel: `...Free` before writing it
   * and `...Taken` after, until the receiver has taken it.
   */
  datatype TxPc =
    | TxBegin
    | StxFree | StxTaken
    | LenFree | LenTaken
    | DataFree | DataTaken
    | ChkFree | ChkTaken
    | EtxFree | EtxTaken
    | AckWait

  /** The transmitter's statics, with attempts_count and transmission_success, which only it writes. */
  datatype TxSide = TxSide(pc: TxPc, timer: Timer, checksum: Byte, pktChk: Byte, j: int,
                           attempts: int, success: int)

  /** The data loop's cursor stays within test_data. */
  predicate TxValid(ts: TxSide) {
    ts.pc in {DataFree, DataTaken} ==> 0 <= ts.j < TestLen
  }

  /** Static storage starts zeroed; the protothread starts at PT_BEGIN. */
  function TxInitial(): (ts: TxSide)
    ensures TxValid(ts) && ts.pc == TxBegin
  {
    TxSide(TxBegin, Timer(0, 0), 0, 0, 0, 0, 0)
  }

  /** The CHK byte of attempt `attempts`: off by one on the first attempt, the checksum afterwards. */
  function PacketChk(attempts: int, checksum: Byte): Byte {
    if attempts == 1 then (checksum + 1) % 0x100 else checksum
  }

  /** The first attempt's CHK byte is wrong, every later one is right. */
  lemma PacketChkWrongOnlyFirst(attempts: int, checksum: Byte)
    ensures PacketChk(attempts, checksum) == checksum <==> attempts != 1
  {
  }

  /** One pass through the top of the do/while body: count the attempt, sum the data, choose CHK. */
  function TxAttempt(ts: TxSide): (t: TxSide)
    ensures TxValid(t) && t.pc == StxFree && t.attempts == ts.attempts + 1
    ensures t.checksum == Sum8(TestData()) && t.pktChk == PacketChk(t.attempts, t.checksum)
    ensures t.timer == ts.timer && t.success == ts.success
  {
    var checksum := Sum8(TestData());
    ts.(attempts := ts.attempts + 1, checksum := checksum, j := TestLen,
        pktChk := PacketChk(ts.attempts + 1, checksum), pc := StxFree)
  }

  /** The byte written at a `...Free` wait. */
  function TxOut(ts: TxSide): Byte
    requires TxValid(ts) && ts.pc in {StxFree, LenFree, DataFree, ChkFree, EtxFree}
  {
    match ts.pc
    case StxFree => STX
    case LenFree => TestLen
    case DataFree => TestData()[ts.j]
    case ChkFree => ts.pktChk
    case EtxFree => ETX
  }

  /** A rank that falls with every resumption that goes on to the next wait within one invocation. */
  function TxMeasure(sh: Shared, ts: TxSide): nat {
    (if sh.channelFlag == 0 then 10 else 0) +
    (match ts.pc
     case TxBegin => 1
     case AckWait => 2
     case EtxTaken => 3
     case StxTaken => 1
     case LenTaken => 1
     case DataTaken => 1
     case ChkTaken => 1
     case _ => 0)
  }

  /**
   * One resumption of the transmitter, from its program counter to the next
   * wait or to PT_END.  The channel discipline: it writes the channel only
   * when it was empty, and leaves it full; of the ACK slot it only ever
   * consumes, at the ACK wait.
   */
  function TxResume(sh: Shared, ts: TxSide): (r: (Shared, TxSide, Resume))
    requires TxValid(ts)
    ensures TxValid(r.1) && r.0.ticks == sh.ticks && r.0.ackByte == sh.ackByte
    ensures r.2 == Blocked ==> r.0 == sh && r.1 == ts
    ensures r.2 == Continue ==> TxMeasure(r.0, r.1) < TxMeasure(sh, ts)
    ensures (r.0.channelByte != sh.channelByte || r.0.channelFlag != sh.channelFlag) ==>
      sh.channelFlag == 0 && r.0.channelFlag == 1
    ensures r.0.ackFlag != sh.ackFlag ==> ts.pc == AckWait && r.0.ackFlag == 0
    ensures r.2 == Ended <==> ts.pc == AckWait && AckReceived(sh).0 && !Expired(ts.timer, sh.ticks)
    ensures r.2 == Ended ==> r.1.success == 1 && r.1.attempts == ts.attempts
    ensures ts.pc == AckWait && r.2 == Continue ==>
      Expired(ts.timer, sh.ticks) && r.1 == TxAttempt(ts)
    ensures ts.pc == AckWait && Expired(ts.timer, sh.ticks) ==>
      r.2 == Continue && r.1 == TxAttempt(ts)
  {
    var free := sh.channelFlag == 0;
    match ts.pc
    case TxBegin =>
      (sh, TxAttempt(ts.(attempts := 0)), Continue)
    case StxFree =>
      if !free then (sh, ts, Blocked)
      else (sh.(channelByte := TxOut(ts), channelFlag := 1), ts.(pc := StxTaken), Continue)
    case StxTaken =>
      if !free then (sh, ts, Blocked) else (sh, ts.(pc := LenFree), Continue)
    case LenFree =>
      if !free then (sh, ts, Blocked)
      else (sh.(channelByte := TxOut(ts), channelFlag := 1), ts.(pc := LenTaken), Continue)
    case LenTaken =>
      if !free then (sh, ts, Blocked)
      else (sh, ts.(j := 0, pc := if 0 < TestLen then DataFree else ChkFree), Continue)
    case DataFree =>
      if !free then (sh, ts, Blocked)
      else (sh.(channelByte := TxOut(ts), channelFlag := 1), ts.(pc := DataTaken), Continue)
    case DataTaken =>
      if !free then (sh, ts, Blocked)
      else (sh, ts.(j := ts.j + 1, pc := if ts.j + 1 < TestLen then DataFree else ChkFree), Continue)
    case ChkFree =>
      if !free then (sh, ts, Blocked)
      else (sh.(channelByte := TxOut(ts), channelFlag := 1), ts.(pc := ChkTaken), Continue)
    case ChkTaken =>
      if !free then (sh, ts, Blocked) else (sh, ts.(pc := EtxFree), Continue)
    case EtxFree =>
      if !free then (sh, ts, Blocked)
      else (sh.(channelByte := TxOut(ts), channelFlag := 1), ts.(pc := EtxTaken), Continue)
    case EtxTaken =>
      if !free then (sh, ts, Blocked)
      else (sh, ts.(timer := Timer(sh.ticks, Timeout), pc := AckWait), Continue)
    case AckWait =>
      var (acked, sh1) := AckReceived(sh);
      if !(acked || Expired(ts.timer, sh.ticks)) then (sh, ts, Blocked)
      else if Expired(ts.timer, sh1.ticks) then (sh1, TxAttempt(ts), Continue)
      else (sh1, ts.(success := 1, pc := TxBegin), Ended)
  }

  /**
   * TIMEOUT's meaning at the ACK wait: with no ACK pending, the transmitter
   * stays blocked exactly while fewer than `interval` ticks have passed since
   * timer_set, and once they have, it starts the next attempt, leaving the
   * shared state alone.
   */
  lemma AckWaitTimeout(sh: Shared, ts: TxSide)
    requires TxValid(ts) && ts.pc == AckWait && !AckReceived(sh).0
    ensures var r := TxResume(sh, ts);
      (r.2 == Blocked <==> sh.ticks < ts.timer.start + ts.timer.interval) &&
      (r.2 != Blocked ==> r.0 == sh && r.1 == TxAttempt(ts) && r.2 == Continue)
  {
  }

  /** One call of transmitter_thread: resumptions until one blocks (returns 0) or reaches PT_END (returns 2). */
  function TxInvoke(sh: Shared, ts: TxSide): (r: (Shared, TxSide, Status))
    requires TxValid(ts)
    ensures TxValid(r.1) && r.0.ticks == sh.ticks && r.0.ackByte == sh.ackByte
    decreases TxMeasure(sh, ts)
  {
    var (sh1, ts1, res) := TxResume(sh, ts);
    match res
    case Blocked => (sh1, ts1, Waiting)
    case Ended => (sh1, ts1, Exited)
    case Continue => TxInvoke(sh1, ts1)
  }

  // ---------------------------------------------------------------------------
  // receiver_thread
  // ---------------------------------------------------------------------------

  /** Where the receiver resumes: at its start or at one of its waits for a full channel. */
  datatype RxPc = RxBegin | StxWait | LenWait | DataWait | ChkWait | EtxWait

  /**
   * The receiver's statics, with last_message (256 bytes), last_length and
   * success_count, which only it writes.
   */
  datatype RxSide = RxSide(pc: RxPc, byte: Byte, len: int, chk: Byte, sum: Byte, i: int,
                           lastMessage: seq<Byte>, lastLength: int, successCount: int)

  /**
   * The declared length is a byte, and while the data are read the cursor is
   * below it, so `last_message[i]` is always within the 256-byte buffer.
   */
  predicate RxValid(rs: RxSide) {
    |rs.lastMessage| == 256 && 0 <= rs.len <= 255 && 0 <= rs.lastLength <= 255 &&
    (rs.pc == DataWait ==> 0 <= rs.i < rs.len)
  }

  function RxInitial(): (rs: RxSide)
    ensures RxValid(rs) && rs.pc == RxBegin
  {
    RxSide(RxBegin, 0, 0, 0, 0, 0, seq(256, _ => 0), 0, 0)
  }

  /**
   * What the receiver does with the byte it took from the channel at a wait,
   * up to its next wait; `acked` when the frame closed with ETX and a
   * matching checksum, in which case the ACK is sent and the thread ends.
   */
  function RxOnByte(rs: RxSide, b: Byte): (r: (RxSide, bool))
    requires RxValid(rs) && rs.pc != RxBegin
    ensures RxValid(r.0)
    ensures r.1 <==> rs.pc == EtxWait && b == ETX && rs.sum == rs.chk
    ensures r.1 ==> r.0.pc == RxBegin && r.0.successCount == rs.successCount + 1
    ensures !r.1 ==> r.0.pc != RxBegin && r.0.successCount == rs.successCount
    ensures rs.pc == StxWait && b != STX ==> r.0 == rs.(byte := b)
    ensures rs.pc == EtxWait && !r.1 ==> r.0.pc == StxWait
  {
    match rs.pc
    case StxWait =>
      (rs.(byte := b, pc := if b != STX then StxWait else LenWait), false)
    case LenWait =>
      var r := rs.(len := b, sum := 0, i := 0);
      (if 0 < b then r.(pc := DataWait) else r.(lastLength := b, pc := ChkWait), false)
    case DataWait =>
      var r := rs.(lastMessage := rs.lastMessage[rs.i := b], sum := AddByte(rs.sum, b), i := rs.i + 1);
      (if r.i < r.len then r.(pc := DataWait) else r.(lastLength := r.len, pc := ChkWait), false)
    case ChkWait =>
      (rs.(chk := b, pc := EtxWait), false)
    case EtxWait =>
      if b != ETX then (rs.(byte := b, pc := StxWait), false)
      else if rs.sum != rs.chk then (rs.(byte := b, pc := StxWait), false)
      else (rs.(byte := b, successCount := rs.successCount + 1, pc := RxBegin), true)
  }

  function RxMeasure(sh: Shared, rs: RxSide): nat {
    (if sh.channelFlag == 1 then 10 else 0) + (if rs.pc == RxBegin then 1 else 0)
  }

  /**
   * One resumption of the receiver.  The channel discipline: it takes the
   * channel's byte only when full, and leaves it empty; the ACK slot is
   * written, with ACK, only when the frame is accepted.
   */
  function RxResume(sh: Shared, rs: RxSide): (r: (Shared, RxSide, Resume))
    requires RxValid(rs)
    ensures RxValid(r.1) && r.0.ticks == sh.ticks && r.0.channelByte == sh.channelByte
    ensures r.2 == Blocked ==> r.0 == sh && r.1 == rs
    ensures r.2 == Continue ==> RxMeasure(r.0, r.1) < RxMeasure(sh, rs)
    ensures r.0.channelFlag != sh.channelFlag ==> sh.channelFlag == 1 && r.0.channelFlag == 0
    ensures rs.pc != RxBegin && r.2 != Blocked ==> sh.channelFlag == 1 && r.0.channelFlag == 0
    ensures (r.0.ackByte, r.0.ackFlag) != (sh.ackByte, sh.ackFlag) ==> r.2 == Ended
    ensures r.2 == Ended ==> r.0.ackByte == ACK && r.0.ackFlag == 1
    ensures r.2 == Ended <==> rs.pc == EtxWait && sh.channelFlag == 1 && sh.channelByte == ETX && rs.sum == rs.chk
  {
    match rs.pc
    case RxBegin =>
      (sh, rs.(pc := StxWait), Continue)
    case _ =>
      if sh.channelFlag != 1 then (sh, rs, Blocked)
      else
        var (rs1, acked) := RxOnByte(rs, sh.channelByte);
        if acked then (sh.(channelFlag := 0, ackByte := ACK, ackFlag := 1), rs1, Ended)
        else (sh.(channelFlag := 0), rs1, Continue)
  }

  /** One call of receiver_thread. */
  function RxInvoke(sh: Shared, rs: RxSide): (r: (Shared, RxSide, Status))
    requires RxValid(rs)
    ensures RxValid(r.1) && r.0.ticks == sh.ticks && r.0.channelByte == sh.channelByte
    decreases RxMeasure(sh, rs)
  {
    var (sh1, rs1, res) := RxResume(sh, rs);
    match res
    case Blocked => (sh1, rs1, Waiting)
    case Ended => (sh1, rs1, Exited)
    case Continue => RxInvoke(sh1, rs1)
  }

  // ---------------------------------------------------------------------------
  // main's scheduler loop
  // ---------------------------------------------------------------------------

  /** Everything main's loop carries from pass to pass, with its done_tx / done_rx. */
  datatype Sched = Sched(sh: Shared, ts: TxSide, rs: RxSide, doneTx: bool, doneRx: bool)

  predicate SchedValid(c: Sched) {
    TxValid(c.ts) && RxValid(c.rs)
  }

  function SchedInitial(): (c: Sched)
    ensures SchedValid(c)
  {
    Sched(Shared(0, 0, 0, 0, 0), TxInitial(), RxInitial(), false, false)
  }

  /** One pass: each thread not yet exited is invoked once, transmitter first, then the clock advances. */
  function Pass(c: Sched): (d: Sched)
    requires SchedValid(c)
    ensures SchedValid(d) && d.sh.ticks == c.sh.ticks + 1
    ensures c.doneTx ==> d.ts == c.ts && d.doneTx
    ensures c.doneRx ==> d.rs == c.rs && d.doneRx
  {
    var (sh1, ts1, txs) := if !c.doneTx then TxInvoke(c.sh, c.ts) else (c.sh, c.ts, Waiting);
    var (sh2, rs2, rxs) := if !c.doneRx then RxInvoke(sh1, c.rs) else (sh1, c.rs, Waiting);
    Sched(sh2.(ticks := sh2.ticks + 1), ts1, rs2, c.doneTx || txs == Exited, c.doneRx || rxs == Exited)
  }

  /** The loop: passes until the transmitter has exited, or until the clock passes 1000. */
  function RunMain(c: Sched): (d: Sched)
    requires SchedValid(c)
    ensures SchedValid(d) && (d.doneTx || d.sh.ticks > 1000)
    decreases if c.sh.ticks <= 1000 then 1001 - c.sh.ticks else 0
  {
    var c1 := Pass(c);
    if c1.doneTx || c1.sh.ticks > 1000 then c1 else RunMain(c1)
  }
}
