/**
 * The protothreads program itself: its globals, each thread's statics and
 * continuation, updated in place by the thread functions and by main's
 * scheduler loop.  Every method is specified by the function of module
 * ReliableLink that it carries out, and the values main asserts follow
 * from ReliableLinkRun.ProgramOutcome.
 */
module ReliableLinkProgram {
  import opened Common
  import opened ReliableLink
  import ReliableLinkRun

  /** The program's static storage. */
  class System {
    // The channel, the ACK slot and the clock.
    var channelByte: Byte
    var channelFlag: int
    var ackByte: Byte
    var ackFlag: int
    var ticks: int
    // What the transmitter reports.
    var attempts: int
    var success: int
    // What the receiver reports; `lastMessage` is the 256-byte last_message.
    const lastMessage: array<Byte>
    var lastLength: int
    var successCount: int
    // transmitter_thread: its continuation (pt_tx) and its statics.
    var txPc: TxPc
    var timer: Timer
    var checksum: Byte
    var pktChk: Byte
    var j: int
    // receiver_thread: its continuation (pt_rx) and its statics.
    var rxPc: RxPc
    var byte: Byte
    var len: int
    var chk: Byte
    var sum: Byte
    var i: int

    function SharedState(): Shared
      reads this
    {
      Shared(channelByte, channelFlag, ackByte, ackFlag, ticks)
    }

    function TxState(): TxSide
      reads this
    {
      TxSide(txPc, timer, checksum, pktChk, j, attempts, success)
    }

    function RxState(): RxSide
      reads this, lastMessage
    {
      RxSide(rxPc, byte, len, chk, sum, i, lastMessage[..], lastLength, successCount)
    }

    /** The whole state main's loop carries, with its done_tx and done_rx. */
    function Snapshot(doneTx: bool, doneRx: bool): Sched
      reads this, lastMessage
    {
      Sched(SharedState(), TxState(), RxState(), doneTx, doneRx)
    }

    predicate Valid()
      reads this, lastMessage
    {
      TxValid(TxState()) && RxValid(RxState())
    }

    /** Static storage starts zeroed; PT_INIT puts both threads at PT_BEGIN. */
    constructor ()
      ensures Valid() && Snapshot(false, false) == SchedInitial() && fresh(lastMessage)
    {
      channelByte, channelFlag, ackByte, ackFlag, ticks := 0, 0, 0, 0, 0;
      attempts, success := 0, 0;
      lastMessage := new Byte[256](_ => 0);
      lastLength, successCount := 0, 0;
      txPc, timer, checksum, pktChk, j := TxBegin, Timer(0, 0), 0, 0, 0;
      rxPc, byte, len, chk, sum, i := RxBegin, 0, 0, 0, 0, 0;
      new;
      assert lastMessage[..] == seq(256, _ => 0);
    }

    /** timer_set, on the transmitter's timer. */
    method TimerSet(interval: int)
      modifies this
      ensures TxState() == old(TxState()).(timer := Timer(ticks, interval))
      ensures SharedState() == old(SharedState()) && RxState() == old(RxState())
    {
      timer := Timer(ticks, interval);
    }

    /** timer_expired, on the transmitter's timer. */
    method TimerExpired() returns (r: bool)
      ensures r <==> ticks >= timer.start + timer.interval
    {
      r := ticks - timer.start >= timer.interval;
    }

    /** ack_received. */
    method AckReceived() returns (r: bool)
      modifies this
      ensures (r, SharedState()) == ReliableLink.AckReceived(old(SharedState()))
      ensures TxState() == old(TxState()) && RxState() == old(RxState())
    {
      if ackFlag != 0 && ackByte == ACK {
        ackFlag := 0;
        return true;
      }
      return false;
    }

    /** The top of the do/while body: count the attempt, sum test_data, choose CHK. */
    method StartAttempt()
      modifies this
      ensures TxState() == TxAttempt(old(TxState()))
      ensures SharedState() == old(SharedState()) && RxState() == old(RxState())
    {
      attempts := attempts + 1;
      checksum := 0;
      j := 0;
      while j < TestLen
        invariant 0 <= j <= TestLen
        invariant checksum == Sum8(TestData()[..j])
        invariant attempts == old(attempts) + 1 && timer == old(timer) && success == old(success)
        invariant SharedState() == old(SharedState()) && RxState() == old(RxState())
      {
        assert TestData()[..j + 1][..j] == TestData()[..j];
        checksum := AddByte(checksum, TestData()[j]);
        j := j + 1;
      }
      assert TestData()[..j] == TestData();
      if attempts == 1 {
        pktChk := (checksum + 1) % 0x100;
      } else {
        pktChk := checksum;
      }
      txPc := StxFree;
    }

    /** Writes `b` to the empty channel and moves to the wait for it to be taken. */
    method Put(b: Byte, next: TxPc)
      modifies this
      ensures SharedState() == old(SharedState()).(channelByte := b, channelFlag := 1)
      ensures TxState() == old(TxState()).(pc := next) && RxState() == old(RxState())
    {
      channelByte := b;
      channelFlag := 1;
      txPc := next;
    }

    /** At the ACK wait: blocks until an ACK is consumed or the timer expires, then resends or finishes. */
    method AwaitAck() returns (res: Resume)
      requires Valid() && txPc == AckWait
      modifies this
      ensures Valid() && RxState() == old(RxState())
      ensures (SharedState(), TxState(), res) == ReliableLink.TxResume(old(SharedState()), old(TxState()))
    {
      var acked := AckReceived();
      var expired := TimerExpired();
      if !(acked || expired) {
        return Blocked;
      }
      // while (timer_expired(&timer))
      expired := TimerExpired();
      if expired {
        StartAttempt();
        return Continue;
      }
      success := 1;
      txPc := TxBegin;
      return Ended;
    }

    /** At one of the waits for an empty channel: blocks while it is full, else writes the next byte or moves on. */
    method SendResume() returns (res: Resume)
      requires Valid() && txPc != TxBegin && txPc != AckWait
      modifies this
      ensures Valid() && RxState() == old(RxState())
      ensures (SharedState(), TxState(), res) == ReliableLink.TxResume(old(SharedState()), old(TxState()))
    {
      if channelFlag != 0 {
        return Blocked;
      }
      match txPc {
      case StxFree => Put(STX, StxTaken);
      case StxTaken => txPc := LenFree;
      case LenFree => Put(TestLen, LenTaken);
      case LenTaken =>
        j := 0;
        txPc := if 0 < TestLen then DataFree else ChkFree;
      case DataFree => Put(TestData()[j], DataTaken);
      case DataTaken =>
        j := j + 1;
        txPc := if j < TestLen then DataFree else ChkFree;
      case ChkFree => Put(pktChk, ChkTaken);
      case ChkTaken => txPc := EtxFree;
      case EtxFree => Put(ETX, EtxTaken);
      case EtxTaken =>
        TimerSet(Timeout);
        txPc := AckWait;
      }
      res := Continue;
    }

    /** transmitter_thread resumed at its continuation and run to its next wait or to PT_END. */
    method TxResume() returns (res: Resume)
      requires Valid()
      modifies this
      ensures Valid() && RxState() == old(RxState())
      ensures (SharedState(), TxState(), res) == ReliableLink.TxResume(old(SharedState()), old(TxState()))
    {
      if txPc == TxBegin {
        attempts := 0;
        StartAttempt();
        res := Continue;
      } else if txPc == AckWait {
        res := AwaitAck();
      } else {
        res := SendResume();
      }
    }

    /** transmitter_thread: resumptions until one blocks (it returns 0) or reaches PT_END (it returns 2). */
    method TransmitterThread() returns (status: Status)
      requires Valid()
      modifies this
      ensures Valid() && RxState() == old(RxState())
      ensures (SharedState(), TxState(), status) == TxInvoke(old(SharedState()), old(TxState()))
    {
      while true
        invariant Valid() && RxState() == old(RxState())
        invariant TxInvoke(SharedState(), TxState()) == TxInvoke(old(SharedState()), old(TxState()))
        decreases TxMeasure(SharedState(), TxState())
      {
        ReliableLinkRun.TxInvokeStep(SharedState(), TxState());
        var res := TxResume();
        if res == Blocked {
          return Waiting;
        }
        if res == Ended {
          return Exited;
        }
      }
    }

    /** At the STX wait: a byte other than STX is dropped and the wait repeats. */
    method OnStx(b: Byte)
      requires Valid() && rxPc == StxWait
      modifies this
      ensures (RxState(), false) == ReliableLink.RxOnByte(old(RxState()), b)
      ensures SharedState() == old(SharedState()) && TxState() == old(TxState())
    {
      byte := b;
      if byte == STX {
        rxPc := LenWait;
      }
    }

    /** At the length wait: the declared length; the data loop starts, or is skipped for 0. */
    method OnLen(b: Byte)
      requires Valid() && rxPc == LenWait
      modifies this
      ensures (RxState(), false) == ReliableLink.RxOnByte(old(RxState()), b)
      ensures SharedState() == old(SharedState()) && TxState() == old(TxState())
    {
      len := b;
      sum := 0;
      i := 0;
      if i < len {
        rxPc := DataWait;
      } else {
        lastLength := len;
        rxPc := ChkWait;
      }
    }

    /** At a data wait: the byte is stored in last_message and summed; after the last one, last_length is set. */
    method OnData(b: Byte)
      requires Valid() && rxPc == DataWait
      modifies this, lastMessage
      ensures (RxState(), false) == ReliableLink.RxOnByte(old(RxState()), b)
      ensures SharedState() == old(SharedState()) && TxState() == old(TxState())
    {
      lastMessage[i] := b;
      sum := AddByte(sum, lastMessage[i]);
      i := i + 1;
      if i >= len {
        lastLength := len;
        rxPc := ChkWait;
      }
    }

    /** At the CHK wait. */
    method OnChk(b: Byte)
      requires Valid() && rxPc == ChkWait
      modifies this
      ensures (RxState(), false) == ReliableLink.RxOnByte(old(RxState()), b)
      ensures SharedState() == old(SharedState()) && TxState() == old(TxState())
    {
      chk := b;
      rxPc := EtxWait;
    }

    /** At the ETX wait: the frame is accepted only if it closes with ETX and its checksums agree. */
    method OnEtx(b: Byte) returns (acked: bool)
      requires Valid() && rxPc == EtxWait
      modifies this
      ensures (RxState(), acked) == ReliableLink.RxOnByte(old(RxState()), b)
      ensures SharedState() == old(SharedState()) && TxState() == old(TxState())
    {
      byte := b;
      if byte != ETX || sum != chk {
        rxPc := StxWait;
        return false;
      }
      successCount := successCount + 1;
      rxPc := RxBegin;
      return true;
    }

    /** receiver_thread resumed at its continuation and run to its next wait or to PT_END. */
    method RxResume() returns (res: Resume)
      requires Valid()
      modifies this, lastMessage
      ensures Valid() && TxState() == old(TxState())
      ensures (SharedState(), RxState(), res) == ReliableLink.RxResume(old(SharedState()), old(RxState()))
    {
      if rxPc == RxBegin {
        rxPc := StxWait;
        return Continue;
      }
      if channelFlag != 1 {
        return Blocked;
      }
      var b := channelByte;
      channelFlag := 0;
      var acked := false;
      match rxPc {
      case StxWait => OnStx(b);
      case LenWait => OnLen(b);
      case DataWait => OnData(b);
      case ChkWait => OnChk(b);
      case EtxWait => acked := OnEtx(b);
      }
      if acked {
        ackByte := ACK;
        ackFlag := 1;
        return Ended;
      }
      return Continue;
    }

    /** receiver_thread. */
    method ReceiverThread() returns (status: Status)
      requires Valid()
      modifies this, lastMessage
      ensures Valid() && TxState() == old(TxState())
      ensures (SharedState(), RxState(), status) == RxInvoke(old(SharedState()), old(RxState()))
    {
      while true
        invariant Valid() && TxState() == old(TxState())
        invariant RxInvoke(SharedState(), RxState()) == RxInvoke(old(SharedState()), old(RxState()))
        decreases RxMeasure(SharedState(), RxState())
      {
        ReliableLinkRun.RxInvokeStep(SharedState(), RxState());
        var res := RxResume();
        if res == Blocked {
          return Waiting;
        }
        if res == Ended {
          return Exited;
        }
      }
    }

    /** One pass of main's loop: each thread not yet done is invoked once, then the clock advances. */
    method Pass(doneTx: bool, doneRx: bool) returns (doneTx': bool, doneRx': bool)
      requires Valid()
      modifies this, lastMessage
      ensures Valid() && Snapshot(doneTx', doneRx') == ReliableLink.Pass(old(Snapshot(doneTx, doneRx)))
    {
      var txStatus, rxStatus := Waiting, Waiting;
      if !doneTx {
        txStatus := TransmitterThread();
      }
      if !doneRx {
        rxStatus := ReceiverThread();
      }
      ticks := ticks + 1;
      doneTx' := doneTx || txStatus == Exited;
      doneRx' := doneRx || rxStatus == Exited;
    }

    /** main's loop: passes until the transmitter is done, or until the clock passes 1000. */
    method Schedule() returns (doneTx: bool, doneRx: bool)
      requires Valid()
      modifies this, lastMessage
      ensures Valid() && Snapshot(doneTx, doneRx) == RunMain(old(Snapshot(false, false)))
    {
      doneTx, doneRx := false, false;
      while true
        invariant Valid()
        invariant RunMain(Snapshot(doneTx, doneRx)) == RunMain(old(Snapshot(false, false)))
        decreases if ticks <= 1000 then 1001 - ticks else 0
      {
        doneTx, doneRx := Pass(doneTx, doneRx);
        if doneTx || ticks > 1000 {
          return;
        }
      }
    }
  }

  /**
   * main: runs the two threads to completion and hands back what its asserts
   * check -- transmission_success, success_count, last_length, the first
   * TEST_LEN bytes of last_message, attempts_count -- and the clock at exit.
   * Each holds the value main asserts, and the loop ends well before the
   * 1000-tick guard.
   */
  method RunProgram() returns (transmissionSuccess: int, successCount: int, lastLength: int,
                               received: seq<Byte>, attempts: int, passes: int)
    ensures transmissionSuccess == 1 && successCount == 1 && lastLength == TestLen
    ensures received == TestData() && attempts == 2 && passes == 24
  {
    var sys := new System();
    var doneTx, doneRx := sys.Schedule();
    ReliableLinkRun.ProgramOutcome();
    transmissionSuccess, successCount, lastLength := sys.success, sys.successCount, sys.lastLength;
    received := sys.lastMessage[..TestLen];
    attempts, passes := sys.attempts, sys.ticks;
  }
}
