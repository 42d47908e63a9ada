/**
 * The additive variant's roundtrip_test and main: a transmitter session
 * whose bytes are fed to a receiver, one byte at a time, with a corruption
 * hook in between, and the verdict the test draws from what the receiver
 * answered.
 *
 * The hooks as written look at the transmitter's state after tx_next has
 * already advanced it, so mode 1 flips the byte handed out in the step that
 * enters TX_SEND_CHK (the last payload byte) and mode 2 zeroes the CHK byte
 * instead of the end byte.  Both timings are modelled: AfterStep is the code
 * as written, BeforeStep is what the hooks' comments describe.
 */
module SumFramingTests {
  import opened Common
  import opened SumFraming
  import opened SumMachines

  // ---------------------------------------------------------------------------
  // The corruption hook
  // ---------------------------------------------------------------------------

  /** Which transmitter state the hook inspects: after tx_next (as written) or before it. */
  datatype HookTiming = AfterStep | BeforeStep

  /** `byte ^= 0xFF` on a uint8_t: every bit inverted, so the byte always changes. */
  function Flip(b: Byte): (r: Byte)
    ensures r != b && r + b == 0xFF
  {
    0xFF - b
  }

  /** The hook applied to a byte handed out, given the transmitter state it inspects. */
  function Hook(mode: int, looked: TxPhase, b: Byte): Byte {
    if mode == 1 && looked == SendChk then Flip(b)
    else if mode == 2 && looked == SendEtx then 0
    else b
  }

  /** The bytes roundtrip_test hands to rx_feed from transmitter state `s` on. */
  function Hooked(s: TxState, mode: int, t: HookTiming): (r: seq<Byte>)
    requires TxValid(s)
    ensures |r| == StepsLeft(s)
    decreases StepsLeft(s)
  {
    var e := TxNext(s);
    if e.out.None? then []
    else [Hook(mode, if t == AfterStep then e.next.state else s.state, e.out.value)] + Hooked(e.next, mode, t)
  }

  /** The frame position the hook changes for a payload of `n` bytes; -1 when mode is neither 1 nor 2. */
  function Target(mode: int, t: HookTiming, n: Byte): int {
    if mode == 1 then (if t == AfterStep then n + 1 else n + 2)
    else if mode == 2 then (if t == AfterStep then n + 2 else n + 3)
    else -1
  }

  /** A frame of an `n`-byte payload with the hook's one change applied. */
  function Tampered(f: seq<Byte>, mode: int, t: HookTiming, n: Byte): (g: seq<Byte>)
    requires |f| == n + 4
    ensures |g| == |f|
  {
    var k := Target(mode, t, n);
    if 0 <= k < |f| then f[k := if mode == 1 then Flip(f[k]) else 0] else f
  }

  /** The hook changes the byte at Target and none other. */
  lemma HookPos(s: TxState, mode: int, t: HookTiming)
    requires Sending(s) && s.state != Done
    ensures var e := TxNext(s);
      var f := Frame(s.data[..s.len]);
      FramePos(s) < |f| &&
      Hook(mode, if t == AfterStep then e.next.state else s.state, e.out.value) ==
        Tampered(f, mode, t, s.len)[FramePos(s)]
  {
    TxNextFrame(s);
  }

  lemma {:induction false} HookedFrom(s: TxState, mode: int, t: HookTiming)
    requires Sending(s)
    ensures FramePos(s) <= s.len + 4
    ensures Hooked(s, mode, t) == Tampered(Frame(s.data[..s.len]), mode, t, s.len)[FramePos(s)..]
    decreases StepsLeft(s)
  {
    var g := Tampered(Frame(s.data[..s.len]), mode, t, s.len);
    if s.state == Done {
      assert g[FramePos(s)..] == [];
    } else {
      var e := TxNext(s);
      TxNextFrame(s);
      HookPos(s, mode, t);
      HookedFrom(e.next, mode, t);
      assert g[FramePos(s)..] == [g[FramePos(s)]] + g[FramePos(s) + 1..];
    }
  }

  /** What the receiver is fed in roundtrip_test: the session's frame with the hook's one change. */
  lemma HookedSession(d: seq<Byte>, n: Byte, mode: int, t: HookTiming)
    requires n <= |d|
    ensures Hooked(TxStart(d, n), mode, t) == Tampered(Frame(d[..n]), mode, t, n)
  {
    HookedFrom(TxStart(d, n), mode, t);
  }

  // ---------------------------------------------------------------------------
  // The loop's bookkeeping and the verdict
  // ---------------------------------------------------------------------------

  /** got_ok, got_err, delivered_len and the 256-byte delivered buffer. */
  datatype Outcome = Outcome(gotOk: bool, gotErr: bool, deliveredLen: Byte, delivered: seq<Byte>)

  function Blank(n: nat): (z: seq<Byte>)
    ensures |z| == n && forall i :: 0 <= i < n ==> z[i] == 0
  {
    seq(n, _ => 0)
  }

  /** The bookkeeping before the loop: nothing received, delivered all zero. */
  function Fresh(): (o: Outcome)
    ensures !o.gotOk && !o.gotErr && |o.delivered| == 256
  {
    Outcome(false, false, 0, Blank(256))
  }

  /** One result recorded: RX_OK writes the payload over the head of delivered; RX_ERROR sets got_err. */
  function Record(o: Outcome, r: RxResult): (p: Outcome)
    requires |o.delivered| == 256 && (r.Ok? ==> |r.payload| <= MaxData)
    ensures |p.delivered| == 256
    ensures p.gotOk == (o.gotOk || r.Ok?) && p.gotErr == (o.gotErr || r == Error)
    ensures r.Ok? ==> p.deliveredLen == |r.payload| && p.delivered[..|r.payload|] == r.payload
    ensures !r.Ok? ==> p.deliveredLen == o.deliveredLen && p.delivered == o.delivered
  {
    match r
    case InProgress => o
    case Error => o.(gotErr := true)
    case Ok(q) => o.(gotOk := true, deliveredLen := |q|, delivered := q + o.delivered[|q|..])
  }

  /** The loop body over each byte in turn: rx_feed, then the result recorded. */
  function Session(rx: RxState, o: Outcome, bytes: seq<Byte>): (p: Outcome)
    requires RxValid(rx) && |o.delivered| == 256
    ensures |p.delivered| == 256
    ensures o.gotOk ==> p.gotOk
    ensures o.gotErr ==> p.gotErr
    decreases |bytes|
  {
    if bytes == [] then o
    else
      var f := RxFeedStep(rx, bytes[0]);
      Session(f.next, Record(o, f.result), bytes[1..])
  }

  /** The loop body over one more byte. */
  lemma SessionCons(rx: RxState, o: Outcome, b: Byte, rest: seq<Byte>)
    requires RxValid(rx) && |o.delivered| == 256
    ensures var f := RxFeedStep(rx, b);
      Session(rx, o, [b] + rest) == Session(f.next, Record(o, f.result), rest)
  {
    assert ([b] + rest)[1..] == rest;
  }

  /** One step of the hooked stream. */
  lemma HookedCons(s: TxState, mode: int, t: HookTiming)
    requires TxValid(s) && TxNext(s).out.Some?
    ensures var e := TxNext(s);
      Hooked(s, mode, t) ==
        [Hook(mode, if t == AfterStep then e.next.state else s.state, e.out.value)] + Hooked(e.next, mode, t)
  {
  }

  /** One iteration of roundtrip_test's loop: the next hooked byte fed to the receiver and its result recorded. */
  lemma LoopStep(prev: TxState, rx: RxState, o: Outcome, mode: int, t: HookTiming)
    requires TxValid(prev) && TxNext(prev).out.Some? && RxValid(rx) && |o.delivered| == 256
    ensures var e := TxNext(prev);
      var b := Hook(mode, if t == AfterStep then e.next.state else prev.state, e.out.value);
      var f := RxFeedStep(rx, b);
      Session(rx, o, Hooked(prev, mode, t)) == Session(f.next, Record(o, f.result), Hooked(e.next, mode, t))
  {
    var e := TxNext(prev);
    var b := Hook(mode, if t == AfterStep then e.next.state else prev.state, e.out.value);
    HookedCons(prev, mode, t);
    SessionCons(rx, o, b, Hooked(e.next, mode, t));
  }

  /** A session whose results are all RX_IN_PROGRESS but the last records only that last one. */
  lemma {:induction false} SessionLast(rx: RxState, o: Outcome, bytes: seq<Byte>, k: nat, r: RxResult)
    requires RxValid(rx) && |o.delivered| == 256 && (r.Ok? ==> |r.payload| <= MaxData)
    requires Run(rx, bytes).1 == Pending(k) + [r]
    ensures Session(rx, o, bytes) == Record(o, r)
    decreases |bytes|
  {
    assert |Run(rx, bytes).1| == k + 1;
    var f := RxFeedStep(rx, bytes[0]);
    RunCons(rx, bytes[0], bytes[1..]);
    assert [bytes[0]] + bytes[1..] == bytes;
    assert Run(rx, bytes).1 == [f.result] + Run(f.next, bytes[1..]).1;
    assert Run(rx, bytes).1[0] == f.result;
    if k == 0 {
      assert f.result == r;
      assert |Run(f.next, bytes[1..]).1| == 0;
      assert bytes[1..] == [];
    } else {
      assert (Pending(k) + [r])[0] == InProgress;
      assert Run(f.next, bytes[1..]).1 == Pending(k - 1) + [r] by {
        assert (Pending(k) + [r])[1..] == Pending(k - 1) + [r];
      }
      SessionLast(f.next, o, bytes[1..], k - 1, r);
    }
  }

  /** The bookkeeping roundtrip_test ends with, for a receiver buffer that held `buf`. */
  function TestOutcome(payload: seq<Byte>, len: Byte, mode: int, t: HookTiming, buf: seq<Byte>): Outcome
    requires len <= |payload| && |buf| == MaxData
  {
    Session(RxInit(buf), Fresh(), Hooked(TxStart(payload, len), mode, t))
  }

  /**
   * The verdict: mode 0 passes when one RX_OK and no RX_ERROR came and the
   * delivered bytes are the payload; a corrupting mode passes when an
   * RX_ERROR and no RX_OK came.
   */
  predicate Passed(o: Outcome, payload: seq<Byte>, len: Byte, mode: int)
    requires len <= |payload| && |o.delivered| == 256
  {
    if mode == 0 then
      o.gotOk && !o.gotErr && o.deliveredLen == len && o.delivered[..len] == payload[..len]
    else
      o.gotErr && !o.gotOk
  }

  lemma FrameAt(d: seq<Byte>)
    requires 1 <= |d| <= MaxData
    ensures var f := Frame(d);
      f[|d| + 1] == d[|d| - 1] && f[|d| + 2] == Checksum(|d|, d) && f[|d| + 3] == ETX
  {
  }

  /** Without corruption (mode 0), a payload of 1 to 255 bytes passes, whatever the receiver's buffer held. */
  lemma NominalPasses(payload: seq<Byte>, len: Byte, t: HookTiming, buf: seq<Byte>)
    requires 1 <= len <= |payload| && |buf| == MaxData
    ensures Passed(TestOutcome(payload, len, 0, t, buf), payload, len, 0)
  {
    var d := payload[..len];
    HookedSession(payload, len, 0, t);
    RoundTrip(RxInit(buf), d);
    SessionLast(RxInit(buf), Fresh(), Frame(d), len + 3, Ok(d));
  }

  /** As written, mode 1 flips the last payload byte; that is still answered RX_ERROR, so the test passes. */
  lemma AsWrittenMode1Passes(payload: seq<Byte>, len: Byte, buf: seq<Byte>)
    requires 1 <= len <= |payload| && |buf| == MaxData
    ensures Hooked(TxStart(payload, len), 1, AfterStep) ==
      Frame(payload[..len])[len + 1 := Flip(payload[len - 1])]
    ensures Passed(TestOutcome(payload, len, 1, AfterStep, buf), payload, len, 1)
  {
    var d := payload[..len];
    HookedSession(payload, len, 1, AfterStep);
    FrameAt(d);
    CorruptedPayload(RxInit(buf), d, len - 1, Flip(d[len - 1]));
    SessionLast(RxInit(buf), Fresh(), Frame(d)[len + 1 := Flip(d[len - 1])], len + 3, Error);
  }

  /**
   * As written, mode 2 zeroes the CHK byte and leaves ETX alone, so the test
   * passes exactly when the payload's checksum is not 0.
   */
  lemma AsWrittenMode2(payload: seq<Byte>, len: Byte, buf: seq<Byte>)
    requires 1 <= len <= |payload| && |buf| == MaxData
    ensures Hooked(TxStart(payload, len), 2, AfterStep) == Frame(payload[..len])[len + 2 := 0]
    ensures Passed(TestOutcome(payload, len, 2, AfterStep, buf), payload, len, 2) <==>
      Checksum(len, payload) != 0
    ensures Checksum(len, payload) == 0 ==> TestOutcome(payload, len, 2, AfterStep, buf).gotOk
  {
    var d := payload[..len];
    var rx := RxInit(buf);
    assert d[..len] == d;
    HookedSession(payload, len, 2, AfterStep);
    FrameAt(d);
    var g := Frame(d)[len + 2 := 0];
    if Checksum(len, payload) != 0 {
      assert g == Head(len) + d + [0, ETX];
      BadChecksum(rx, d, 0, ETX);
      SessionLast(rx, Fresh(), g, len + 3, Error);
    } else {
      assert g == Frame(d);
      RoundTrip(rx, d);
      SessionLast(rx, Fresh(), g, len + 3, Ok(d));
    }
  }

  /** The input that shows it: the one-byte payload 0xFF has checksum (1 + 255) mod 256 = 0, and mode 2 reports a failure. */
  lemma Mode2MissedOnZeroChecksum(buf: seq<Byte>)
    requires |buf| == MaxData
    ensures Checksum(1, [0xFF]) == 0
    ensures TestOutcome([0xFF], 1, 2, AfterStep, buf).gotOk
    ensures !Passed(TestOutcome([0xFF], 1, 2, AfterStep, buf), [0xFF], 1, 2)
  {
    assert [0xFF][..1] == [0xFF];
    assert Sum([0xFF]) == 0xFF by {
      assert [0xFF][..0] == [];
    }
    AsWrittenMode2([0xFF], 1, buf);
  }

  /** An empty frame, whatever follows its LEN byte short of STX: LEN 0 is answered RX_ERROR and nothing after it is accepted. */
  lemma EmptyFrameRejected(rx: RxState, x: Byte, y: Byte)
    requires RxValid(rx) && rx.state == WaitStx && x != STX && y != STX
    ensures var o := Session(rx, Fresh(), [STX, 0, x, y]); o.gotErr && !o.gotOk
  {
    var r1 := RxFeedStep(rx, STX);
    var r2 := RxFeedStep(r1.next, 0);
    var r3 := RxFeedStep(r2.next, x);
    var o2 := Record(Record(Fresh(), r1.result), r2.result);
    assert r1.result == InProgress && r2.result == Error && r2.next.state == WaitStx;
    assert [STX, 0, x, y] == [STX] + [0, x, y] && [0, x, y] == [0] + [x, y] && [x, y] == [x] + [y];
    SessionCons(rx, Fresh(), STX, [0, x, y]);
    SessionCons(r1.next, Record(Fresh(), r1.result), 0, [x, y]);
    SessionCons(r2.next, o2, x, [y]);
    SessionCons(r3.next, Record(o2, r3.result), y, []);
  }

  /** With the hooks looking at the state before tx_next, mode 1 changes CHK and mode 2 changes ETX, and both always pass. */
  lemma IntendedHooksDetected(payload: seq<Byte>, len: Byte, mode: int, buf: seq<Byte>)
    requires len <= |payload| && |buf| == MaxData && mode in {1, 2}
    ensures Hooked(TxStart(payload, len), mode, BeforeStep) ==
      if mode == 1 then Frame(payload[..len])[len + 2 := Flip(Checksum(len, payload))]
      else Frame(payload[..len])[len + 3 := 0]
    ensures Passed(TestOutcome(payload, len, mode, BeforeStep, buf), payload, len, mode)
  {
    var d := payload[..len];
    var rx := RxInit(buf);
    var c := Checksum(len, payload);
    assert d[..len] == d;
    HookedSession(payload, len, mode, BeforeStep);
    if len == 0 {
      assert Frame(d) == [STX, 0, c, ETX];
      assert c == 0;
      if mode == 1 {
        assert Frame(d)[2 := Flip(c)] == [STX, 0, 0xFF, ETX];
        EmptyFrameRejected(rx, 0xFF, ETX);
      } else {
        assert Frame(d)[3 := 0] == [STX, 0, 0, 0];
        EmptyFrameRejected(rx, 0, 0);
      }
      return;
    }
    FrameAt(d);
    if mode == 1 {
      var g := Frame(d)[len + 2 := Flip(c)];
      assert g == Head(len) + d + [Flip(c), ETX];
      BadChecksum(rx, d, Flip(c), ETX);
      SessionLast(rx, Fresh(), g, len + 3, Error);
    } else {
      var g := Frame(d)[len + 3 := 0];
      assert g == Head(len) + d + [c, 0];
      BadEnd(rx, d, c, 0);
      SessionLast(rx, Fresh(), g, len + 3, Error);
    }
  }

  // ---------------------------------------------------------------------------
  // roundtrip_test and main as programs
  // ---------------------------------------------------------------------------

  /** The loop body's receiving half: rx_feed, then got_ok / got_err set from its result. */
  method Deliver(rx: Receiver, byte: Byte, delivered: array<Byte>, gotOk: bool, gotErr: bool, deliveredLen: Byte)
    returns (gotOk': bool, gotErr': bool, deliveredLen': Byte)
    requires rx.Valid() && delivered != rx.data && delivered.Length == 256
    modifies rx, rx.data, delivered
    ensures rx.Valid()
    ensures var f := RxFeedStep(old(rx.State()), byte);
      rx.State() == f.next &&
      Outcome(gotOk', gotErr', deliveredLen', delivered[..]) ==
        Record(Outcome(gotOk, gotErr, deliveredLen, old(delivered[..])), f.result)
  {
    gotOk', gotErr', deliveredLen' := gotOk, gotErr, deliveredLen;
    var r := rx.Feed(byte, delivered);
    if r.Ok? {
      deliveredLen' := |r.payload|;
      gotOk' := true;
    }
    if r == Error {
      gotErr' := true;
    }
  }

  /**
   * roundtrip_test: `t` is where the hooks look (AfterStep is the code as
   * written).  The receiver's buffer, uninitialised in C, starts zeroed.
   */
  method RoundtripTest(payload: seq<Byte>, len: Byte, mode: int, t: HookTiming) returns (passed: bool)
    requires len <= |payload|
    ensures passed == Passed(TestOutcome(payload, len, mode, t, Blank(MaxData)), payload, len, mode)
  {
    var tx := new Transmitter();
    var rx := new Receiver();
    var delivered := new Byte[256](_ => 0);
    var deliveredLen: Byte := 0;
    var gotOk, gotErr := false, false;
    assert rx.State().data == Blank(MaxData);
    assert delivered[..] == Blank(256);
    ghost var goal := TestOutcome(payload, len, mode, t, Blank(MaxData));

    tx.Start(payload, len);
    while true
      invariant tx.Valid() && rx.Valid() && delivered != rx.data && delivered.Length == 256
      invariant Session(rx.State(), Outcome(gotOk, gotErr, deliveredLen, delivered[..]), Hooked(tx.State(), mode, t)) == goal
      decreases StepsLeft(tx.State())
    {
      ghost var prev := tx.State();
      var before := tx.state;
      var out := tx.Next();
      if out.None? {
        break;
      }
      ghost var after := tx.State();
      var byte := Hook(mode, if t == AfterStep then tx.state else before, out.value);
      LoopStep(prev, rx.State(), Outcome(gotOk, gotErr, deliveredLen, delivered[..]), mode, t);
      gotOk, gotErr, deliveredLen := Deliver(rx, byte, delivered, gotOk, gotErr, deliveredLen);
      assert tx.State() == after;
    }
    passed := if mode == 0 then
      gotOk && !gotErr && deliveredLen == len && delivered[..len] == payload[..len]
    else
      gotErr && !gotOk;
  }

  /** The payloads of main's four tests. */
  function Ufsm(): seq<Byte> { [0x55, 0x46, 0x53, 0x4D] }       // "UFSM"
  function Ten(): seq<Byte> { [1, 2, 3, 4, 5, 6, 7, 8, 9, 10] }
  function Check(): seq<Byte> { [0x43, 0x48, 0x45, 0x43, 0x4B] } // "CHECK"
  function Etx(): seq<Byte> { [0x45, 0x54, 0x58] }              // "ETX"

  /** main's first test: "UFSM" without corruption passes. */
  lemma UfsmPasses()
    ensures Passed(TestOutcome(Ufsm(), 4, 0, AfterStep, Blank(MaxData)), Ufsm(), 4, 0)
  {
    NominalPasses(Ufsm(), 4, AfterStep, Blank(MaxData));
  }

  /** main's second test: the bytes 1 to 10 without corruption pass. */
  lemma TenPasses()
    ensures Passed(TestOutcome(Ten(), 10, 0, AfterStep, Blank(MaxData)), Ten(), 10, 0)
  {
    NominalPasses(Ten(), 10, AfterStep, Blank(MaxData));
  }

  /** main's third test: "CHECK" with mode 1 passes. */
  lemma CheckPasses()
    ensures Passed(TestOutcome(Check(), 5, 1, AfterStep, Blank(MaxData)), Check(), 5, 1)
  {
    AsWrittenMode1Passes(Check(), 5, Blank(MaxData));
  }

  /** main's fourth test: "ETX" with mode 2 passes, because its checksum is not 0. */
  lemma EtxPasses()
    ensures Passed(TestOutcome(Etx(), 3, 2, AfterStep, Blank(MaxData)), Etx(), 3, 2)
  {
    EtxChecksum();
    AsWrittenMode2(Etx(), 3, Blank(MaxData));
  }

  /**
   * main: the four tests with their verdicts counted as assert_true counts
   * them; all four pass, so tests_failed is 0 and so is the exit status.
   */
  method RunAll() returns (passed: int, failed: int)
    ensures passed == 4 && failed == 0
  {
    UfsmPasses();
    TenPasses();
    CheckPasses();
    EtxPasses();
    passed, failed := 0, 0;
    var ok := RoundtripTest(Ufsm(), 4, 0, AfterStep);
    if ok { passed := passed + 1; } else { failed := failed + 1; }
    ok := RoundtripTest(Ten(), 10, 0, AfterStep);
    if ok { passed := passed + 1; } else { failed := failed + 1; }
    ok := RoundtripTest(Check(), 5, 1, AfterStep);
    if ok { passed := passed + 1; } else { failed := failed + 1; }
    ok := RoundtripTest(Etx(), 3, 2, AfterStep);
    if ok { passed := passed + 1; } else { failed := failed + 1; }
  }

  /** The payload "ETX" of the fourth test has checksum (3 + 0x45 + 0x54 + 0x58) mod 256 = 0xF4. */
  lemma EtxChecksum()
    ensures Checksum(3, Etx()) == 0xF4
  {
    var p := Etx();
    assert Sum([0x45]) == 0x45 by { assert [0x45][..0] == []; }
    assert Sum([0x45, 0x54]) == 0x45 + 0x54 by { assert [0x45, 0x54][..1] == [0x45]; }
    assert Sum(p) == 0x45 + 0x54 + 0x58 by { assert p[..2] == [0x45, 0x54]; }
    assert p[..3] == p;
  }
}
