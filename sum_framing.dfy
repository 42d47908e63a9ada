/**
 * The additive variant of the framing protocol (FSM_Switch2/main.c): its
 * checksum, its receive machine rx_feed and its transmit machine tx_next as
 * step functions on the values of their C structs, and the properties the
 * protocol promises, proved about them.
 *
 * Wire format: STX | LEN | DATA[LEN] | CHK | ETX, with STX = 0x02, ETX = 0x03
 * and CHK = (LEN + DATA[0] + ... + DATA[LEN-1]) mod 256.  The receiver
 * rejects LEN == 0, checks CHK only when ETX arrives, reports a result for
 * every byte and returns to RX_WAIT_STX after every OK or ERROR.
 */
module SumFraming {
  import opened Common

  /** MAX_DATA: the size of the receiver's payload buffer, the whole range of a uint8_t length. */
  const MaxData: nat := 255

  // ---------------------------------------------------------------------------
  // Checksum
  // ---------------------------------------------------------------------------

  /** The arithmetic sum of the bytes of `d`. */
  function Sum(d: seq<Byte>): nat {
    if d == [] then 0 else Sum(d[..|d| - 1]) + d[|d| - 1]
  }

  /** The CHK byte of a frame: (len + data[0] + ... + data[len-1]) mod 256. */
  function Checksum(len: Byte, data: seq<Byte>): Byte
    requires len <= |data|
  {
    (len + Sum(data[..len])) % 0x100
  }

  lemma {:induction false} SumBound(d: seq<Byte>)
    ensures Sum(d) <= 255 * |d|
    decreases |d|
  {
    if d != [] {
      SumBound(d[..|d| - 1]);
    }
  }

  lemma {:induction false} SumAppend(a: seq<Byte>, b: seq<Byte>)
    ensures Sum(a + b) == Sum(a) + Sum(b)
    decreases |b|
  {
    if b == [] {
      assert a + b == a;
    } else {
      assert (a + b)[..|a + b| - 1] == a + b[..|b| - 1];
      SumAppend(a, b[..|b| - 1]);
    }
  }

  /** Replacing one byte changes the sum by exactly the difference. */
  lemma SumUpdate(d: seq<Byte>, k: nat, x: Byte)
    requires k < |d|
    ensures Sum(d[k := x]) == Sum(d) - d[k] + x
  {
    var e := d[k := x];
    assert d == (d[..k] + [d[k]]) + d[k + 1..];
    assert e == (d[..k] + [x]) + d[k + 1..];
    SumAppend(d[..k] + [d[k]], d[k + 1..]);
    SumAppend(d[..k] + [x], d[k + 1..]);
    SumAppend(d[..k], [d[k]]);
    SumAppend(d[..k], [x]);
    assert [x][..0] == [] && [d[k]][..0] == [];
  }

  /** The 16-bit accumulator of calc_checksum never wraps: len + a full payload is at most 65280. */
  lemma ChecksumNoWrap(len: Byte, data: seq<Byte>)
    requires len <= |data|
    ensures len + Sum(data[..len]) < 0x10000
  {
    SumBound(data[..len]);
  }

  /** The checksum detects every change of a single payload byte. */
  lemma ChecksumDetectsByteChange(len: Byte, d: seq<Byte>, k: nat, x: Byte)
    requires len <= |d| && k < len && x != d[k]
    ensures Checksum(len, d[k := x]) != Checksum(len, d)
  {
    assert d[k := x][..len] == d[..len][k := x];
    SumUpdate(d[..len], k, x);
  }

  /** What the checksum cannot see: exchanging two payload bytes leaves it unchanged. */
  lemma ChecksumMissesSwap(len: Byte, d: seq<Byte>, i: nat, j: nat)
    requires len <= |d| && i < len && j < len
    ensures Checksum(len, d[i := d[j]][j := d[i]]) == Checksum(len, d)
  {
    var p := d[..len];
    assert d[i := d[j]][j := d[i]][..len] == p[i := p[j]][j := p[i]];
    SumUpdate(p, i, p[j]);
    SumUpdate(p[i := p[j]], j, p[i]);
  }

  /**
   * calc_checksum: `sum` is the uint16_t accumulator, so every addition is
   * taken mod 2^16; ChecksumNoWrap shows the reduction never changes a value.
   */
  method CalcChecksum(len: Byte, data: seq<Byte>) returns (c: Byte)
    requires len <= |data|
    ensures c == Checksum(len, data)
  {
    var sum: int := len;
    var i := 0;
    while i < len
      invariant i <= len
      invariant sum == len + Sum(data[..i])
    {
      assert data[..i + 1] == data[..i] + [data[i]];
      SumAppend(data[..i], [data[i]]);
      assert [data[i]][..0] == [];
      ChecksumNoWrap(i + 1, data);
      assert len + Sum(data[..i + 1]) <= 255 + Sum(data[..i + 1]) < 0x10000 by {
        SumBound(data[..i + 1]);
      }
      sum := (sum + data[i]) % 0x10000;
      i := i + 1;
    }
    assert data[..i] == data[..len];
    c := sum % 0x100;
  }

  /** The frame the protocol defines for payload `d`. */
  function Frame(d: seq<Byte>): (f: seq<Byte>)
    requires |d| <= MaxData
    ensures |f| == |d| + 4
  {
    Head(|d|) + d + [Checksum(|d|, d), ETX]
  }

  // ---------------------------------------------------------------------------
  // Receiver (rx_fsm_t)
  // ---------------------------------------------------------------------------

  datatype RxPhase = WaitStx | ReadLen | ReadData | ReadChk | WaitEtx

  /** rx_result_t; on RX_OK the payload is what rx_feed copies to *out_len / out_buf. */
  datatype RxResult = InProgress | Ok(payload: seq<Byte>) | Error

  /** The fields of rx_fsm_t; `data` is the fixed MAX_DATA-byte payload buffer. */
  datatype RxState = RxState(state: RxPhase, len: Byte, idx: Byte, data: seq<Byte>, chk: Byte)

  /** What one call of rx_feed leaves behind and returns. */
  datatype RxFeed = RxFeed(next: RxState, result: RxResult)

  /**
   * What rx_feed keeps true: the buffer has its fixed size, and while a frame
   * is being read its length is at least 1 and the cursor has not passed it.
   * In RX_READ_DATA the cursor is strictly below the length, so the
   * unchecked write `data[idx++]` stays within the 255-byte buffer.
   */
  predicate RxValid(s: RxState) {
    |s.data| == MaxData &&
    (s.state == ReadLen ==> s.idx == 0) &&
    (s.state == ReadData ==> 1 <= s.len && s.idx < s.len) &&
    (s.state in {ReadChk, WaitEtx} ==> 1 <= s.len && s.idx == s.len)
  }

  /** rx_init: resets the machine and keeps whatever the payload buffer holds. */
  function RxInit(data: seq<Byte>): (s: RxState)
    requires |data| == MaxData
    ensures RxValid(s) && s.state == WaitStx && s.data == data
  {
    RxState(WaitStx, 0, 0, data, 0)
  }

  /** rx_feed: one byte in, one result out. */
  function RxFeedStep(s: RxState, byte: Byte): (r: RxFeed)
    requires RxValid(s)
    ensures RxValid(r.next)
    ensures r.result != InProgress ==> r.next == RxInit(s.data)
    ensures r.result.Ok? <==>
      s.state == WaitEtx && byte == ETX && Checksum(s.len, s.data) == s.chk
    ensures r.result.Ok? ==> r.result.payload == s.data[..s.len]
    ensures r.result == Error <==>
      (s.state == ReadLen && byte == 0) ||
      (s.state == WaitEtx && (byte != ETX || Checksum(s.len, s.data) != s.chk))
  {
    match s.state
    case WaitStx =>
      if byte == STX then RxFeed(RxState(ReadLen, 0, 0, s.data, 0), InProgress)
      else RxFeed(s, InProgress)
    case ReadLen =>
      if byte == 0 then RxFeed(RxInit(s.data), Error)
      else RxFeed(s.(len := byte, state := ReadData), InProgress)
    case ReadData =>
      var idx := s.idx + 1;
      RxFeed(s.(data := s.data[s.idx := byte], idx := idx,
                state := if idx == s.len then ReadChk else ReadData), InProgress)
    case ReadChk =>
      RxFeed(s.(chk := byte, state := WaitEtx), InProgress)
    case WaitEtx =>
      if byte != ETX then RxFeed(RxInit(s.data), Error)
      else if Checksum(s.len, s.data) == s.chk then RxFeed(RxInit(s.data), Ok(s.data[..s.len]))
      else RxFeed(RxInit(s.data), Error)
  }

  /** rx_feed applied to each byte in turn: the final machine and every result, in order. */
  function Run(s: RxState, bytes: seq<Byte>): (r: (RxState, seq<RxResult>))
    requires RxValid(s)
    ensures RxValid(r.0) && |r.1| == |bytes|
    decreases |bytes|
  {
    if bytes == [] then (s, [])
    else
      var f := RxFeedStep(s, bytes[0]);
      var (t, rs) := Run(f.next, bytes[1..]);
      (t, [f.result] + rs)
  }

  lemma {:induction false} RunAppend(s: RxState, a: seq<Byte>, b: seq<Byte>)
    requires RxValid(s)
    ensures Run(s, a + b).0 == Run(Run(s, a).0, b).0
    ensures Run(s, a + b).1 == Run(s, a).1 + Run(Run(s, a).0, b).1
    decreases |a|
  {
    if a == [] {
      assert a + b == b;
    } else {
      assert (a + b)[1..] == a[1..] + b;
      RunAppend(RxFeedStep(s, a[0]).next, a[1..], b);
    }
  }

  lemma RunCons(s: RxState, b: Byte, rest: seq<Byte>)
    requires RxValid(s)
    ensures var f := RxFeedStep(s, b);
      Run(s, [b] + rest) == (Run(f.next, rest).0, [f.result] + Run(f.next, rest).1)
  {
    assert ([b] + rest)[1..] == rest;
  }

  lemma RunOne(s: RxState, b: Byte)
    requires RxValid(s)
    ensures Run(s, [b]) == (RxFeedStep(s, b).next, [RxFeedStep(s, b).result])
  {
    var f := RxFeedStep(s, b);
    RunCons(s, b, []);
    assert [b] + [] == [b];
    assert Run(f.next, []) == (f.next, []);
    assert [f.result] + [] == [f.result];
  }

  /** `k` results of RX_IN_PROGRESS. */
  function Pending(k: nat): (r: seq<RxResult>)
    ensures |r| == k && forall i :: 0 <= i < k ==> r[i] == InProgress
  {
    if k == 0 then [] else [InProgress] + Pending(k - 1)
  }

  lemma {:induction false} PendingAdd(a: nat, b: nat)
    ensures Pending(a) + Pending(b) == Pending(a + b)
  {
    if a > 0 {
      PendingAdd(a - 1, b);
      assert Pending(a) + Pending(b) == [InProgress] + (Pending(a - 1) + Pending(b));
    }
  }

  /** In RX_WAIT_STX every byte other than STX is answered RX_IN_PROGRESS and changes nothing. */
  lemma {:induction false} RxIgnoresNoise(s: RxState, noise: seq<Byte>)
    requires RxValid(s) && s.state == WaitStx && STX !in noise
    ensures Run(s, noise) == (s, Pending(|noise|))
    decreases |noise|
  {
    if noise != [] {
      assert noise[0] in noise;
      assert forall b :: b in noise[1..] ==> b in noise;
      RxIgnoresNoise(s, noise[1..]);
    }
  }

  /** The payload bytes are stored in order, each answered RX_IN_PROGRESS. */
  lemma {:induction false} RxDataPhase(s: RxState, d: seq<Byte>)
    requires RxValid(s) && s.state == ReadData && s.len == |d| && s.data[..s.idx] == d[..s.idx]
    ensures var t := Run(s, d[s.idx..]).0;
      t.state == ReadChk && t.len == s.len && t.idx == s.len && t.data[..|d|] == d
    ensures Run(s, d[s.idx..]).1 == Pending(|d| - s.idx)
    decreases |d| - s.idx
  {
    var b := d[s.idx];
    var f := RxFeedStep(s, b);
    RunCons(s, b, d[s.idx + 1..]);
    assert d[s.idx..] == [b] + d[s.idx + 1..];
    assert f.next.data[..f.next.idx] == s.data[..s.idx] + [b];
    assert d[..s.idx + 1] == d[..s.idx] + [b];
    if s.idx + 1 < |d| {
      RxDataPhase(f.next, d);
    } else {
      assert d[s.idx + 1..] == [];
      assert d[..s.idx + 1] == d;
    }
  }

  /**
   * A receiver waiting for STX that is fed STX, a length byte n >= 1 and n
   * payload bytes stores the payload and waits for the CHK byte, answering
   * RX_IN_PROGRESS to every byte.
   */
  lemma RxHeaderAndPayload(s: RxState, d: seq<Byte>)
    requires RxValid(s) && s.state == WaitStx && 1 <= |d| <= MaxData
    ensures var t := Run(s, Head(|d|) + d).0;
      t.state == ReadChk && t.len == |d| && t.idx == |d| && t.data[..|d|] == d
    ensures Run(s, Head(|d|) + d).1 == Pending(|d| + 2)
  {
    var n := |d|;
    RunAppend(s, Head(n), d);
    RxHead(s, n);
    RxPayload(Run(s, Head(n)).0, d);
    PendingAdd(2, n);
  }

  /** After the head, the n payload bytes are stored and the machine waits for CHK. */
  lemma RxPayload(s: RxState, d: seq<Byte>)
    requires RxValid(s) && s.state == ReadData && s.len == |d| && s.idx == 0
    ensures var t := Run(s, d).0;
      t.state == ReadChk && t.len == |d| && t.idx == |d| && t.data[..|d|] == d
    ensures Run(s, d).1 == Pending(|d|)
  {
    assert d[0..] == d && d[..0] == [];
    RxDataPhase(s, d);
  }

  /** STX and a length byte n >= 1 start a frame: the machine reads n data bytes next. */
  lemma RxHead(s: RxState, n: Byte)
    requires RxValid(s) && s.state == WaitStx && 1 <= n
    ensures Run(s, Head(n)) == (RxState(ReadData, n, 0, s.data, 0), Pending(2))
  {
    var s1 := RxFeedStep(s, STX).next;
    RunCons(s, STX, [n]);
    RunOne(s1, n);
    assert Pending(2) == [InProgress] + [InProgress];
  }

  /** From RX_READ_CHK: the CHK byte, then the end byte. */
  lemma RxTail(t: RxState, c: Byte, e: Byte)
    requires RxValid(t) && t.state == ReadChk
    ensures var (u, rs) := Run(t, [c, e]);
      u == RxInit(t.data) && |rs| == 2 && rs[0] == InProgress &&
      rs[1] == (if e == ETX && Checksum(t.len, t.data) == c then Ok(t.data[..t.len]) else Error)
  {
    var t1 := RxFeedStep(t, c).next;
    assert [c, e] == [c] + [e];
    RunCons(t, c, [e]);
    RunOne(t1, e);
  }

  /** What a receiver waiting for STX answers to a frame-shaped stream with LEN >= 1, whatever its CHK and end byte. */
  lemma RxFrameShaped(s: RxState, d: seq<Byte>, c: Byte, e: Byte)
    requires RxValid(s) && s.state == WaitStx && 1 <= |d| <= MaxData
    ensures var (u, rs) := Run(s, Head(|d|) + d + [c, e]);
      u == RxInit(u.data) && u.data[..|d|] == d &&
      rs == Pending(|d| + 3) + [if e == ETX && c == Checksum(|d|, d) then Ok(d) else Error]
  {
    var p := Head(|d|) + d;
    RxHeaderAndPayload(s, d);
    RunAppend(s, p, [c, e]);
    RxTailOf(Run(s, p).0, d, c, e);
    ResultsJoin(Run(s, p).1, Run(Run(s, p).0, [c, e]).1, |d|,
                if e == ETX && c == Checksum(|d|, d) then Ok(d) else Error);
  }

  /** RxTail for the machine RxHeaderAndPayload leaves behind. */
  lemma RxTailOf(t: RxState, d: seq<Byte>, c: Byte, e: Byte)
    requires RxValid(t) && t.state == ReadChk && t.len == |d| && t.data[..|d|] == d
    ensures var (u, rs) := Run(t, [c, e]);
      u == RxInit(t.data) &&
      rs == [InProgress, if e == ETX && c == Checksum(|d|, d) then Ok(d) else Error]
  {
    RxTail(t, c, e);
    assert Checksum(t.len, t.data) == Checksum(|d|, d) by {
      assert t.data[..t.len] == d[..|d|];
    }
  }

  lemma ResultsJoin(a: seq<RxResult>, b: seq<RxResult>, n: nat, r: RxResult)
    requires a == Pending(n + 2) && b == [InProgress, r]
    ensures a + b == Pending(n + 3) + [r]
  {
    PendingAdd(n + 2, 1);
    assert b == Pending(1) + [r];
  }

  /**
   * Round trip: a receiver waiting for STX that is fed the frame of a payload
   * of 1 to 255 bytes answers RX_IN_PROGRESS to the first n + 3 bytes and
   * RX_OK with the payload to the last, and is reset.
   */
  lemma RoundTrip(s: RxState, d: seq<Byte>)
    requires RxValid(s) && s.state == WaitStx && 1 <= |d| <= MaxData
    ensures var (u, rs) := Run(s, Frame(d));
      rs == Pending(|d| + 3) + [Ok(d)] && u == RxInit(u.data)
  {
    RxFrameShaped(s, d, Checksum(|d|, d), ETX);
  }

  /** A CHK byte other than the checksum of LEN and payload is answered RX_ERROR at the end byte, never RX_OK. */
  lemma BadChecksum(s: RxState, d: seq<Byte>, c: Byte, e: Byte)
    requires RxValid(s) && s.state == WaitStx && 1 <= |d| <= MaxData
    requires c != Checksum(|d|, d)
    ensures var (u, rs) := Run(s, Head(|d|) + d + [c, e]);
      rs == Pending(|d| + 3) + [Error] && u == RxInit(u.data)
  {
    RxFrameShaped(s, d, c, e);
  }

  /** An end byte other than ETX is answered RX_ERROR, never RX_OK. */
  lemma BadEnd(s: RxState, d: seq<Byte>, c: Byte, e: Byte)
    requires RxValid(s) && s.state == WaitStx && 1 <= |d| <= MaxData
    requires e != ETX
    ensures var (u, rs) := Run(s, Head(|d|) + d + [c, e]);
      rs == Pending(|d| + 3) + [Error] && u == RxInit(u.data)
  {
    RxFrameShaped(s, d, c, e);
  }

  /** A length byte of 0 is answered RX_ERROR and the machine is reset. */
  lemma EmptyLengthRejected(s: RxState)
    requires RxValid(s) && s.state == WaitStx
    ensures Run(s, Head(0)) == (RxInit(s.data), [InProgress, Error])
  {
    var s1 := RxFeedStep(s, STX).next;
    RunCons(s, STX, [0]);
    RunOne(s1, 0);
    assert s1.data == s.data;
    assert [InProgress] + [Error] == [InProgress, Error];
  }

  /** A frame with one payload byte changed in transit is answered RX_ERROR, never RX_OK. */
  lemma CorruptedPayload(s: RxState, d: seq<Byte>, k: nat, x: Byte)
    requires RxValid(s) && s.state == WaitStx && 1 <= |d| <= MaxData
    requires k < |d| && x != d[k]
    ensures Run(s, Frame(d)[k + 2 := x]).1 == Pending(|d| + 3) + [Error]
  {
    var n := |d|;
    var bad := d[k := x];
    assert d[..n] == d && bad[..n] == bad;
    ChecksumDetectsByteChange(n, d, k, x);
    assert Frame(d)[k + 2 := x] == Head(|bad|) + bad + [Checksum(n, d), ETX];
    BadChecksum(s, bad, Checksum(n, d), ETX);
  }

  // ---------------------------------------------------------------------------
  // Transmitter (tx_fsm_t)
  // ---------------------------------------------------------------------------

  datatype TxPhase = Idle | SendStx | SendLen | SendData | SendChk | SendEtx | Done

  /** The fields of tx_fsm_t; `data` is what the caller's buffer holds while the session lasts. */
  datatype TxState = TxState(state: TxPhase, data: seq<Byte>, len: Byte, idx: Byte, chk: Byte)

  /** What one call of tx_next leaves behind: the new fields and the byte written to *out_byte, if any. */
  datatype TxStep = TxStep(next: TxState, out: Option<Byte>)

  /**
   * The session never reads past its buffer: the cursor never passes the
   * length and in TX_SEND_DATA is strictly below it, so the unchecked read
   * `data[idx++]` is in bounds.
   */
  predicate TxValid(s: TxState) {
    s.len <= |s.data| && s.idx <= s.len &&
    (s.state in {SendStx, SendLen} ==> s.idx == 0) &&
    (s.state == SendData ==> s.idx < s.len) &&
    (s.state in {SendChk, SendEtx, Done} ==> s.idx == s.len)
  }

  /** `tx_fsm_t tx = {.state = TX_IDLE}`: every other field zero. */
  function TxIdle(): (s: TxState)
    ensures TxValid(s) && s.state == Idle
  {
    TxState(Idle, [], 0, 0, 0)
  }

  /** tx_start: the checksum is computed up front. */
  function TxStart(data: seq<Byte>, len: Byte): (s: TxState)
    requires len <= |data|
    ensures TxValid(s) && s.state == SendStx && s.data == data && s.len == len && s.idx == 0
    ensures s.chk == Checksum(len, data)
  {
    TxState(SendStx, data, len, 0, Checksum(len, data))
  }

  /** How many more times tx_next returns 1. */
  function StepsLeft(s: TxState): nat {
    match s.state
    case Idle => 0
    case Done => 0
    case SendEtx => 1
    case SendChk => 2
    case SendData => 2 + (if s.idx <= s.len then s.len - s.idx else 0)
    case SendLen => 3 + s.len
    case SendStx => 4 + s.len
  }

  /** tx_next: one byte out per call until TX_DONE; TX_IDLE and TX_DONE return 0 and change nothing. */
  function TxNext(s: TxState): (r: TxStep)
    requires TxValid(s)
    ensures TxValid(r.next) && r.next.data == s.data && r.next.len == s.len && r.next.chk == s.chk
    ensures r.out.None? <==> s.state in {Idle, Done}
    ensures r.out.None? ==> r.next == s
    ensures r.out.Some? ==> StepsLeft(r.next) == StepsLeft(s) - 1
  {
    match s.state
    case Idle => TxStep(s, None)
    case SendStx => TxStep(s.(state := SendLen), Some(STX))
    case SendLen => TxStep(s.(state := if s.len > 0 then SendData else SendChk), Some(s.len))
    case SendData =>
      var idx := s.idx + 1;
      TxStep(s.(idx := idx, state := if idx == s.len then SendChk else SendData), Some(s.data[s.idx]))
    case SendChk => TxStep(s.(state := SendEtx), Some(s.chk))
    case SendEtx => TxStep(s.(state := Done), Some(ETX))
    case Done => TxStep(s, None)
  }

  /** The bytes tx_next hands out, one per call, until it returns 0. */
  function Emitted(s: TxState): (bytes: seq<Byte>)
    requires TxValid(s)
    ensures |bytes| == StepsLeft(s)
    decreases StepsLeft(s)
  {
    var e := TxNext(s);
    if e.out.None? then [] else [e.out.value] + Emitted(e.next)
  }

  /** Where the session stands after handing out all its bytes. */
  function Drained(s: TxState): (t: TxState)
    requires TxValid(s)
    ensures TxValid(t) && StepsLeft(t) == 0 && TxNext(t) == TxStep(t, None)
    decreases StepsLeft(s)
  {
    var e := TxNext(s);
    if e.out.None? then s else Drained(e.next)
  }

  /** The position in the frame of the byte the next tx_next call hands out. */
  function FramePos(s: TxState): nat {
    match s.state
    case Idle => 0
    case SendStx => 0
    case SendLen => 1
    case SendData => 2 + s.idx
    case SendChk => 2 + s.len
    case SendEtx => 3 + s.len
    case Done => 4 + s.len
  }

  /** A session started by tx_start(d, n), not yet drained: what is left to send is the rest of the frame. */
  predicate Sending(s: TxState)
  {
    TxValid(s) && s.state != Idle && s.chk == Checksum(s.len, s.data)
  }

  /** Each tx_next call of a session hands out the frame's byte at FramePos and moves to the next position. */
  lemma TxNextFrame(s: TxState)
    requires Sending(s) && s.state != Done
    ensures var e := TxNext(s);
      FramePos(s) < s.len + 4 && e.out == Some(Frame(s.data[..s.len])[FramePos(s)]) &&
      Sending(e.next) && FramePos(e.next) == FramePos(s) + 1
  {
    var f := Frame(s.data[..s.len]);
    assert f == [STX, s.len] + s.data[..s.len] + [Checksum(s.len, s.data[..s.len]), ETX];
    assert s.data[..s.len][..s.len] == s.data[..s.len];
    if s.state == SendData {
      assert f[2 + s.idx] == s.data[s.idx];
    }
  }

  /** After tx_start(d, n), tx_next hands out exactly the frame of d[..n], n + 4 bytes, and then returns 0 forever. */
  lemma SessionFrame(d: seq<Byte>, n: Byte)
    requires n <= |d|
    ensures Emitted(TxStart(d, n)) == Frame(d[..n])
    ensures Drained(TxStart(d, n)).state == Done
  {
    var s := TxStart(d, n);
    EmittedFrom(s);
    assert Frame(d[..n])[0..] == Frame(d[..n]);
    DrainedDone(s);
  }

  lemma {:induction false} EmittedFrom(s: TxState)
    requires Sending(s)
    ensures FramePos(s) <= s.len + 4
    ensures Emitted(s) == Frame(s.data[..s.len])[FramePos(s)..]
    decreases StepsLeft(s)
  {
    if s.state == Done {
      assert Frame(s.data[..s.len])[FramePos(s)..] == [];
    } else {
      var f := Frame(s.data[..s.len]);
      var e := TxNext(s);
      TxNextFrame(s);
      EmittedFrom(e.next);
      assert f[FramePos(s)..] == [f[FramePos(s)]] + f[FramePos(s) + 1..];
    }
  }

  lemma {:induction false} DrainedDone(s: TxState)
    requires Sending(s)
    ensures Drained(s).state == Done
    decreases StepsLeft(s)
  {
    if s.state != Done {
      TxNextFrame(s);
      DrainedDone(TxNext(s).next);
    }
  }

  /** Loopback: a frame handed out by the transmitter is received intact, whatever the receiver's buffer held. */
  lemma Loopback(rx: RxState, d: seq<Byte>, n: Byte)
    requires RxValid(rx) && rx.state == WaitStx && 1 <= n <= |d|
    ensures Run(rx, Emitted(TxStart(d, n))).1 == Pending(n + 3) + [Ok(d[..n])]
  {
    SessionFrame(d, n);
    RoundTrip(rx, d[..n]);
  }
}
