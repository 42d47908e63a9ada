/**
 * The additive variant's rx_fsm_t and tx_fsm_t as objects whose methods
 * update their fields in place, each method specified by the step function
 * of module SumFraming that it carries out.
 */
module SumMachines {
  import opened Common
  import opened SumFraming

  /** A receiver: the fields of rx_fsm_t; `data` is its fixed MAX_DATA-byte payload buffer. */
  class Receiver {
    var state: RxPhase
    var len: Byte
    var idx: Byte
    const data: array<Byte>
    var chk: Byte

    function State(): RxState
      reads this, data
    {
      RxState(state, len, idx, data[..], chk)
    }

    predicate Valid()
      reads this, data
    {
      RxValid(State())
    }

    /** An rx_fsm_t declared and passed to rx_init; the buffer's initial contents are zero. */
    constructor ()
      ensures Valid() && State() == RxInit(seq(MaxData, _ => 0)) && fresh(data)
    {
      state, len, idx, chk := WaitStx, 0, 0, 0;
      data := new Byte[MaxData](_ => 0);
    }

    /** rx_init: the payload buffer is left as it is. */
    method Init()
      requires Valid()
      modifies this
      ensures Valid() && State() == RxInit(old(data[..]))
    {
      state, len, idx, chk := WaitStx, 0, 0, 0;
    }

    /**
     * rx_feed: on RX_OK the payload is copied to the head of `outBuf`, whose
     * length is *out_len; `outBuf` must have room for any payload.
     */
    method Feed(byte: Byte, outBuf: array<Byte>) returns (r: RxResult)
      requires Valid() && outBuf != data && outBuf.Length >= MaxData
      modifies this, data, outBuf
      ensures Valid() && RxFeed(State(), r) == RxFeedStep(old(State()), byte)
      ensures r.Ok? ==> |r.payload| <= MaxData && outBuf[..] == r.payload + old(outBuf[..])[|r.payload|..]
      ensures !r.Ok? ==> outBuf[..] == old(outBuf[..])
    {
      match state
      case WaitStx =>
        if byte == STX {
          state := ReadLen;
          len := 0;
          idx := 0;
          chk := 0;
        }
        return InProgress;
      case ReadLen =>
        if byte == 0 {
          Init();
          return Error;
        }
        len := byte;
        state := ReadData;
        return InProgress;
      case ReadData =>
        data[idx] := byte;
        idx := idx + 1;
        if idx == len {
          state := ReadChk;
        }
        return InProgress;
      case ReadChk =>
        chk := byte;
        state := WaitEtx;
        return InProgress;
      case WaitEtx =>
        if byte != ETX {
          Init();
          return Error;
        }
        var computed := CalcChecksum(len, data[..]);
        if computed == chk {
          // memcpy(out_buf, rx->data, rx->len)
          var i := 0;
          while i < len
            invariant i <= len
            invariant outBuf[..i] == data[..i]
            invariant outBuf[i..] == old(outBuf[i..])
            invariant Valid() && State() == old(State())
          {
            outBuf[i] := data[i];
            i := i + 1;
          }
          r := Ok(data[..len]);
          assert outBuf[..] == outBuf[..len] + outBuf[len..];
          Init();
          return r;
        } else {
          Init();
          return Error;
        }
    }
  }

  /** A transmitter session: the fields of tx_fsm_t. */
  class Transmitter {
    var state: TxPhase
    var data: seq<Byte>
    var len: Byte
    var idx: Byte
    var chk: Byte

    function State(): TxState
      reads this
    {
      TxState(state, data, len, idx, chk)
    }

    predicate Valid()
      reads this
    {
      TxValid(State())
    }

    /** `tx_fsm_t tx = {.state = TX_IDLE}`. */
    constructor ()
      ensures Valid() && State() == TxIdle()
    {
      state, data, len, idx, chk := Idle, [], 0, 0, 0;
    }

    /** tx_start: `d` is what the caller's buffer holds, `n` how many of its bytes to send. */
    method Start(d: seq<Byte>, n: Byte)
      requires n <= |d|
      modifies this
      ensures Valid() && State() == TxStart(d, n)
    {
      data := d;
      len := n;
      idx := 0;
      chk := CalcChecksum(n, d);
      state := SendStx;
    }

    /** tx_next: `out` is the byte written to *out_byte when the C function returns 1. */
    method Next() returns (out: Option<Byte>)
      requires Valid()
      modifies this
      ensures Valid() && TxStep(State(), out) == TxNext(old(State()))
    {
      match state
      case Idle =>
        return None;
      case SendStx =>
        state := SendLen;
        return Some(STX);
      case SendLen =>
        state := if len > 0 then SendData else SendChk;
        return Some(len);
      case SendData =>
        out := Some(data[idx]);
        idx := idx + 1;
        if idx == len {
          state := SendChk;
        }
      case SendChk =>
        state := SendEtx;
        return Some(chk);
      case SendEtx =>
        state := Done;
        return Some(ETX);
      case Done =>
        return None;
    }
  }
}
