/**
 * The XOR variant of the framing protocol (FSM_Switch/main.c): its checksum,
 * its transmit and receive machines as step functions on the values of their
 * C structs, and the properties the protocol promises, proved about them.
 *
 * Wire format: STX | LEN | DATA[LEN] | CHK | ETX, with STX = 0x02, ETX = 0x03
 * and CHK = STX ^ LEN ^ DATA[0] ^ ... ^ DATA[LEN-1].  The receiver accepts at
 * most PROTO_TAM_MAX = 200 payload bytes, checks CHK as soon as it arrives and
 * parks in an error state that resynchronises on the next STX.
 */
module XorFraming {
  import opened Common

  /** PROTO_TAM_MAX: the size of the receiver's payload buffer. */
  const TamMax: nat := 200

  // ---------------------------------------------------------------------------
  // Bitwise exclusive or on bytes
  // ---------------------------------------------------------------------------

  /** The lowest bit of `a`. */
  function Bit(a: nat): nat {
    if a % 2 == 0 then 0 else 1
  }

  /** The exclusive or of the lowest `k` bits of `a` and `b`, bit by bit from the lowest. */
  function XorBits(a: nat, b: nat, k: nat): nat {
    if k == 0 then 0
    else 2 * XorBits(a / 2, b / 2, k - 1) + (if Bit(a) == Bit(b) then 0 else 1)
  }

  function Pow2(k: nat): nat {
    if k == 0 then 1 else 2 * Pow2(k - 1)
  }

  lemma {:induction false} XorBitsBound(a: nat, b: nat, k: nat)
    ensures XorBits(a, b, k) < Pow2(k)
  {
    if k > 0 {
      XorBitsBound(a / 2, b / 2, k - 1);
    }
  }

  /** The C operator `^` on two uint8_t values. */
  function Xor(a: Byte, b: Byte): Byte {
    XorBitsBound(a, b, 8);
    XorBits(a, b, 8)
  }

  lemma Halves(q: nat, r: nat)
    requires r < 2
    ensures (2 * q + r) / 2 == q && Bit(2 * q + r) == r
  {
  }

  lemma {:induction false} XorBitsAssoc(a: nat, b: nat, c: nat, k: nat)
    ensures XorBits(XorBits(a, b, k), c, k) == XorBits(a, XorBits(b, c, k), k)
  {
    if k > 0 {
      Halves(XorBits(a / 2, b / 2, k - 1), if Bit(a) == Bit(b) then 0 else 1);
      Halves(XorBits(b / 2, c / 2, k - 1), if Bit(b) == Bit(c) then 0 else 1);
      XorBitsAssoc(a / 2, b / 2, c / 2, k - 1);
    }
  }

  lemma {:induction false} XorBitsComm(a: nat, b: nat, k: nat)
    ensures XorBits(a, b, k) == XorBits(b, a, k)
  {
    if k > 0 {
      XorBitsComm(a / 2, b / 2, k - 1);
    }
  }

  lemma {:induction false} XorBitsSelf(a: nat, k: nat)
    ensures XorBits(a, a, k) == 0
  {
    if k > 0 {
      XorBitsSelf(a / 2, k - 1);
    }
  }

  lemma {:induction false} XorBitsZero(a: nat, k: nat)
    requires a < Pow2(k)
    ensures XorBits(a, 0, k) == a
  {
    if k > 0 {
      XorBitsZero(a / 2, k - 1);
    }
  }

  /** `^` on bytes is associative and commutative, with 0 as unit and every byte its own inverse. */
  lemma XorAlgebra(a: Byte, b: Byte, c: Byte)
    ensures Xor(Xor(a, b), c) == Xor(a, Xor(b, c))
    ensures Xor(a, b) == Xor(b, a)
    ensures Xor(a, a) == 0 && Xor(a, 0) == a && Xor(0, a) == a
  {
    XorBitsAssoc(a, b, c, 8);
    XorBitsComm(a, b, 8);
    XorBitsComm(a, 0, 8);
    XorBitsSelf(a, 8);
    XorBitsZero(a, 8);
  }

  /** XOR-ing the same byte into two accumulators keeps them apart. */
  lemma XorCancel(a: Byte, x: Byte, y: Byte)
    ensures Xor(a, x) == Xor(a, y) <==> x == y
    ensures Xor(x, a) == Xor(y, a) <==> x == y
  {
    XorAlgebra(a, a, x);
    XorAlgebra(a, a, y);
    XorAlgebra(x, a, a);
    XorAlgebra(y, a, a);
    XorAlgebra(x, x, x);
    XorAlgebra(y, y, y);
  }

  // ---------------------------------------------------------------------------
  // Checksum
  // ---------------------------------------------------------------------------

  /** An accumulator `c` after `c ^= d[i]` for every byte of `d` in order. */
  function Acc(c: Byte, d: seq<Byte>): Byte {
    if d == [] then c else Xor(Acc(c, d[..|d| - 1]), d[|d| - 1])
  }

  /** The CHK byte of a frame with length byte `tam` and payload `dados`: STX ^ LEN ^ XOR(dados). */
  function ChkXor(tam: Byte, dados: seq<Byte>): Byte {
    Acc(Xor(STX, tam), dados)
  }

  lemma {:induction false} AccAppend(c: Byte, a: seq<Byte>, b: seq<Byte>)
    ensures Acc(c, a + b) == Acc(Acc(c, a), b)
    decreases |b|
  {
    if b == [] {
      assert a + b == a;
    } else {
      assert (a + b)[..|a + b| - 1] == a + b[..|b| - 1];
      AccAppend(c, a, b[..|b| - 1]);
    }
  }

  lemma AccOne(c: Byte, x: Byte)
    ensures Acc(c, [x]) == Xor(c, x)
  {
    assert [x][..0] == [];
  }

  /** The accumulator's seed can be XOR-ed in at the end: Acc(c, d) == c ^ XOR(d). */
  lemma {:induction false} AccSeed(c: Byte, d: seq<Byte>)
    ensures Acc(c, d) == Xor(c, Acc(0, d))
    decreases |d|
  {
    if d == [] {
      XorAlgebra(c, 0, 0);
    } else {
      var p := d[..|d| - 1];
      AccSeed(c, p);
      XorAlgebra(c, Acc(0, p), d[|d| - 1]);
    }
  }

  /** Two different seeds stay different through the same bytes. */
  lemma {:induction false} AccInjective(c1: Byte, c2: Byte, d: seq<Byte>)
    requires c1 != c2
    ensures Acc(c1, d) != Acc(c2, d)
    decreases |d|
  {
    if d != [] {
      var p := d[..|d| - 1];
      AccInjective(c1, c2, p);
      XorCancel(d[|d| - 1], Acc(c1, p), Acc(c2, p));
    }
  }

  /** CHK detects every change of a single payload byte. */
  lemma ChkDetectsByteChange(tam: Byte, d: seq<Byte>, k: nat, x: Byte)
    requires k < |d| && x != d[k]
    ensures ChkXor(tam, d[k := x]) != ChkXor(tam, d)
  {
    var c := Xor(STX, tam);
    var e := d[k := x];
    assert d == (d[..k] + [d[k]]) + d[k + 1..];
    assert e == (d[..k] + [x]) + d[k + 1..];
    AccAppend(c, d[..k] + [d[k]], d[k + 1..]);
    AccAppend(c, d[..k] + [x], d[k + 1..]);
    AccAppend(c, d[..k], [d[k]]);
    AccAppend(c, d[..k], [x]);
    AccOne(Acc(c, d[..k]), d[k]);
    AccOne(Acc(c, d[..k]), x);
    XorCancel(Acc(c, d[..k]), x, d[k]);
    AccInjective(Acc(c, d[..k] + [x]), Acc(c, d[..k] + [d[k]]), d[k + 1..]);
  }

  /** CHK detects a change of the length byte that keeps the payload. */
  lemma ChkDetectsLengthChange(tam: Byte, tam': Byte, d: seq<Byte>)
    requires tam != tam'
    ensures ChkXor(tam, d) != ChkXor(tam', d)
  {
    XorCancel(STX, tam, tam');
    AccInjective(Xor(STX, tam), Xor(STX, tam'), d);
  }

  /** STX ^ LEN ^ XOR(dados), the formula the accumulator computes. */
  lemma ChkFormula(stx: Byte, tam: Byte, d: seq<Byte>)
    ensures Acc(Xor(stx, tam), d) == Xor(stx, Acc(0, [tam] + d))
  {
    AccAppend(0, [tam], d);
    AccOne(0, tam);
    XorAlgebra(tam, 0, 0);
    AccSeed(Xor(stx, tam), d);
    AccSeed(tam, d);
    XorAlgebra(stx, tam, Acc(0, d));
  }

  /**
   * proto_chk_xor: `c = stx ^ tam`, then `c ^= dados[i]` for each i < tam.  The
   * counter `i` is a uint32_t and `tam` at most 255, so it cannot wrap.
   */
  method ProtoChkXor(stx: Byte, tam: Byte, dados: seq<Byte>) returns (c: Byte)
    requires tam <= |dados|
    ensures c == Xor(stx, Acc(0, [tam] + dados[..tam]))
    ensures stx == STX ==> c == ChkXor(tam, dados[..tam])
  {
    c := Xor(stx, tam);
    var i: nat := 0;
    while i < tam
      invariant i <= tam
      invariant c == Acc(Xor(stx, tam), dados[..i])
    {
      assert dados[..i + 1] == dados[..i] + [dados[i]];
      AccAppend(Xor(stx, tam), dados[..i], [dados[i]]);
      AccOne(Acc(Xor(stx, tam), dados[..i]), dados[i]);
      c := Xor(c, dados[i]);
      i := i + 1;
    }
    assert dados[..tam] == dados[..i];
    ChkFormula(stx, tam, dados[..tam]);
  }

  /** The frame the protocol defines for payload `dados`. */
  function Frame(dados: seq<Byte>): seq<Byte>
    requires |dados| < 0x100
  {
    Head(|dados|) + dados + [ChkXor(|dados|, dados), ETX]
  }

  /** The XOR of every byte of a frame before ETX is 0: CHK cancels STX, LEN and the payload. */
  lemma FrameCancels(dados: seq<Byte>)
    requires |dados| < 0x100
    ensures Acc(0, Frame(dados)[..|dados| + 3]) == 0
  {
    var n := |dados|;
    var f := Frame(dados);
    var chk := ChkXor(n, dados);
    assert f[..n + 3] == (Head(n) + dados) + [chk];
    AccAppend(0, Head(n) + dados, [chk]);
    AccAppend(0, Head(n), dados);
    AccAppend(0, [STX], [n]);
    AccOne(0, STX);
    AccOne(Acc(0, [STX]), n);
    AccOne(Acc(0, Head(n) + dados), chk);
    XorAlgebra(0, STX, 0);
    XorAlgebra(chk, chk, chk);
  }

  // ---------------------------------------------------------------------------
  // Transmitter (tx_t)
  // ---------------------------------------------------------------------------

  datatype TxPhase = Aguarda | EnviaStx | EnviaTam | EnviaDados | EnviaChk | EnviaEtx | Fim

  /**
   * The fields of tx_t.  `dados` is what the caller's buffer holds while the
   * session lasts; tx_iniciar's NULL pointer is the empty sequence.
   */
  datatype TxState = TxState(st: TxPhase, dados: seq<Byte>, tam: Byte, idx: Byte, chk: Byte)

  /** What one call of tx_passo leaves behind: the new fields and the byte written to *out, if any. */
  datatype TxStep = TxStep(next: TxState, out: Option<Byte>)

  /** The session never reads past its buffer and the cursor never passes the length. */
  predicate TxValid(s: TxState) {
    s.tam <= |s.dados| && s.idx <= s.tam
  }

  /** Between two data bytes, chk holds STX ^ LEN ^ the bytes already sent. */
  predicate TxChkSoFar(s: TxState)
    requires TxValid(s)
  {
    s.chk == ChkXor(s.tam, s.dados[..s.idx])
  }

  /** tx_iniciar. */
  function TxIniciar(): (s: TxState)
    ensures TxValid(s) && s.st == Aguarda
  {
    TxState(Aguarda, [], 0, 0, 0)
  }

  /** tx_solicitar: the running checksum starts at STX ^ LEN. */
  function TxSolicitar(dados: seq<Byte>, tam: Byte): (s: TxState)
    requires tam <= |dados|
    ensures TxValid(s) && s.st == EnviaStx && s.dados == dados && s.tam == tam && s.idx == 0
    ensures TxChkSoFar(s)
  {
    TxState(EnviaStx, dados, tam, 0, Xor(STX, tam))
  }

  /** An upper bound on the number of ready steps before the session is back in TX_AGUARDA. */
  function StepsLeft(s: TxState): nat {
    match s.st
    case Aguarda => 0
    case Fim => 1
    case EnviaEtx => 2
    case EnviaChk => 3
    case EnviaDados => 4 + (if s.idx < s.tam then s.tam - s.idx else 0)
    case EnviaTam => 5 + s.tam
    case EnviaStx => 6 + s.tam
  }

  /** tx_passo: one step of the transmit machine; `pronto` is hw_pronto. */
  function TxPasso(s: TxState, pronto: bool): (r: TxStep)
    requires TxValid(s)
    ensures TxValid(r.next) && r.next.dados == s.dados && r.next.tam == s.tam
    ensures !pronto || s.st == Aguarda ==> r == TxStep(s, None)
    ensures pronto && s.st != Aguarda ==> StepsLeft(r.next) < StepsLeft(s)
  {
    if !pronto then TxStep(s, None)
    else
      match s.st
      case Aguarda => TxStep(s, None)
      case EnviaStx => TxStep(s.(st := EnviaTam), Some(STX))
      case EnviaTam => TxStep(s.(st := if s.tam == 0 then EnviaChk else EnviaDados), Some(s.tam))
      case EnviaDados =>
        if s.idx < s.tam then
          var b := s.dados[s.idx];
          var idx := s.idx + 1;
          TxStep(s.(idx := idx, chk := Xor(s.chk, b),
                    st := if idx >= s.tam then EnviaChk else EnviaDados), Some(b))
        else
          TxStep(s.(st := EnviaChk), None)
      case EnviaChk => TxStep(s.(st := EnviaEtx), Some(s.chk))
      case EnviaEtx => TxStep(s.(st := Fim), Some(ETX))
      case Fim => TxStep(s.(st := Aguarda), None)
  }

  /** A data step keeps chk equal to STX ^ LEN ^ the bytes sent so far. */
  lemma TxPassoKeepsChk(s: TxState)
    requires TxValid(s) && TxChkSoFar(s)
    ensures TxChkSoFar(TxPasso(s, true).next)
  {
    if s.st == EnviaDados && s.idx < s.tam {
      var b := s.dados[s.idx];
      assert s.dados[..s.idx + 1] == s.dados[..s.idx] + [b];
      AccAppend(Xor(STX, s.tam), s.dados[..s.idx], [b]);
      AccOne(Acc(Xor(STX, s.tam), s.dados[..s.idx]), b);
    }
  }

  /** Where a session ends and which bytes it emits when stepped with the line ready until it is idle. */
  datatype Flushed = Flushed(last: TxState, bytes: seq<Byte>)

  /** tx_emitir_tudo with unlimited room: steps until a step returns nothing in TX_AGUARDA. */
  function Flush(s: TxState): (r: Flushed)
    requires TxValid(s)
    ensures TxValid(r.last) && r.last.st == Aguarda
    ensures r.last.dados == s.dados && r.last.tam == s.tam
    ensures |r.bytes| <= StepsLeft(s)
    decreases StepsLeft(s)
  {
    if s.st == Aguarda then Flushed(s, [])
    else
      var e := TxPasso(s, true);
      var f := Flush(e.next);
      match e.out
      case Some(b) => Flushed(f.last, [b] + f.bytes)
      case None => f
  }

  /** One step of tx_emitir_tudo: a byte produced is the first byte of what the session still emits. */
  lemma FlushStep(s: TxState)
    requires TxValid(s) && s.st != Aguarda
    ensures var e := TxPasso(s, true);
      Flush(s).last == Flush(e.next).last &&
      Flush(s).bytes == (if e.out.Some? then [e.out.value] else []) + Flush(e.next).bytes
  {
  }

  /** A valid session is back in TX_AGUARDA within 261 ready steps. */
  lemma StepsLeftBound(s: TxState)
    requires TxValid(s)
    ensures StepsLeft(s) <= 261
  {
  }

  /** The data phase: the remaining payload bytes, then CHK and ETX. */
  lemma {:induction false} DataPhase(s: TxState)
    requires TxValid(s) && s.st == EnviaDados && s.idx < s.tam && TxChkSoFar(s)
    ensures Flush(s).bytes == s.dados[s.idx..s.tam] + [ChkXor(s.tam, s.dados[..s.tam]), ETX]
    decreases s.tam - s.idx
  {
    var e := TxPasso(s, true);
    TxPassoKeepsChk(s);
    assert s.dados[s.idx..s.tam] == [s.dados[s.idx]] + s.dados[s.idx + 1..s.tam];
    if s.idx + 1 < s.tam {
      DataPhase(e.next);
    } else {
      TailPhase(e.next);
    }
  }

  /** From TX_ENVIA_CHK: CHK, then ETX. */
  lemma TailPhase(s: TxState)
    requires TxValid(s) && s.st == EnviaChk
    ensures Flush(s).bytes == [s.chk, ETX]
  {
    var s1 := s.(st := EnviaEtx);
    var s2 := s.(st := Fim);
    assert Flush(s2).bytes == [];
    assert Flush(s1).bytes == [ETX];
  }

  /** Everything a requested session emits, with a ready line and unlimited room, is exactly its frame. */
  lemma SessionFrame(d: seq<Byte>, n: Byte)
    requires n <= |d|
    ensures Flush(TxSolicitar(d, n)).bytes == Frame(d[..n])
  {
    var s0 := TxSolicitar(d, n);
    var s1 := s0.(st := EnviaTam);
    var s2 := s0.(st := if n == 0 then EnviaChk else EnviaDados);
    var p := d[..n];
    assert Flush(s0).bytes == [STX] + Flush(s1).bytes;
    assert Flush(s1).bytes == [n] + Flush(s2).bytes;
    assert Flush(s2).bytes == p + [ChkXor(n, p), ETX] by {
      if n == 0 {
        TailPhase(s2);
        assert p == [];
      } else {
        DataPhase(s2);
        assert d[0..n] == p;
      }
    }
    assert Frame(p) == [STX] + [n] + p + [ChkXor(n, p), ETX];
  }

  // ---------------------------------------------------------------------------
  // Receiver (rx_t)
  // ---------------------------------------------------------------------------

  datatype RxPhase = AguardaStx | LeTam | LeDados | LeChk | LeEtx | RxOk | Erro

  /** The fields of rx_t; `dados` is the fixed payload buffer of PROTO_TAM_MAX bytes. */
  datatype RxState = RxState(st: RxPhase, dados: seq<Byte>, tam: Byte, idx: Byte,
                             chkXor: Byte, quadroPronto: bool)

  /**
   * What rx_entrada keeps true: the buffer has its fixed size, a frame is
   * flagged ready exactly in RX_OK, and while a frame is being read its length
   * is within the buffer and the cursor within the length.  (From a reset
   * receiver RX_LE_DADOS is never reached with idx == tam; the machine's
   * overflow guard for that case is kept.)
   */
  predicate RxValid(s: RxState) {
    |s.dados| == TamMax &&
    (s.quadroPronto <==> s.st == RxOk) &&
    (s.st == LeDados ==> s.idx <= s.tam <= TamMax) &&
    (s.st in {LeChk, LeEtx, RxOk} ==> s.idx == s.tam <= TamMax)
  }

  /** rx_iniciar: resets the machine and keeps whatever the payload buffer holds. */
  function RxIniciar(buf: seq<Byte>): (s: RxState)
    requires |buf| == TamMax
    ensures RxValid(s) && s.st == AguardaStx && s.dados == buf
  {
    RxState(AguardaStx, buf, 0, 0, 0, false)
  }

  /** rx_entrada: feeds one byte to the receive machine. */
  function RxEntrada(s: RxState, byte: Byte): (r: RxState)
    requires RxValid(s)
    ensures RxValid(r)
    ensures r.st == RxOk <==> s.st == RxOk || (s.st == LeEtx && byte == ETX)
    ensures s.st == LeChk ==> (r.st == LeEtx <==> byte == s.chkXor)
    ensures s.st in {AguardaStx, Erro} && byte == STX ==> r.st == LeTam
    ensures s.st in {LeTam, LeDados, LeChk, LeEtx} ==> r.st != AguardaStx
  {
    match s.st
    case AguardaStx =>
      if byte == STX then s.(st := LeTam) else s
    case LeTam =>
      var s1 := s.(tam := byte, idx := 0);
      if byte > TamMax then s1.(st := Erro)
      else s1.(chkXor := Xor(STX, byte), st := if byte == 0 then LeChk else LeDados)
    case LeDados =>
      if s.idx < s.tam then
        var idx := s.idx + 1;
        s.(dados := s.dados[s.idx := byte], idx := idx, chkXor := Xor(s.chkXor, byte),
           st := if idx >= s.tam then LeChk else LeDados)
      else
        s.(st := Erro)
    case LeChk =>
      if byte == s.chkXor then s.(st := LeEtx) else s.(st := Erro)
    case LeEtx =>
      if byte == ETX then s.(st := RxOk, quadroPronto := true) else s.(st := Erro)
    case RxOk => s
    case Erro =>
      if byte == STX then s.(st := LeTam) else s
  }

  /**
   * The invariant of every receiver reachable from rx_iniciar: besides
   * RxValid, in RX_LE_DADOS the cursor is strictly below the length.
   */
  predicate RxReachable(s: RxState) {
    RxValid(s) && (s.st == LeDados ==> s.idx < s.tam)
  }

  /**
   * rx_entrada keeps the invariant (a reset receiver, in RX_AGUARDA_STX, has
   * it trivially), so the overflow branch of RX_LE_DADOS is never taken.
   */
  lemma RxReachableKept(s: RxState, byte: Byte)
    requires RxReachable(s)
    ensures RxReachable(RxEntrada(s, byte))
    ensures s.st == LeDados ==> RxEntrada(s, byte).st in {LeDados, LeChk}
  {
  }

  /** rx_entrada applied to each byte of `bytes` in turn. */
  function FeedAll(s: RxState, bytes: seq<Byte>): (r: RxState)
    requires RxValid(s)
    ensures RxValid(r)
    decreases |bytes|
  {
    if bytes == [] then s else FeedAll(RxEntrada(s, bytes[0]), bytes[1..])
  }

  /** Feeding any bytes keeps the reachability invariant. */
  lemma {:induction false} RxReachableFeed(s: RxState, bytes: seq<Byte>)
    requires RxReachable(s)
    ensures RxReachable(FeedAll(s, bytes))
    decreases |bytes|
  {
    if bytes != [] {
      RxReachableKept(s, bytes[0]);
      RxReachableFeed(RxEntrada(s, bytes[0]), bytes[1..]);
    }
  }

  /** Every receiver reachable from rx_iniciar keeps `idx < tam <= PROTO_TAM_MAX` in RX_LE_DADOS. */
  lemma RxReachableFromReset(buf: seq<Byte>, bytes: seq<Byte>)
    requires |buf| == TamMax
    ensures RxReachable(FeedAll(RxIniciar(buf), bytes))
  {
    RxReachableFeed(RxIniciar(buf), bytes);
  }

  lemma {:induction false} FeedAllAppend(s: RxState, a: seq<Byte>, b: seq<Byte>)
    requires RxValid(s)
    ensures FeedAll(s, a + b) == FeedAll(FeedAll(s, a), b)
    decreases |a|
  {
    if a != [] {
      assert (a + b)[1..] == a[1..] + b;
      FeedAllAppend(RxEntrada(s, a[0]), a[1..], b);
    } else {
      assert a + b == b;
    }
  }

  lemma FeedCons(s: RxState, b: Byte, rest: seq<Byte>)
    requires RxValid(s)
    ensures FeedAll(s, [b] + rest) == FeedAll(RxEntrada(s, b), rest)
  {
    assert ([b] + rest)[1..] == rest;
  }

  lemma FeedOne(s: RxState, b: Byte)
    requires RxValid(s)
    ensures FeedAll(s, [b]) == RxEntrada(s, b)
  {
    FeedCons(s, b, []);
    assert [b] + [] == [b];
  }

  /** While reading the payload, the buffer holds the bytes read so far and chk their running XOR. */
  predicate RxReadSoFar(s: RxState, d: seq<Byte>)
    requires RxValid(s)
  {
    s.tam == |d| <= TamMax && s.idx <= s.tam &&
    s.dados[..s.idx] == d[..s.idx] && s.chkXor == ChkXor(s.tam, d[..s.idx])
  }

  /** The payload bytes of a frame are stored in order and folded into the running checksum. */
  lemma {:induction false} RxDataPhase(s: RxState, d: seq<Byte>)
    requires RxValid(s) && s.st == LeDados && RxReadSoFar(s, d) && s.idx < |d|
    ensures var r := FeedAll(s, d[s.idx..]);
      r.st == LeChk && RxReadSoFar(r, d) && r.idx == |d|
    decreases |d| - s.idx
  {
    var b := d[s.idx];
    var r := RxEntrada(s, b);
    assert d[s.idx..][1..] == d[s.idx + 1..];
    assert r.dados[..r.idx] == s.dados[..s.idx] + [b];
    assert d[..s.idx + 1] == d[..s.idx] + [b];
    AccAppend(Xor(STX, s.tam), d[..s.idx], [b]);
    AccOne(Acc(Xor(STX, s.tam), d[..s.idx]), b);
    if s.idx + 1 < |d| {
      RxDataPhase(r, d);
    } else {
      assert d[s.idx + 1..] == [];
    }
  }

  /** STX and a length byte within the buffer start a frame: the checksum is seeded with STX ^ LEN. */
  lemma FeedHead(s: RxState, n: Byte)
    requires RxValid(s) && s.st in {AguardaStx, Erro} && n <= TamMax
    ensures var r := FeedAll(s, Head(n));
      r.st == (if n == 0 then LeChk else LeDados) && r.dados == s.dados &&
      r.tam == n && r.idx == 0 && r.chkXor == Xor(STX, n)
  {
    FeedCons(s, STX, [n]);
    FeedOne(RxEntrada(s, STX), n);
  }

  /** After the head, LEN payload bytes are stored in order and the receiver waits for CHK. */
  lemma FeedPayload(s: RxState, d: seq<Byte>)
    requires RxValid(s) && s.st == (if |d| == 0 then LeChk else LeDados)
    requires s.tam == |d| <= TamMax && s.idx == 0 && s.chkXor == Xor(STX, |d|)
    ensures var r := FeedAll(s, d);
      r.st == LeChk && r.tam == |d| && r.dados[..|d|] == d && r.chkXor == ChkXor(|d|, d)
  {
    if d == [] {
      assert FeedAll(s, d) == s;
    } else {
      assert d[0..] == d;
      assert d[..0] == [];
      assert RxReadSoFar(s, d);
      RxDataPhase(s, d);
      assert d[..|d|] == d;
    }
  }

  /**
   * A receiver waiting for STX (freshly reset, or in RX_ERRO) that is fed STX,
   * a length byte within the buffer and that many payload bytes stores the
   * payload, holds its CHK and waits for the CHK byte.
   */
  lemma RxHeaderAndPayload(s: RxState, d: seq<Byte>)
    requires RxValid(s) && s.st in {AguardaStx, Erro} && |d| <= TamMax
    ensures var r := FeedAll(s, Head(|d|) + d);
      r.st == LeChk && r.tam == |d| && r.dados[..|d|] == d && r.chkXor == ChkXor(|d|, d)
  {
    FeedAllAppend(s, Head(|d|), d);
    FeedHead(s, |d|);
    FeedPayload(FeedAll(s, Head(|d|)), d);
  }

  /**
   * Round trip: a receiver waiting for STX (freshly reset, or in RX_ERRO)
   * that is fed the frame of a payload of at most PROTO_TAM_MAX bytes ends in
   * RX_OK with the payload at the head of its buffer.
   */
  lemma RoundTrip(s: RxState, d: seq<Byte>)
    requires RxValid(s) && s.st in {AguardaStx, Erro} && |d| <= TamMax
    ensures var r := FeedAll(s, Frame(d));
      r.st == RxOk && r.quadroPronto && r.tam == |d| && r.dados[..|d|] == d
  {
    var n := |d|;
    var chk := ChkXor(n, d);
    RxHeaderAndPayload(s, d);
    var s2 := FeedAll(s, Head(n) + d);
    FeedAllAppend(s, Head(n) + d, [chk, ETX]);
    var s3 := RxEntrada(s2, chk);
    assert [chk, ETX] == [chk] + [ETX];
    FeedCons(s2, chk, [ETX]);
    FeedOne(s3, ETX);
  }

  /** In RX_AGUARDA_STX and RX_ERRO every byte other than STX is ignored. */
  lemma {:induction false} RxIgnoresNoise(s: RxState, noise: seq<Byte>)
    requires RxValid(s) && s.st in {AguardaStx, Erro} && STX !in noise
    ensures FeedAll(s, noise) == s
    decreases |noise|
  {
    if noise != [] {
      assert noise[0] in noise;
      assert forall b :: b in noise[1..] ==> b in noise;
      RxIgnoresNoise(RxEntrada(s, noise[0]), noise[1..]);
    }
  }

  /** A completed frame waits in RX_OK for collection, whatever arrives meanwhile. */
  lemma {:induction false} RxOkHolds(s: RxState, bytes: seq<Byte>)
    requires RxValid(s) && s.st == RxOk
    ensures FeedAll(s, bytes) == s
    decreases |bytes|
  {
    if bytes != [] {
      RxOkHolds(RxEntrada(s, bytes[0]), bytes[1..]);
    }
  }

  /** Resynchronisation: line noise without STX, then a valid frame, is received. */
  lemma NoiseThenFrame(s: RxState, noise: seq<Byte>, d: seq<Byte>)
    requires RxValid(s) && s.st in {AguardaStx, Erro} && STX !in noise && |d| <= TamMax
    ensures var r := FeedAll(s, noise + Frame(d));
      r.st == RxOk && r.tam == |d| && r.dados[..|d|] == d
  {
    FeedAllAppend(s, noise, Frame(d));
    RxIgnoresNoise(s, noise);
    RoundTrip(s, d);
  }

  /** In RX_LE_CHK a wrong CHK byte leads to RX_ERRO, which a following byte other than STX keeps. */
  lemma WrongChk(s: RxState, c: Byte, e: Byte)
    requires RxValid(s) && s.st == LeChk && c != s.chkXor
    ensures FeedAll(s, [c]).st == Erro
    ensures e != STX ==> FeedAll(s, [c, e]).st == Erro
  {
    FeedOne(s, c);
    assert [c, e] == [c] + [e];
    FeedCons(s, c, [e]);
    FeedOne(RxEntrada(s, c), e);
  }

  /**
   * A CHK byte that differs from STX ^ LEN ^ XOR(payload) sends the receiver to
   * RX_ERRO, and no frame is flagged ready; the next byte leaves it there unless
   * it is STX.
   */
  lemma BadChecksum(s: RxState, d: seq<Byte>, c: Byte, e: Byte)
    requires RxValid(s) && s.st in {AguardaStx, Erro} && |d| <= TamMax
    requires c != ChkXor(|d|, d)
    ensures var r := FeedAll(s, Head(|d|) + d + [c]);
      r.st == Erro && !r.quadroPronto
    ensures e != STX ==> FeedAll(s, Head(|d|) + d + [c, e]).st == Erro
  {
    var p := Head(|d|) + d;
    RxHeaderAndPayload(s, d);
    FeedAllAppend(s, p, [c]);
    FeedAllAppend(s, p, [c, e]);
    WrongChk(FeedAll(s, p), c, e);
  }

  lemma AfterChk(s2: RxState, c: Byte, e: Byte)
    requires RxValid(s2) && s2.st == LeChk && c == s2.chkXor && e != ETX
    ensures FeedAll(s2, [c, e]).st == Erro
  {
    assert [c, e] == [c] + [e];
    FeedCons(s2, c, [e]);
    FeedOne(RxEntrada(s2, c), e);
  }

  /** A frame whose last byte is not ETX sends the receiver to RX_ERRO, and no frame is flagged ready. */
  lemma BadEnd(s: RxState, d: seq<Byte>, e: Byte)
    requires RxValid(s) && s.st in {AguardaStx, Erro} && |d| <= TamMax
    requires e != ETX
    ensures var r := FeedAll(s, Head(|d|) + d + [ChkXor(|d|, d), e]);
      r.st == Erro && !r.quadroPronto
  {
    var chk := ChkXor(|d|, d);
    var p := Head(|d|) + d;
    RxHeaderAndPayload(s, d);
    FeedAllAppend(s, p, [chk, e]);
    AfterChk(FeedAll(s, p), chk, e);
  }

  /** A length byte above PROTO_TAM_MAX sends the receiver to RX_ERRO. */
  lemma LengthTooLong(s: RxState, t: Byte)
    requires RxValid(s) && s.st in {AguardaStx, Erro} && t > TamMax
    ensures FeedAll(s, [STX, t]).st == Erro
    ensures FeedAll(s, [STX, t]).dados == s.dados && !FeedAll(s, [STX, t]).quadroPronto
  {
    assert [STX, t] == [STX] + [t];
    FeedCons(s, STX, [t]);
    FeedOne(RxEntrada(s, STX), t);
  }

  /** A frame with one payload byte changed in transit fails its checksum. */
  lemma CorruptedPayload(s: RxState, d: seq<Byte>, k: nat, x: Byte)
    requires RxValid(s) && s.st in {AguardaStx, Erro} && |d| <= TamMax
    requires k < |d| && x != d[k]
    ensures FeedAll(s, Frame(d)[k + 2 := x]).st == Erro
  {
    var n := |d|;
    var chk := ChkXor(n, d);
    var bad := d[k := x];
    ChkDetectsByteChange(n, d, k, x);
    assert Frame(d)[k + 2 := x] == Head(n) + bad + [chk, ETX];
    assert Head(n) + bad + [chk, ETX] == Head(|bad|) + bad + [chk, ETX];
    BadChecksum(s, bad, chk, ETX);
  }

  /**
   * rx_pegar_dados: with a frame ready and room for it, the payload is handed
   * over and the machine is reset (the buffer is kept); otherwise nothing is
   * handed over and nothing changes.
   */
  datatype Coleta = Coleta(rx: RxState, payload: seq<Byte>)

  function RxPegarDados(s: RxState, cap: nat): (r: Coleta)
    requires RxValid(s)
    ensures RxValid(r.rx)
    ensures s.quadroPronto && s.tam <= cap ==>
      r.payload == s.dados[..s.tam] && r.rx == RxIniciar(s.dados)
    ensures !(s.quadroPronto && s.tam <= cap) ==> r == Coleta(s, [])
  {
    if !s.quadroPronto then Coleta(s, [])
    else if cap < s.tam then Coleta(s, [])
    else Coleta(RxIniciar(s.dados), s.dados[..s.tam])
  }

  /** Loopback: a frame the transmitter emits, fed to a waiting receiver, is collected intact. */
  lemma Loopback(rx: RxState, d: seq<Byte>, n: Byte, cap: nat)
    requires RxValid(rx) && rx.st in {AguardaStx, Erro}
    requires n <= |d| && n <= TamMax && n <= cap
    ensures var c := RxPegarDados(FeedAll(rx, Flush(TxSolicitar(d, n)).bytes), cap);
      c.payload == d[..n] && c.rx.st == AguardaStx
  {
    SessionFrame(d, n);
    RoundTrip(rx, d[..n]);
  }
}
