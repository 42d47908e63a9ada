/**
 * The test functions at the end of FSM_Switch/main.c as methods: each builds
 * the same objects, feeds them the same bytes and promises, in its
 * postcondition, what the C test checks with its ASSERT macros.
 */
module XorFramingTests {
  import opened Common
  import opened XorFraming
  import opened XorMachines

  /** The checksums of the payloads the tests use, worked out byte by byte. */
  lemma ChkA1B2()
    ensures ChkXor(2, [0xA1, 0xB2]) == 0x13
  {
    assert Xor(STX, 2) == 0;
    assert Xor(0, 0xA1) == 0xA1;
    assert Xor(0xA1, 0xB2) == 0x13;
    assert [0xA1, 0xB2][..1] == [0xA1] && [0xA1][..0] == [];
  }

  lemma Chk414243()
    ensures ChkXor(3, [0x41, 0x42, 0x43]) == 0x41
  {
    assert Xor(STX, 3) == 1;
    assert Xor(1, 0x41) == 0x40;
    assert Xor(0x40, 0x42) == 0x02;
    assert Xor(0x02, 0x43) == 0x41;
    assert [0x41, 0x42, 0x43][..2] == [0x41, 0x42];
    assert [0x41, 0x42][..1] == [0x41] && [0x41][..0] == [];
  }

  lemma QuadroCompletoFrame()
    ensures Frame([0xA1, 0xB2]) == [STX, 2, 0xA1, 0xB2, 0x13, ETX]
  {
    ChkA1B2();
  }

  lemma LoopbackFrame()
    ensures Frame([0x41, 0x42, 0x43]) == [STX, 3, 0x41, 0x42, 0x43, 0x41, ETX]
  {
    Chk414243();
  }

  /** The tests' loop `for (i = 0; i < sizeof(quadro); ++i) rx_entrada(&rx, quadro[i]);`. */
  method Alimentar(rx: Receiver, quadro: seq<Byte>)
    requires rx.Valid()
    modifies rx, rx.dados
    ensures rx.Valid() && rx.State() == FeedAll(old(rx.State()), quadro)
  {
    ghost var s0 := rx.State();
    var i := 0;
    while i < |quadro|
      invariant i <= |quadro|
      invariant rx.Valid() && rx.State() == FeedAll(s0, quadro[..i])
    {
      FeedAllAppend(s0, quadro[..i], [quadro[i]]);
      FeedOne(FeedAll(s0, quadro[..i]), quadro[i]);
      assert quadro[..i + 1] == quadro[..i] + [quadro[i]];
      rx.Entrada(quadro[i]);
      i := i + 1;
    }
    assert quadro[..i] == quadro;
  }

  /** teste_tx_quadro_completo: payload A1 B2 goes out as 02 02 A1 B2 13 03. */
  method TesteTxQuadroCompleto() returns (n: nat, quadro: seq<Byte>, chk: Byte)
    ensures chk == 0x13
    ensures n == 6 && quadro == [STX, 2, 0xA1, 0xB2, chk, ETX]
  {
    var dados: seq<Byte> := [0xA1, 0xB2];
    var buf := new Byte[64];
    var tx := new Transmitter();
    tx.Solicitar(dados, 2);
    SessionFrame(dados, 2);
    n := tx.EmitirTudo(buf, 64);
    quadro := buf[..n];
    assert dados[..2] == dados;
    assert quadro == Frame(dados);
    QuadroCompletoFrame();
    chk := ProtoChkXor(STX, 2, dados);
    ChkA1B2();
  }

  /** teste_rx_valido: the frame of 11 22 33 is received and collected intact. */
  method TesteRxValido() returns (pronto: bool, tam: nat, payload: seq<Byte>)
    ensures pronto && tam == 3 && payload == [0x11, 0x22, 0x33]
  {
    var dados: seq<Byte> := [0x11, 0x22, 0x33];
    var chk := ProtoChkXor(STX, 3, dados);
    assert dados[..3] == dados;
    var quadro := [STX, 3, 0x11, 0x22, 0x33, chk, ETX];
    assert quadro == Frame(dados);
    var rx := new Receiver();
    RoundTrip(rx.State(), dados);
    Alimentar(rx, quadro);
    pronto := rx.quadroPronto;
    var out := new Byte[8];
    tam := rx.PegarDados(out, 8);
    payload := out[..tam];
  }

  /** teste_rx_chk_incorreto: a CHK with every bit flipped leaves the receiver in RX_ERRO, nothing ready. */
  method TesteRxChkIncorreto() returns (pronto: bool, st: RxPhase)
    ensures !pronto && st == Erro
  {
    var dados: seq<Byte> := [0x01, 0x02];
    var chk := ProtoChkXor(STX, 2, dados);
    assert dados[..2] == dados;
    var ruim := Xor(chk, 0xFF);
    XorCancel(chk, 0xFF, 0);
    XorAlgebra(chk, 0, 0);
    var quadro := [STX, 2, 0x01, 0x02, ruim, ETX];
    assert quadro == Head(|dados|) + dados + [ruim, ETX];
    var rx := new Receiver();
    BadChecksum(rx.State(), dados, ruim, ETX);
    Alimentar(rx, quadro);
    pronto, st := rx.quadroPronto, rx.st;
  }

  /** teste_rx_etx_incorreto: a frame ending in 0x99 instead of ETX leaves the receiver in RX_ERRO. */
  method TesteRxEtxIncorreto() returns (pronto: bool, st: RxPhase)
    ensures !pronto && st == Erro
  {
    var dados: seq<Byte> := [0x77];
    var chk := ProtoChkXor(STX, 1, dados);
    assert dados[..1] == dados;
    var quadro := [STX, 1, 0x77, chk, 0x99];
    assert quadro == Head(|dados|) + dados + [ChkXor(|dados|, dados), 0x99];
    var rx := new Receiver();
    BadEnd(rx.State(), dados, 0x99);
    Alimentar(rx, quadro);
    pronto, st := rx.quadroPronto, rx.st;
  }

  /** teste_rx_tam_invalido: a length byte of PROTO_TAM_MAX + 1 sends the receiver to RX_ERRO. */
  method TesteRxTamInvalido() returns (st: RxPhase)
    ensures st == Erro
  {
    var quadro: seq<Byte> := [STX, TamMax + 1, 0x00];
    var rx := new Receiver();
    ghost var s0 := rx.State();
    LengthTooLong(s0, TamMax + 1);
    assert quadro == [STX, TamMax + 1] + [0x00];
    FeedAllAppend(s0, [STX, TamMax + 1], [0x00]);
    RxIgnoresNoise(FeedAll(s0, [STX, TamMax + 1]), [0x00]);
    Alimentar(rx, quadro);
    st := rx.st;
  }

  /** teste_loopback_tx_rx: what the transmitter emits for 41 42 43 is received and collected intact. */
  method TesteLoopbackTxRx() returns (quadro: seq<Byte>, pronto: bool, tam: nat, payload: seq<Byte>)
    ensures quadro == [STX, 3, 0x41, 0x42, 0x43, 0x41, ETX]
    ensures pronto && tam == 3 && payload == [0x41, 0x42, 0x43]
  {
    var dados: seq<Byte> := [0x41, 0x42, 0x43];
    var tx := new Transmitter();
    tx.Solicitar(dados, 3);
    SessionFrame(dados, 3);
    assert dados[..3] == dados;
    var buf := new Byte[64];
    var n := tx.EmitirTudo(buf, 64);
    quadro := buf[..n];
    assert quadro == Frame(dados);
    LoopbackFrame();
    var rx := new Receiver();
    RoundTrip(rx.State(), dados);
    Alimentar(rx, quadro);
    pronto := rx.quadroPronto;
    var out := new Byte[8];
    tam := rx.PegarDados(out, 8);
    payload := out[..tam];
  }
}
