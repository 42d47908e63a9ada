/**
 * The XOR variant's tx_t and rx_t as objects whose methods update their
 * fields in place, each method specified by the step function of
 * module XorFraming that it carries out.
 */
module XorMachines {
  import opened Common
  import opened XorFraming

  function Min(a: nat, b: nat): nat {
    if a <= b then a else b
  }

  /** A transmitter session: the fields of tx_t. */
  class Transmitter {
    var st: TxPhase
    var dados: seq<Byte>
    var tam: Byte
    var idx: Byte
    var chk: Byte

    function State(): TxState
      reads this
    {
      TxState(st, dados, tam, idx, chk)
    }

    predicate Valid()
      reads this
    {
      TxValid(State())
    }

    /** A tx_t declared and passed to tx_iniciar. */
    constructor ()
      ensures Valid() && State() == TxIniciar()
    {
      st, dados, tam, idx, chk := Aguarda, [], 0, 0, 0;
    }

    /** tx_iniciar. */
    method Iniciar()
      modifies this
      ensures Valid() && State() == TxIniciar()
    {
      st, dados, tam, idx, chk := Aguarda, [], 0, 0, 0;
    }

    /** tx_solicitar: `d` is what the caller's buffer holds, `t` how many of its bytes to send. */
    method Solicitar(d: seq<Byte>, t: Byte)
      requires t <= |d|
      modifies this
      ensures Valid() && State() == TxSolicitar(d, t)
    {
      dados := d;
      tam := t;
      idx := 0;
      chk := Xor(STX, t);
      st := EnviaStx;
    }

    /** tx_passo: `out` is the byte written to *out when the C function returns 1. */
    method Passo(pronto: bool) returns (out: Option<Byte>)
      requires Valid()
      modifies this
      ensures Valid() && TxStep(State(), out) == TxPasso(old(State()), pronto)
    {
      if !pronto {
        return None;
      }
      match st
      case Aguarda =>
        out := None;
      case EnviaStx =>
        out := Some(STX);
        st := EnviaTam;
      case EnviaTam =>
        out := Some(tam);
        st := if tam == 0 then EnviaChk else EnviaDados;
      case EnviaDados =>
        if idx < tam {
          var b := dados[idx];
          idx := idx + 1;
          out := Some(b);
          chk := Xor(chk, b);
          if idx >= tam {
            st := EnviaChk;
          }
        } else {
          st := EnviaChk;
          out := None;
        }
      case EnviaChk =>
        out := Some(chk);
        st := EnviaEtx;
      case EnviaEtx =>
        out := Some(ETX);
        st := Fim;
      case Fim =>
        st := Aguarda;
        out := None;
    }

    /**
     * tx_emitir_tudo: steps with the line ready until a step yields nothing in
     * TX_AGUARDA, storing the first `cap` bytes in `outBuf`.  The 4096-step
     * guard is never what stops it: a valid session needs at most 261 steps.
     */
    method EmitirTudo(outBuf: array<Byte>, cap: nat) returns (n: nat)
      requires Valid() && cap <= outBuf.Length
      modifies this, outBuf
      ensures Valid()
      ensures var f := Flush(old(State()));
        State() == f.last && n == Min(cap, |f.bytes|) &&
        forall i :: 0 <= i < n ==> outBuf[i] == f.bytes[i]
      ensures forall i :: n <= i < outBuf.Length ==> outBuf[i] == old(outBuf[i])
    {
      ghost var s0 := State();
      ghost var sent: seq<Byte> := [];
      StepsLeftBound(s0);
      n := 0;
      var guard := 0;
      while guard < 4096
        invariant Valid()
        invariant sent + Flush(State()).bytes == Flush(s0).bytes
        invariant Flush(State()).last == Flush(s0).last
        invariant n == Min(cap, |sent|)
        invariant forall i :: 0 <= i < n ==> outBuf[i] == sent[i]
        invariant forall i :: n <= i < outBuf.Length ==> outBuf[i] == old(outBuf[i])
        invariant guard + StepsLeft(State()) <= StepsLeft(s0) <= 261
        decreases 4096 - guard
      {
        if st != Aguarda {
          FlushStep(State());
        }
        var b := Passo(true);
        if b.Some? {
          if n < cap {
            outBuf[n] := b.value;
            n := n + 1;
          }
          sent := sent + [b.value];
        } else if st == Aguarda {
          break;
        }
        guard := guard + 1;
      }
      assert Flush(State()).bytes == [];
    }
  }

  /** A receiver: the fields of rx_t; `dados` is its fixed PROTO_TAM_MAX-byte payload buffer. */
  class Receiver {
    var st: RxPhase
    const dados: array<Byte>
    var tam: Byte
    var idx: Byte
    var chkXor: Byte
    var quadroPronto: bool

    function State(): RxState
      reads this, dados
    {
      RxState(st, dados[..], tam, idx, chkXor, quadroPronto)
    }

    predicate Valid()
      reads this, dados
    {
      RxValid(State())
    }

    /** An rx_t declared and passed to rx_iniciar; the buffer's initial contents are zero. */
    constructor ()
      ensures Valid() && State() == RxIniciar(seq(TamMax, _ => 0)) && fresh(dados)
    {
      st, tam, idx, chkXor, quadroPronto := AguardaStx, 0, 0, 0, false;
      dados := new Byte[TamMax](_ => 0);
    }

    /** rx_iniciar: the payload buffer is left as it is. */
    method Iniciar()
      requires Valid()
      modifies this
      ensures Valid() && State() == RxIniciar(old(dados[..]))
    {
      st, tam, idx, chkXor, quadroPronto := AguardaStx, 0, 0, 0, false;
    }

    /** rx_entrada. */
    method Entrada(byte: Byte)
      requires Valid()
      modifies this, dados
      ensures Valid() && State() == RxEntrada(old(State()), byte)
    {
      match st
      case AguardaStx =>
        if byte == STX {
          st := LeTam;
        }
      case LeTam =>
        tam := byte;
        idx := 0;
        if tam > TamMax {
          st := Erro;
        } else {
          chkXor := Xor(STX, tam);
          st := if tam == 0 then LeChk else LeDados;
        }
      case LeDados =>
        if idx < tam {
          dados[idx] := byte;
          idx := idx + 1;
          chkXor := Xor(chkXor, byte);
          if idx >= tam {
            st := LeChk;
          }
        } else {
          st := Erro;
        }
      case LeChk =>
        st := if byte == chkXor then LeEtx else Erro;
      case LeEtx =>
        if byte == ETX {
          st := RxOk;
          quadroPronto := true;
        } else {
          st := Erro;
        }
      case RxOk =>
      case Erro =>
        if byte == STX {
          st := LeTam;
        }
    }

    /**
     * rx_pegar_dados: copies a ready payload into `out` (of capacity `cap`),
     * resets the machine and returns its length; returns 0 otherwise.
     */
    method PegarDados(out: array<Byte>, cap: nat) returns (n: nat)
      requires Valid() && out != dados && cap <= out.Length
      modifies this, out
      ensures Valid()
      ensures var c := RxPegarDados(old(State()), cap);
        State() == c.rx && n == |c.payload| && out[..n] == c.payload
      ensures out[n..] == old(out[n..])
    {
      if !quadroPronto {
        return 0;
      }
      if cap < tam {
        return 0;
      }
      var i := 0;
      while i < tam
        invariant i <= tam <= out.Length
        invariant Valid() && State() == old(State())
        invariant out[..i] == dados[..i]
        invariant out[i..] == old(out[i..])
      {
        out[i] := dados[i];
        i := i + 1;
      }
      n := tam;
      Iniciar();
    }
  }
}
