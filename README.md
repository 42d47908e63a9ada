# Verified model of three byte-framing state machines

The repository is a set of small C exercises. All of them frame a payload as
`STX | LEN | DATA[LEN] | CHK | ETX`, with `STX = 0x02` and `ETX = 0x03`, and
pass it byte by byte through hand-written state machines. There are three
variants. Their checksums are incompatible, so each is its own group of
modules:

- **XOR variant** (`FSM_Switch/main.c`).
  - CHK is `STX ^ LEN ^ DATA[0] ^ … ^ DATA[LEN-1]`.
  - The transmitter `tx_t` emits one byte per ready step.
  - The receiver `rx_t` rejects a length above `PROTO_TAM_MAX = 200` and checks CHK as soon as it arrives.
  - The receiver parks in `RX_ERRO` until the next STX, and holds a good frame in `RX_OK` until `rx_pegar_dados` collects it.
  - Modules: `XorFraming` (pure model and proofs), `XorMachines` (the structs as classes updated in place) and `XorFramingTests` (the file's test functions).
- **Additive variant** (`FSM_Switch2/main.c`).
  - CHK is `(LEN + ΣDATA) mod 256`.
  - `rx_feed` answers every byte with in-progress, OK or error, rejects `LEN == 0` and checks CHK only once ETX arrives.
  - After every OK or error it is back in `RX_WAIT_STX`, and on OK it copies the payload out.
  - Modules: `SumFraming`, `SumMachines` and `SumFramingTests`. The last one holds `roundtrip_test` with its corruption hooks, and `main`'s four tests.
- **Reliability layer** (`PROTOTHREADS_UFSM/main.c`).
  - Two cooperative protothreads share a one-byte channel and a one-byte ACK slot, and a tick counter advances once per scheduler pass.
  - The transmitter sends `HELLO` with a deliberately wrong CHK on attempt 1. It waits 5 ticks for an ACK and resends.
  - The receiver acknowledges a frame with a correct data-only checksum.
  - Modules:
    - `ReliableLink`: each thread is a program counter, one per `PT_WAIT_UNTIL`, plus its statics; one function per resumption; the scheduler pass.
    - `ReliableLinkRun`: the run of `main`, proved pass by pass.
    - `ReliableLinkProgram`: the program's storage as a class, whose methods update the globals in place.

`Common` holds what the three variants share: the byte type, an integer in
0..255, the wire constants `STX` and `ETX`, the two-byte frame head
`STX, LEN`, and `Option`. Each variant defines its own checksum. Every
imperative method is specified by the pure step function it carries out, and
the protocol's properties are proved about those functions.

## Model

| member | source | states |
|---|---|---|
| XorFraming.XorAlgebra | FSM_Switch/main.c:12-16 | byte XOR is associative and commutative, `a ^ a == 0`, and 0 is its identity |
| XorFraming.XorCancel | FSM_Switch/main.c:12-16 | XOR-ing the same byte in is injective: `a ^ x == a ^ y` iff `x == y` |
| XorFraming.AccInjective | FSM_Switch/main.c:12-16 | running XORs over the same bytes from different seeds never coincide |
| XorFraming.ChkDetectsByteChange | FSM_Switch/main.c:12-16 | changing any one payload byte changes CHK |
| XorFraming.ChkDetectsLengthChange | FSM_Switch/main.c:12-16 | a different length byte gives a different CHK for the same payload |
| XorFraming.ChkFormula | FSM_Switch/main.c:12-16 | the accumulator seeded with `stx ^ tam` equals `stx ^ XOR(tam, d…)` |
| XorFraming.ProtoChkXor | FSM_Switch/main.c:12-16 | the loop returns `stx ^ tam ^ d[0] ^ … ^ d[tam-1]`, which is the frame's CHK when `stx` is STX |
| XorFraming.FrameCancels | FSM_Switch/main.c:12-16 | the XOR of every frame byte before ETX is 0: CHK cancels STX, LEN and the payload |
| XorFraming.TxIniciar | FSM_Switch/main.c:37-43 | the reset transmitter is idle (`TX_AGUARDA`) and satisfies the invariant |
| XorFraming.TxSolicitar | FSM_Switch/main.c:45-51 | a requested session starts at `TX_ENVIA_STX` with idx 0 and chk seeded to `STX ^ tam`, i.e. CHK of the empty prefix |
| XorFraming.TxPasso | FSM_Switch/main.c:54-97 | with the line not ready, or when idle, a step returns nothing and changes nothing; otherwise it strictly decreases the steps left; payload and length never change |
| XorFraming.TxPassoKeepsChk | FSM_Switch/main.c:70-76 | a data step keeps chk equal to CHK of the bytes sent so far (seeded at line 49, XOR-ed at line 74) |
| XorFraming.Flush | FSM_Switch/main.c:100-111 | stepping with the line ready ends idle, having emitted at most as many bytes as steps left |
| XorFraming.FlushStep | FSM_Switch/main.c:103-108 | a produced byte is the first of what the session still emits |
| XorFraming.StepsLeftBound | FSM_Switch/main.c:103 | a valid session is idle within 261 steps, so the 4096-step guard never stops `tx_emitir_tudo` |
| XorFraming.DataPhase | FSM_Switch/main.c:70-90 | from the data phase the session emits the remaining payload bytes, then the full CHK, then ETX |
| XorFraming.TailPhase | FSM_Switch/main.c:82-94 | from `TX_ENVIA_CHK` the session emits chk then ETX, then goes idle through `TX_FIM` |
| XorFraming.SessionFrame | FSM_Switch/main.c:45-97 | after `tx_solicitar(d, n)` the ready steps emit exactly `STX, n, d[0..n), CHK, ETX`, skipping the data phase when n == 0 |
| XorFraming.RxIniciar | FSM_Switch/main.c:133-139 | a reset receiver waits for STX, its payload buffer untouched |
| XorFraming.RxEntrada | FSM_Switch/main.c:142-193 | `RX_OK` is reached exactly by ETX in `RX_LE_ETX` and then kept; at CHK it continues iff the byte equals chk_xor; STX in `RX_AGUARDA_STX`/`RX_ERRO` starts a frame; the invariant is kept |
| XorFraming.RxReachableKept | FSM_Switch/main.c:142-193 | one `rx_entrada` keeps `idx < tam ≤ 200` in `RX_LE_DADOS`, and from `RX_LE_DADOS` it only goes on with data or to CHK, never to the overflow branch at lines 163-164 |
| XorFraming.RxReachableFeed | FSM_Switch/main.c:142-193 | any sequence of `rx_entrada` calls keeps that invariant |
| XorFraming.RxReachableFromReset | FSM_Switch/main.c:133-193 | every receiver reached from `rx_iniciar` by any bytes has `idx < tam ≤ 200` in `RX_LE_DADOS`, so the write `dados[idx++]` is always in bounds |
| XorFraming.FeedAll | FSM_Switch/main.c:246 | feeding a byte sequence keeps the receiver invariant |
| XorFraming.RxDataPhase | FSM_Switch/main.c:158-166 | the data bytes are stored in order, and the machine then reads CHK |
| XorFraming.FeedHead | FSM_Switch/main.c:144-156 | STX then LEN ≤ 200 enters the data phase (or CHK for 0) with chk_xor = `STX ^ LEN` |
| XorFraming.FeedPayload | FSM_Switch/main.c:158-166 | after the payload the buffer holds it, and chk_xor is its CHK |
| XorFraming.RxHeaderAndPayload | FSM_Switch/main.c:144-166 | STX, LEN and the payload leave the receiver at CHK with the payload stored and the matching chk_xor |
| XorFraming.RoundTrip | FSM_Switch/main.c:142-193 | a frame of any payload of at most 200 bytes ends in `RX_OK`, flagged ready, with the payload stored |
| XorFraming.RxIgnoresNoise | FSM_Switch/main.c:144-148 | in `RX_AGUARDA_STX` or `RX_ERRO`, bytes other than STX leave the whole state unchanged |
| XorFraming.RxOkHolds | FSM_Switch/main.c:185-187 | `RX_OK` ignores every byte |
| XorFraming.NoiseThenFrame | FSM_Switch/main.c:144-191 | garbage without STX before a frame does not prevent its reception |
| XorFraming.WrongChk | FSM_Switch/main.c:168-174 | a CHK byte other than chk_xor leads to `RX_ERRO`, which a following non-STX byte does not leave |
| XorFraming.BadChecksum | FSM_Switch/main.c:168-174 | a frame with a wrong CHK ends in `RX_ERRO`, not ready |
| XorFraming.AfterChk | FSM_Switch/main.c:176-183 | a correct CHK followed by a byte other than ETX leads to `RX_ERRO` |
| XorFraming.BadEnd | FSM_Switch/main.c:176-183 | a frame with the right CHK but a wrong end byte ends in `RX_ERRO`, not ready |
| XorFraming.LengthTooLong | FSM_Switch/main.c:150-153 | a declared length above 200 goes to `RX_ERRO` with no data stored: the payload buffer is unchanged and no frame is flagged ready |
| XorFraming.CorruptedPayload | FSM_Switch/main.c:158-174 | changing any one payload byte of a frame makes the receiver end in `RX_ERRO` |
| XorFraming.RxPegarDados | FSM_Switch/main.c:196-203 | with a ready frame and `cap ≥ tam` it yields exactly the payload and resets; otherwise it yields nothing and changes nothing |
| XorFraming.Loopback | FSM_Switch/main.c:289-304 | everything a session of n ≤ 200 bytes emits, fed to a waiting receiver and collected with `cap ≥ n`, is exactly the payload, and the receiver is reset |
| XorMachines.Transmitter.constructor | FSM_Switch/main.c:37-43 | a new transmitter is in the `tx_iniciar` state |
| XorMachines.Transmitter.Iniciar | FSM_Switch/main.c:37-43 | the fields become the `tx_iniciar` state |
| XorMachines.Transmitter.Solicitar | FSM_Switch/main.c:45-51 | the fields become the `tx_solicitar` state |
| XorMachines.Transmitter.Passo | FSM_Switch/main.c:54-97 | the new fields and the byte written are those of `TxPasso` |
| XorMachines.Transmitter.EmitirTudo | FSM_Switch/main.c:100-111 | it returns `min(cap, bytes the session emits)`, stores exactly those first bytes, leaves the rest of `out_buf` alone and ends idle |
| XorMachines.Receiver.constructor | FSM_Switch/main.c:124-139 | a new receiver is reset, with a zeroed 200-byte buffer |
| XorMachines.Receiver.Iniciar | FSM_Switch/main.c:133-139 | the fields become the `rx_iniciar` state, and the buffer is kept |
| XorMachines.Receiver.Entrada | FSM_Switch/main.c:142-193 | the new fields and buffer are those of `RxEntrada` |
| XorMachines.Receiver.PegarDados | FSM_Switch/main.c:196-203 | copies exactly `RxPegarDados`'s payload into `out`, returns its length, leaves `out` beyond it alone, and takes the new state |
| XorFramingTests.ChkA1B2 | FSM_Switch/main.c:221-228 | CHK of payload A1 B2 is 0x13 |
| XorFramingTests.Chk414243 | FSM_Switch/main.c:291 | CHK of payload 41 42 43 is 0x41 |
| XorFramingTests.QuadroCompletoFrame | FSM_Switch/main.c:219-237 | the frame of A1 B2 is 02 02 A1 B2 13 03 |
| XorFramingTests.LoopbackFrame | FSM_Switch/main.c:289-295 | the frame of 41 42 43 is 02 03 41 42 43 41 03 |
| XorFramingTests.Alimentar | FSM_Switch/main.c:246 | the tests' feeding loop leaves the receiver in the `FeedAll` state |
| XorFramingTests.TesteTxQuadroCompleto | FSM_Switch/main.c:219-237 | `tx_emitir_tudo` returns 6 and the frame 02 02 A1 B2 13 03, and `proto_chk_xor` of the payload is 0x13, the CHK byte sent |
| XorFramingTests.TesteRxValido | FSM_Switch/main.c:239-252 | the receiver is ready and hands back 3 bytes, 11 22 33 |
| XorFramingTests.TesteRxChkIncorreto | FSM_Switch/main.c:254-265 | a frame with CHK ^ 0xFF is not ready and ends in `RX_ERRO` |
| XorFramingTests.TesteRxEtxIncorreto | FSM_Switch/main.c:267-278 | a frame ending in 0x99 is not ready and ends in `RX_ERRO` |
| XorFramingTests.TesteRxTamInvalido | FSM_Switch/main.c:280-287 | length 201 ends in `RX_ERRO` |
| XorFramingTests.TesteLoopbackTxRx | FSM_Switch/main.c:289-304 | the transmitter's frame is 02 03 41 42 43 41 03, and the receiver is ready and hands back 41 42 43 |
| SumFraming.SumBound | FSM_Switch2/main.c:10-14 | the sum of n bytes is at most 255·n |
| SumFraming.SumAppend | FSM_Switch2/main.c:12 | the sum of a concatenation is the sum of the sums |
| SumFraming.SumUpdate | FSM_Switch2/main.c:12 | replacing one byte changes the sum by the difference |
| SumFraming.ChecksumNoWrap | FSM_Switch2/main.c:11-12 | `len + Σdata[..len]` stays below 2^16, so the `uint16_t` accumulator never wraps |
| SumFraming.ChecksumDetectsByteChange | FSM_Switch2/main.c:10-14 | changing any one counted byte changes the checksum |
| SumFraming.ChecksumMissesSwap | FSM_Switch2/main.c:10-14 | swapping two payload bytes never changes the checksum |
| SumFraming.CalcChecksum | FSM_Switch2/main.c:10-14 | the 16-bit loop returns `(len + Σdata[..len]) mod 256` |
| SumFraming.Frame | FSM_Switch2/main.c:126-154 | a frame is 4 bytes longer than its payload |
| SumFraming.RxInit | FSM_Switch2/main.c:39-44 | a reset receiver waits for STX, its buffer untouched |
| SumFraming.RxFeedStep | FSM_Switch2/main.c:46-97 | OK exactly on ETX in `RX_WAIT_ETX` with a matching checksum, with the stored payload; error exactly on LEN 0 or a bad end or checksum; every OK or error resets; the invariant `1 ≤ len`, `idx < len ≤ 255` in `RX_READ_DATA` is kept |
| SumFraming.Run | FSM_Switch2/main.c:176-186 | feeding bytes one by one keeps the invariant and answers each byte |
| SumFraming.RunAppend | FSM_Switch2/main.c:176-186 | feeding a + b is feeding a, then b |
| SumFraming.Pending | FSM_Switch2/main.c:55 | k in-progress answers |
| SumFraming.RxIgnoresNoise | FSM_Switch2/main.c:48-55 | in `RX_WAIT_STX` bytes other than STX answer in-progress and change nothing |
| SumFraming.RxDataPhase | FSM_Switch2/main.c:66-71 | the data bytes are stored in order, answered in-progress, and the machine then reads CHK |
| SumFraming.RxHeaderAndPayload | FSM_Switch2/main.c:48-71 | STX, LEN ≥ 1 and the payload leave the receiver at CHK with the payload stored, after n + 2 in-progress answers |
| SumFraming.RxHead | FSM_Switch2/main.c:48-64 | STX then LEN ≥ 1 enters the data phase with idx 0 |
| SumFraming.RxTail | FSM_Switch2/main.c:73-93 | CHK then an end byte: in progress, then OK with the payload iff the end byte is ETX and the checksum matches, else error; reset either way |
| SumFraming.RxFrameShaped | FSM_Switch2/main.c:46-97 | any byte sequence shaped like a frame gives n + 3 in-progress answers, then OK with the payload or error |
| SumFraming.RoundTrip | FSM_Switch2/main.c:46-97 | a frame of 1..255 bytes answers in-progress n + 3 times, then OK with exactly the payload, and the receiver is reset |
| SumFraming.BadChecksum | FSM_Switch2/main.c:83-91 | a wrong CHK is answered with error at the end byte and never OK |
| SumFraming.BadEnd | FSM_Switch2/main.c:79-81 | an end byte other than ETX is answered with error and never OK |
| SumFraming.EmptyLengthRejected | FSM_Switch2/main.c:59-62 | LEN 0 is answered with error, and the receiver resets |
| SumFraming.CorruptedPayload | FSM_Switch2/main.c:66-93 | changing any one payload byte of a frame ends in error, never OK |
| SumFraming.TxIdle | FSM_Switch2/main.c:166 | the zero-initialised transmitter is idle |
| SumFraming.TxStart | FSM_Switch2/main.c:118-124 | a started session is at `TX_SEND_STX` with the precomputed checksum |
| SumFraming.TxNext | FSM_Switch2/main.c:126-154 | no byte exactly in `TX_IDLE` and `TX_DONE`, and then nothing changes; each byte brings the session one step closer to done |
| SumFraming.Emitted | FSM_Switch2/main.c:176 | a session emits one byte per step left |
| SumFraming.Drained | FSM_Switch2/main.c:176 | after a session only "no byte" answers remain |
| SumFraming.TxNextFrame | FSM_Switch2/main.c:130-149 | each byte out is the frame byte at the session's position, which then advances by one |
| SumFraming.SessionFrame | FSM_Switch2/main.c:118-154 | after `tx_start(d, n)` the bytes out are exactly `STX, n, d[0..n), calc_checksum(n, d), ETX`, and it ends in `TX_DONE` |
| SumFraming.EmittedFrom | FSM_Switch2/main.c:126-154 | what a session still emits is the rest of its frame |
| SumFraming.DrainedDone | FSM_Switch2/main.c:150-151 | a drained session is in `TX_DONE` |
| SumFraming.Loopback | FSM_Switch2/main.c:165-186 | the transmitter's output for 1 ≤ n, fed to a waiting receiver, answers in-progress n + 3 times and then OK with `d[0..n)` |
| SumMachines.Receiver.constructor | FSM_Switch2/main.c:167 | a new receiver is reset, with a zeroed 255-byte buffer |
| SumMachines.Receiver.Init | FSM_Switch2/main.c:39-44 | the fields become the `rx_init` state, and the buffer is kept |
| SumMachines.Receiver.Feed | FSM_Switch2/main.c:46-97 | new state and answer are `RxFeedStep`'s; on OK `out_buf` starts with the payload and is otherwise untouched; on in-progress or error `out_buf` is untouched |
| SumMachines.Transmitter.constructor | FSM_Switch2/main.c:166 | a new transmitter is idle |
| SumMachines.Transmitter.Start | FSM_Switch2/main.c:118-124 | the fields become the `tx_start` state |
| SumMachines.Transmitter.Next | FSM_Switch2/main.c:126-154 | the new fields and the byte out are `TxNext`'s |
| SumFramingTests.Flip | FSM_Switch2/main.c:179 | `byte ^= 0xFF` always changes the byte (to `0xFF - byte`) |
| SumFramingTests.Hooked | FSM_Switch2/main.c:176-182 | the hooked stream has one byte per transmitter step |
| SumFramingTests.HookPos | FSM_Switch2/main.c:177-182 | each hooked byte is the tampered frame's byte at the session's position |
| SumFramingTests.HookedFrom | FSM_Switch2/main.c:176-182 | from any point of a session, the hooked stream is the rest of the tampered frame |
| SumFramingTests.HookedSession | FSM_Switch2/main.c:173-186 | the whole hooked stream is the frame with the hook's one change applied |
| SumFramingTests.Record | FSM_Switch2/main.c:183-185 | got_ok/got_err latch OK/error; OK stores the payload and its length, anything else leaves them |
| SumFramingTests.Session | FSM_Switch2/main.c:176-186 | the loop's flags, once set, stay set |
| SumFramingTests.SessionLast | FSM_Switch2/main.c:176-186 | when only the last answer is not in-progress, the loop's outcome is that answer recorded |
| SumFramingTests.FrameAt | FSM_Switch2/main.c:130-149 | the last payload byte, CHK and ETX sit at positions n+1, n+2, n+3 of the frame |
| SumFramingTests.NominalPasses | FSM_Switch2/main.c:188-190 | with no corruption and 1 ≤ len, the test passes: OK, no error, length and contents delivered |
| SumFramingTests.AsWrittenMode1Passes | FSM_Switch2/main.c:177-179 | mode 1 as written flips the last payload byte, not CHK, and the test still passes |
| SumFramingTests.AsWrittenMode2 | FSM_Switch2/main.c:180-182 | for 1 ≤ len, mode 2 as written zeroes CHK, not ETX; the test passes iff the checksum is nonzero, and with checksum 0 the frame is accepted |
| SumFramingTests.Mode2MissedOnZeroChecksum | FSM_Switch2/main.c:180-192 | payload FF, length 1: checksum 0, the corrupted frame is accepted, and the test fails |
| SumFramingTests.IntendedHooksDetected | FSM_Switch2/main.c:177-192 | hooks that look before the step corrupt CHK (mode 1) or ETX (mode 2), and the test passes for every payload, the empty one included |
| SumFramingTests.EmptyFrameRejected | FSM_Switch2/main.c:48-62 | after STX and LEN 0, whatever two non-STX bytes follow, the loop records RX_ERROR and never RX_OK |
| SumFramingTests.Deliver | FSM_Switch2/main.c:183-185 | one loop body: the receiver takes `RxFeedStep`'s state, and the flags and delivered buffer are updated as `Record` says |
| SumFramingTests.RoundtripTest | FSM_Switch2/main.c:165-194 | the verdict is exactly the one the pure session model gives for that payload, mode and hook timing |
| SumFramingTests.UfsmPasses | FSM_Switch2/main.c:197-198 | the "UFSM" nominal test passes |
| SumFramingTests.TenPasses | FSM_Switch2/main.c:200-201 | the 10-byte nominal test passes |
| SumFramingTests.CheckPasses | FSM_Switch2/main.c:203-204 | the "CHECK" mode-1 test passes |
| SumFramingTests.EtxPasses | FSM_Switch2/main.c:206-207 | the "ETX" mode-2 test passes |
| SumFramingTests.EtxChecksum | FSM_Switch2/main.c:206-207 | the checksum of "ETX" is 0xF4, nonzero, which is why the as-written mode 2 still passes |
| SumFramingTests.RunAll | FSM_Switch2/main.c:196-211 | all four tests pass: 4 passed, 0 failed |
| ReliableLink.TestData | PROTOTHREADS_UFSM/main.c:29-30 | test_data is the 5 bytes "HELLO" |
| ReliableLink.Sum8IsSumMod | PROTOTHREADS_UFSM/main.c:77-80 | summing into an `unsigned char` with wrap-around is the sum mod 256 |
| ReliableLink.HelloChecksum | PROTOTHREADS_UFSM/main.c:77-80 | the checksum of "HELLO" is 0x74 |
| ReliableLink.AckReceived | PROTOTHREADS_UFSM/main.c:55-61 | true iff the ACK flag is set with byte ACK, in which case the flag is cleared; otherwise nothing changes |
| ReliableLink.PacketChkWrongOnlyFirst | PROTOTHREADS_UFSM/main.c:82-86 | the CHK byte sent equals the checksum iff the attempt is not the first |
| ReliableLink.TxAttempt | PROTOTHREADS_UFSM/main.c:75-86 | each attempt counts one more, sums test_data, picks CHK for that attempt and goes to send STX |
| ReliableLink.TxResume | PROTOTHREADS_UFSM/main.c:71-123 | the channel is written only when empty and left full; the ACK slot is only consumed, at the ACK wait; the thread ends iff an ACK came before expiry, and then success is 1; at the ACK wait it restarts the attempt iff the timer has expired, even when an ACK was consumed in the same test (lines 118-120) |
| ReliableLink.AckWaitTimeout | PROTOTHREADS_UFSM/main.c:117-120 | with no ACK pending, the ACK wait blocks exactly while `ticks < start + interval`, and otherwise starts the next attempt with the shared state untouched |
| ReliableLink.TxInvoke | PROTOTHREADS_UFSM/main.c:64-124 | a call keeps the invariant and leaves the clock and ACK byte alone |
| ReliableLink.RxOnByte | PROTOTHREADS_UFSM/main.c:139-181 | ACK is due iff ETX arrives at the end wait with sum == CHK, which ends the thread with success_count + 1; a non-STX byte at the STX wait only updates `byte`; a rejected end goes back to wait for STX; `last_message` stays 256 bytes with the data index in bounds |
| ReliableLink.RxResume | PROTOTHREADS_UFSM/main.c:135-183 | bytes are taken only from a full channel, which is left empty; the ACK slot is written, with ACK, exactly when the frame is accepted |
| ReliableLink.RxInvoke | PROTOTHREADS_UFSM/main.c:127-184 | a call keeps the invariant and leaves the clock and channel byte alone |
| ReliableLink.Pass | PROTOTHREADS_UFSM/main.c:194-199 | a pass advances the clock by one and leaves an exited thread alone |
| ReliableLink.RunMain | PROTOTHREADS_UFSM/main.c:193-207 | the loop ends with the transmitter done or the clock above 1000 |
| ReliableLinkRun.OnlyLastIsEtx | PROTOTHREADS_UFSM/main.c:88-114 | no frame byte before the end is ETX when CHK is not |
| ReliableLinkRun.Passes | PROTOTHREADS_UFSM/main.c:193-197 | k passes advance the clock by k |
| ReliableLinkRun.RxOnAllCons | PROTOTHREADS_UFSM/main.c:137-182 | the receiver takes a byte stream one byte at a time, stopping at an ACK |
| ReliableLinkRun.TxSendsNext | PROTOTHREADS_UFSM/main.c:89-114 | once its byte is taken, a transmitter call writes the next frame byte and blocks |
| ReliableLinkRun.RxTakes | PROTOTHREADS_UFSM/main.c:139-181 | a receiver call with a full channel takes exactly that byte and empties the channel |
| ReliableLinkRun.RxIdle | PROTOTHREADS_UFSM/main.c:139-164 | with an empty channel a receiver call changes nothing |
| ReliableLinkRun.BytePass | PROTOTHREADS_UFSM/main.c:194-197 | one pass carries exactly the next frame byte to the receiver, in order, with none overwritten |
| ReliableLinkRun.FrameStep | PROTOTHREADS_UFSM/main.c:193-207 | one pass with a frame in flight, and what it leaves for the rest of the frame and for the loop |
| ReliableLinkRun.FramePasses | PROTOTHREADS_UFSM/main.c:89-114 | the rest of a frame crosses the channel in order, one byte per pass, and the receiver sees exactly those bytes |
| ReliableLinkRun.RxDataLoop | PROTOTHREADS_UFSM/main.c:151-158 | the data loop stores "HELLO" into `last_message[0..5)` and sets `last_length` |
| ReliableLinkRun.RxFrame | PROTOTHREADS_UFSM/main.c:147-181 | a HELLO frame with CHK `pkt` is stored, and acknowledged iff `pkt` is the data's checksum, otherwise the receiver waits for STX again |
| ReliableLinkRun.RunOn | PROTOTHREADS_UFSM/main.c:200-206 | the loop goes on while the transmitter runs and the clock is within 1000 |
| ReliableLinkRun.FirstPass | PROTOTHREADS_UFSM/main.c:72-92 | pass 1 counts attempt 1, picks CHK = checksum + 1 and sends STX, which the receiver takes |
| ReliableLinkRun.ArmPass | PROTOTHREADS_UFSM/main.c:114-118 | after ETX is taken, the timer is set at the current tick |
| ReliableLinkRun.WaitPasses | PROTOTHREADS_UFSM/main.c:118 | without an ACK the transmitter waits, changing nothing, until the timer expires |
| ReliableLinkRun.RetryPass | PROTOTHREADS_UFSM/main.c:118-120 | on expiry the transmitter resends: attempt + 1 with that attempt's CHK |
| ReliableLinkRun.FinalPass | PROTOTHREADS_UFSM/main.c:118-123 | with the ACK there in time, the transmitter consumes it, sets success and exits |
| ReliableLinkRun.FirstAttempt | PROTOTHREADS_UFSM/main.c:72-120 | passes 1-14: the first frame is refused, no ACK comes, and the timer has expired at tick 14 |
| ReliableLinkRun.SecondAttempt | PROTOTHREADS_UFSM/main.c:72-181 | passes 15-23: the second frame is stored and acknowledged, and the receiver exits |
| ReliableLinkRun.ProgramOutcome | PROTOTHREADS_UFSM/main.c:186-214 | the loop stops at tick 24 with the transmitter done and success 1, success_count 1, last_length 5, `last_message[0..5) == "HELLO"` and 2 attempts |
| ReliableLinkProgram.System.constructor | PROTOTHREADS_UFSM/main.c:23-43 | zeroed static storage with both threads at their start |
| ReliableLinkProgram.System.TimerSet | PROTOTHREADS_UFSM/main.c:45-48 | the timer starts now with the given interval, and nothing else changes |
| ReliableLinkProgram.System.TimerExpired | PROTOTHREADS_UFSM/main.c:50-52 | true iff the clock has reached start + interval |
| ReliableLinkProgram.System.AckReceived | PROTOTHREADS_UFSM/main.c:55-61 | answer and new globals are `ack_received`'s |
| ReliableLinkProgram.System.StartAttempt | PROTOTHREADS_UFSM/main.c:75-86 | the checksum loop and the CHK choice give `TxAttempt`'s state |
| ReliableLinkProgram.System.Put | PROTOTHREADS_UFSM/main.c:90-91 | writes the byte and marks the channel full |
| ReliableLinkProgram.System.AwaitAck | PROTOTHREADS_UFSM/main.c:117-122 | the ACK wait and the do/while test do what `TxResume` says |
| ReliableLinkProgram.System.SendResume | PROTOTHREADS_UFSM/main.c:89-117 | the byte waits do what `TxResume` says |
| ReliableLinkProgram.System.TxResume | PROTOTHREADS_UFSM/main.c:71-123 | one resumption updates the globals and statics as `TxResume` says |
| ReliableLinkProgram.System.TransmitterThread | PROTOTHREADS_UFSM/main.c:64-124 | one call updates the storage and returns as `TxInvoke` says |
| ReliableLinkProgram.System.OnStx | PROTOTHREADS_UFSM/main.c:139-145 | the STX wait does what `RxOnByte` says |
| ReliableLinkProgram.System.OnLen | PROTOTHREADS_UFSM/main.c:147-158 | the length wait does what `RxOnByte` says |
| ReliableLinkProgram.System.OnData | PROTOTHREADS_UFSM/main.c:152-158 | a data wait stores into `last_message` as `RxOnByte` says |
| ReliableLinkProgram.System.OnChk | PROTOTHREADS_UFSM/main.c:160-162 | the CHK wait does what `RxOnByte` says |
| ReliableLinkProgram.System.OnEtx | PROTOTHREADS_UFSM/main.c:164-181 | the end wait and checksum test do what `RxOnByte` says |
| ReliableLinkProgram.System.RxResume | PROTOTHREADS_UFSM/main.c:135-183 | one resumption updates the storage as `RxResume` says |
| ReliableLinkProgram.System.ReceiverThread | PROTOTHREADS_UFSM/main.c:127-184 | one call updates the storage and returns as `RxInvoke` says |
| ReliableLinkProgram.System.Pass | PROTOTHREADS_UFSM/main.c:194-199 | one loop body updates the storage and flags as `Pass` says |
| ReliableLinkProgram.System.Schedule | PROTOTHREADS_UFSM/main.c:192-207 | the loop leaves the storage in `RunMain`'s final state |
| ReliableLinkProgram.RunProgram | PROTOTHREADS_UFSM/main.c:186-214 | every value main asserts holds (success 1, success_count 1, last_length 5, "HELLO", 2 attempts), and the loop ends at tick 24, far from the 1000-tick guard |

## Left out

- Console output is not modelled, and neither are the test-reporting counters (`printf`, `dump`, `ASSERT_*`, `assert_true`, exit codes). The tests are methods whose postconditions state what the C asserts, and `RunAll` returns the counts.
- `rtos/as_sam_d21/src/main.c` is not part of this model. It is preemptive RTOS tasks and LED I/O with no framing logic.
- Pointer handling is not modelled:
  - `tx_iniciar`'s `dados = NULL` becomes the empty sequence;
  - `rx_feed`'s optional `out_len`/`out_buf` are always given;
  - the transmitters' `const uint8_t *data` becomes a sequence value, so a caller changing the buffer mid-session is not captured.
- Uninitialised storage is zeros: the receivers' payload buffers and the structs declared before their init calls.
- The protothread macros (`lc`, the `switch` on `__LINE__`, `PT_YIELD`) become an explicit resume-point enum per `PT_WAIT_UNTIL`. `PT_YIELD` is never used.
- The unreachable `default` path of `rx_feed` (FSM_Switch2/main.c:95-96) has no counterpart, because the state enum has no other values.
- The unreachable trailing `return 0` of the two `tx_*` step functions has no counterpart, for the same reason.
- `ticks`, `attempts_count` and `success_count` are unbounded integers. The run reaches at most tick 24, and `ticks` stops the loop at 1001, so `int` overflow cannot occur.
- The `ticks > 1000` branch's message is not printed. `RunMain` models that exit, and `ProgramOutcome` shows it is not taken.
- SumFramingTests.NominalPasses: requires 1 ≤ len, because `rx_feed` rejects an empty payload and the nominal test would fail for it; `main` never runs that case.
- SumFramingTests.AsWrittenMode1Passes: requires 1 ≤ len. With len 0 the as-written hook would flip LEN instead, which no test exercises.
- SumFramingTests.AsWrittenMode2: requires 1 ≤ len. At len 0 `rx_feed` rejects LEN 0, so the test passes even though the checksum is 0, and the iff does not hold there.
- Frames of different variants are never connected to each other, since their checksums differ.

## Findings

| source | as written | input that shows it | evidently intended | confidence | as-written member | corrected member |
|---|---|---|---|---|---|---|
| FSM_Switch2/main.c:178-179 | the mode-1 hook tests `tx.state == TX_SEND_CHK` after `tx_next` has advanced, so it flips the last payload byte, not CHK | payload "CHECK", mode 1: byte 6 (`'K'`) is flipped and CHK goes out intact | flip the CHK byte ("corrompe checksum") | not executed | SumFramingTests.AsWrittenMode1Passes | SumFramingTests.IntendedHooksDetected |
| FSM_Switch2/main.c:180-181 | the mode-2 hook tests `tx.state == TX_SEND_ETX` after the step, so it zeroes the CHK byte, not ETX; for 1 ≤ len, a frame whose checksum is 0 is then accepted and the "invalid ETX" test fails | payload `[0xFF]`, len 1: checksum `(1 + 0xFF) mod 256 = 0`, zeroing CHK changes nothing, `rx_feed` answers OK | replace the ETX byte ("ETX inválido"), always detected | not executed | SumFramingTests.Mode2MissedOnZeroChecksum | SumFramingTests.IntendedHooksDetected |
