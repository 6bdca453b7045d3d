# A verified model of a simplified TCP endpoint

This project models `tcp.py`, the transport core of a small TCP stack that
runs over a datagram network layer. The file has two classes:

- `Servidor`, here `Tcp.Server`, is the demultiplexer. It checks the
  destination port and the checksum gate, strips the header and then acts
  on the segment. A SYN creates a connection or overwrites an existing
  one, answers with SYN+ACK and notifies the acceptor. Any other segment
  goes to the connection that owns its 4-tuple, or is dropped when the
  4-tuple is unknown.
- `Conexao`, here `Tcp.Connection`, is the per-connection engine.
  - Receiving is strictly in order.
  - A FIN is acknowledged, signalled to the application with an empty
    payload, and removes the connection from the table.
  - Cumulative ACKs trim the unacknowledged buffer `not_yet_acked`.
  - `enviar` splits outbound data into MSS-sized segments.
  - On timeout, `handle_timeout` resends the head of the buffer.
  - `fechar` sends one FIN.

Files:

- `pyslice.dfy` (`PySlice`): Python's slice operator. Out-of-range bounds
  are clamped and a negative start counts from the end. The code relies on
  this at tcp.py:32, 79, 121 and 154.
- `wire.dfy` (`Wire`) holds the shared value types:
  - bytes;
  - the flag bits of the offset/flags word, as `bv16`, and the header
    length `4*(flags>>12)` taken from its data-offset nibble (section 3.1
    of RFC 793);
  - the connection identity `(src_addr, src_port, dst_addr, dst_port)`;
  - the parsed inbound header;
  - the record of an outbound segment: destination, ports, seq, ack, flags
    and payload.
- `conexao_spec.dfy` (`ConexaoSpec`): the connection's behaviour as
  functions of its state `ConnState(seqNo, nextSeqNo, ackNo, notYetAcked,
  timerRunning)`, with the lemmas about them.
  - `SegmentEffect` gives the effect of one inbound segment: new state,
    segments sent, payloads delivered, and whether the connection removes
    itself.
  - `AfterSend` and `SendSegments` describe `enviar`.
  - `AfterTimeout` and `Retransmission` describe `handle_timeout`.
  - `FinSegment` describes `fechar`.
  - `InSync` is the buffer invariant: `|notYetAcked| == nextSeqNo - seqNo`,
    and the timer runs iff bytes are outstanding.
- `servidor_spec.dfy` (`ServidorSpec`): `Demux` is the routing decision of
  `Servidor._rdt_rcv`. A segment is discarded (with a reason), opens a
  connection, or is forwarded. The file also holds the lemmas about `Demux`.
- `tcp.dfy` (`Tcp`): the classes `Network`, `Server` and `Connection`.
  - A class's fields are the fields the source updates in place. The
    connection table is a `map`.
  - Each method is proved to change its state exactly as the
    specification functions say.
  - `Connection.Send` keeps the source's loop over `ceil(len/MSS)`
    iterations, with its invariants.

Environment:

- The network is an append-only log, `Network.sent`.
- The accept callback is the log `Server.accepted`. It is appended to only
  when an acceptor is registered.
- The receive callback is the log `Connection.delivered`.
- The asyncio timer is the boolean `timerRunning`. `HandleTimeout` stands
  for the timer firing.
- Sequence numbers are unbounded integers, because the code never reduces
  them modulo 2^32.
- `MSS` is 1460 and the flag bits are FIN = 1, SYN = 2, ACK = 16. These are
  the values assumed for the `tcputils` module, which is not part of this
  model. The proofs use no other property of them.

Behaviour of the code worth noting, which the model reproduces:

- At tcp.py:98-105 the FIN branch does not return. It falls through to the
  payload branch and the pure-ACK branch. `SegmentEffect` reproduces this,
  and `InOrderFin` states all three outcomes.
- tcp.py:35-38 opens a connection for every SYN that passes the port and
  checksum gates, and overwrites any existing entry for that 4-tuple.
- `len(not_yet_acked) == next_seq_no - seq_no` (with "timer running iff
  bytes outstanding", the invariant `InSync`) does not hold in every state:
  - It does not hold right after construction, where
    `next_seq_no - seq_no == 1` with an empty buffer (`OpenedNotInSync`).
  - A pure ACK of the SYN+ACK, taken from the state construction leaves
    before anything is sent, establishes it (`HandshakeAckSyncs`). After
    that, every segment whose pure ACK lies in the window preserves it
    (`SegmentEffectKeepsInSync`), and so do `enviar` and timeouts.
  - If the peer's first in-order segment carries data instead, tcp.py:105-111
    returns before `seq_no` is updated at tcp.py:122, so `seq_no` stays at
    the peer's initial number. A later pure ACK then trims one byte too many
    from the buffer (`DataBeforeHandshakeAckBreaksInSync`).
  - The accept callback runs right after the SYN+ACK is sent (tcp.py:44-45),
    so the application may call `enviar` before the peer's ACK arrives.
    `seq_no` is then still the SYN's number while the buffer starts one past
    it, and the peer's in-window ACK of `peer_seq + 1` trims the first data
    byte at tcp.py:121 (`SendBeforeHandshakeAckBreaksInSync`).
  - An ACK outside `[seq_no, next_seq_no]` breaks it. Python's
    negative-start slice keeps the buffer's tail, and a too-large ACK moves
    `seq_no` past `next_seq_no` (`OutOfWindowAckBreaksInSync`). An ordinary
    close produces the second case: `fechar` sends its FIN at `next_seq_no`
    (tcp.py:173), and the peer's ACK of that FIN, `next_seq_no + 1`, arrives
    in order and moves `seq_no` past `next_seq_no` (`FinAckOvershoots`).
- `ack_no` never decreases: it grows by one for a FIN plus the payload
  length on every in-order segment (`AckNoAdvances`).

## Model

| member | source | states |
|---|---|---|
| PySlice.Slice | tcp.py:154 | `s[lo:hi]` is never longer than `s`. It equals `s[lo..hi]` for in-range bounds and runs to the end when `hi` is past it. It is empty when `lo` is at or beyond the end, or when `hi <= lo` and the bounds are both non-negative or `lo` is negative. A negative `hi` with a non-negative `lo` counts from the end and need not give an empty slice. |
| PySlice.From | tcp.py:121 | `s[lo:]` is `s[lo..]` for in-range `lo` and empty past the end. A negative `lo` keeps the last `-lo` elements, or all of `s` when `-lo > |s|`. |
| PySlice.Prefix | tcp.py:79 | `s[:hi]` is `s[..hi]` for in-range `hi` and all of `s` beyond the end. |
| Wire.HeaderLength | tcp.py:32 | The header length taken from the data-offset nibble is a multiple of 4 and at most 60 bytes. |
| ServidorSpec.DemuxDiscards | tcp.py:25-51 | A segment is dropped exactly when one of these holds: its destination port is not the server's; the enabled checksum test fails; or it is a non-SYN segment whose 4-tuple is unknown. Each of the three reasons holds iff its condition does. |
| ServidorSpec.DemuxOpens | tcp.py:33-38 | A SYN opens a connection iff it passes the port and checksum gates, whether or not its 4-tuple is already in the table. The opened identity is `(src_addr, src_port, dst_addr, dst_port)` and the peer's sequence number is the header's. |
| ServidorSpec.DemuxForwards | tcp.py:32-48 | A non-SYN segment of a known 4-tuple is forwarded with its seq, ack and flags. Its payload is the bytes after `4*(flags>>12)`, or empty when the header length exceeds the segment. |
| ServidorSpec.FlagBitsNeverChangeHeaderLength | tcp.py:32 | The header length `4*(flags>>12)` depends only on the data-offset nibble: setting any of the twelve bits below it leaves the length unchanged. |
| ServidorSpec.ClosedIsUnknown | tcp.py:46-51 | Once a connection's identity is removed from the table (tcp.py:103), a further non-SYN segment for it is dropped as belonging to an unknown connection. |
| ServidorSpec.SynAckAnswers | tcp.py:39-41 | The SYN+ACK carries seq = peer_seq and ack = peer_seq + 1, sets SYN and ACK but not FIN, has no payload, and goes from the server's port to the peer's port and address. |
| ConexaoSpec.OutOfOrderIgnored | tcp.py:95-96 | A segment whose seq is not `ack_no` changes nothing, sends nothing, delivers nothing and keeps the connection. |
| ConexaoSpec.InOrderData | tcp.py:105-111 | An in-order non-FIN segment with a non-empty payload moves `ack_no` forward by exactly `len(payload)` and delivers the payload unchanged. It sends one ACK carrying the new `ack_no` and leaves every other field alone. |
| ConexaoSpec.InOrderFin | tcp.py:98-129 | An in-order FIN always removes the connection, sends one ACK for `ack_no + 1` and delivers an empty payload first. Then it falls through: a payload adds its length to `ack_no` and is delivered and ACKed once more; an empty payload with the ACK flag runs the pure-ACK trim; otherwise nothing more happens. |
| ConexaoSpec.PureAckTrims | tcp.py:113-129 | A pure ACK with `seq_no <= ack <= next_seq_no` removes exactly the first `ack - seq_no` bytes of the buffer, or empties it when the buffer is shorter. It sets `seq_no` to `ack`, leaves `next_seq_no` and `ack_no` unchanged, sends and delivers nothing, and afterwards the timer runs iff `ack < next_seq_no`. |
| ConexaoSpec.BareSegmentIgnored | tcp.py:105-129 | An in-order segment with no payload and neither FIN nor ACK changes nothing. |
| ConexaoSpec.OpenedNotInSync | tcp.py:55-64 | A freshly built connection has an empty buffer but `next_seq_no - seq_no == 1`, so the buffer invariant does not hold yet. |
| ConexaoSpec.HandshakeAckSyncs | tcp.py:114-129 | The peer's ACK of the SYN+ACK (seq = ack = peer_seq + 1) leaves the connection at `(peer_seq+1, peer_seq+1, peer_seq+1, empty, timer off)`, which satisfies the buffer invariant. It sends and delivers nothing. |
| ConexaoSpec.SegmentEffectKeepsInSync | tcp.py:95-129 | Every inbound segment preserves the buffer invariant and "timer running iff bytes outstanding", provided that whenever the pure-ACK branch is reached the ACK lies in `[seq_no, next_seq_no]`. |
| ConexaoSpec.AckNoAdvances | tcp.py:95-129 | `ack_no` never decreases. An out-of-order segment leaves it unchanged. An in-order one advances it by exactly one for a FIN (tcp.py:99) plus `len(payload)` (tcp.py:105), whatever ACK number it carries. |
| ConexaoSpec.DataBeforeHandshakeAckBreaksInSync | tcp.py:105-122 | From `Opened(100)`, an in-order data segment `[7]` leaves `seq_no` at 100. After `enviar([1,2,3,4])` a pure ACK of 103 leaves the buffer `[4]` while `next_seq_no - seq_no == 2`, so the buffer invariant fails. |
| ConexaoSpec.SendBeforeHandshakeAckBreaksInSync | tcp.py:114-122 | From `Opened(100)`, `enviar([1,2,3])` (tcp.py:151-159, possible from the accept callback at tcp.py:44-45) before the handshake ACK, then the in-window pure ACK of 101, leaves the buffer `[2,3]` while three bytes are outstanding, so the buffer invariant fails. |
| ConexaoSpec.OutOfWindowAckBreaksInSync | tcp.py:121-122 | On a concrete synchronised state, an ACK below `seq_no` keeps the buffer's tail and breaks the invariant, and an ACK beyond `next_seq_no` moves `seq_no` past `next_seq_no`. |
| ConexaoSpec.FinAckOvershoots | tcp.py:114-122 | From a synchronised state with nothing outstanding, the FIN `fechar` sends is at `next_seq_no` (tcp.py:173). The peer's ACK of it moves `seq_no` to `next_seq_no + 1`, past `next_seq_no`, which breaks the invariant. |
| ConexaoSpec.PieceCountIsCeiling | tcp.py:151 | The number of loop iterations is the ceiling of `len(dados) / MSS`. It is zero iff `dados` is empty. |
| ConexaoSpec.SentPrefixIsPrefix | tcp.py:154-159 | After `k` iterations the bytes appended so far are `dados[..min(k*MSS, len)]`. |
| ConexaoSpec.SentPrefixWhole | tcp.py:151-159 | After all iterations the pieces concatenate back to `dados`. |
| ConexaoSpec.DataSegmentAt | tcp.py:151-156 | The i-th segment emitted goes out at `next_seq_no` plus the lengths of the earlier pieces, with the current `ack_no`, the ACK flag and payload piece i. |
| ConexaoSpec.PayloadsOfDataSegments | tcp.py:154-159 | The payloads of the segments emitted in the first `k` iterations concatenate to the bytes appended to the buffer. |
| ConexaoSpec.SendStep | tcp.py:152-163 | Iteration i of the `enviar` loop sends piece i at the current `next_seq_no` with the current `ack_no`, then advances `next_seq_no` by the piece's length, appends the piece to the buffer and leaves the timer running. |
| ConexaoSpec.SendDone | tcp.py:151-163 | After `ceil(len/MSS)` iterations the loop state is exactly `AfterSend`. |
| ConexaoSpec.PieceShape | tcp.py:151-154 | Every piece the loop reaches is non-empty, at most MSS bytes, equals `dados[i*MSS..min((i+1)*MSS, len)]`, and starts after exactly `i*MSS` bytes already sent. |
| ConexaoSpec.SendSegmentAt | tcp.py:151-156 | Segment i of `enviar` goes to the peer with seq = `next_seq_no + i*MSS`, the current `ack_no`, the ACK flag and piece i as its non-empty payload of at most MSS bytes. |
| ConexaoSpec.SendSegmentsShape | tcp.py:151-159 | `enviar` emits `ceil(len/MSS)` segments whose payloads concatenate to `dados`. Each payload is non-empty and at most MSS bytes and equals `dados[i*MSS..min((i+1)*MSS, len)]`. Segment i has seq = `next_seq_no + i*MSS`, the current `ack_no`, the ACK flag, and goes to the peer. |
| ConexaoSpec.SendNothing | tcp.py:151-163 | `enviar` of empty data changes no field and sends no segment. |
| ConexaoSpec.AfterSendKeepsInSync | tcp.py:157-163 | `enviar` preserves the buffer invariant and the timer-iff-outstanding invariant, and leaves `seq_no` and `ack_no` unchanged. |
| ConexaoSpec.RetransmitsHead | tcp.py:74-82 | The retransmitted segment carries seq = `seq_no`, ack = `ack_no` and payload `not_yet_acked[:MSS]`. |
| ConexaoSpec.TimeoutKeepsInSync | tcp.py:69-84 | A timeout while the timer runs, on a synchronised state, resends a non-empty payload of at most MSS bytes and preserves the invariant. |
| ConexaoSpec.StreamFirst | tcp.py:105-111 | The first of a run of non-empty in-order payloads is delivered and ACKed at `ack_no + len(payload)`, and the rest of the run is handled from that state. |
| ConexaoSpec.InOrderStream | tcp.py:95-111 | Non-empty payloads fed back to back at the expected sequence number are delivered unchanged and in order. `ack_no` grows by their total length, nothing closes, and the ACKs sent are exactly `StreamAcks`: one per payload. |
| ConexaoSpec.StreamAcksAt | tcp.py:105-110 | The i-th ACK of a stream carries the sender's `seq_no` and acknowledges `ack_no` plus the total length of payloads 0 to i. |
| Tcp.Server.constructor | tcp.py:7-12 | A new server has an empty connection table and no acceptor. |
| Tcp.Server.RegisterAcceptor | tcp.py:14-19 | Afterwards acceptance notices are on exactly when the registered callback is truthy, the test tcp.py:44 applies, so registering `None` turns them off again. |
| Tcp.Server.Receive | tcp.py:21-51 | A discarded segment leaves the table, the network log and the accept log unchanged. A SYN overwrites `conexoes[id]` with a fresh connection in state `Opened(peer_seq)`, sends exactly one SYN+ACK, and logs one acceptance if an acceptor is registered. A forwarded segment changes only its connection, as `SegmentEffect` says, and removes the table entry when that connection closes. The table stays well formed: every entry is the connection of that identity, owned by this server. |
| Tcp.Connection.constructor | tcp.py:55-64 | A new connection has `seq_no == peer_seq`, `next_seq_no == ack_no == peer_seq + 1`, an empty buffer, the timer off, and has delivered nothing. |
| Tcp.Connection.HandleTimeout | tcp.py:69-84 | Called only while the timer runs, because the timer is only ever scheduled beside `timer_rodando = True` (tcp.py:83-84, 126-127, 162-163). With the timer off, `self.timer` is `None` (tcp.py:62, 117), and the `cancel` at tcp.py:71 would raise. Sends exactly `Retransmission` (the buffer's head) and leaves every field unchanged except the timer, which ends up running. |
| Tcp.Connection.Receive | tcp.py:87-129 | The new state, the deliveries, the segments sent and the table change are exactly those of `SegmentEffect`. |
| Tcp.Connection.Send | tcp.py:141-163 | The loop ends in `AfterSend` (`next_seq_no` grows by `len(dados)`, the buffer becomes `old ++ dados`, and the timer runs iff it ran or `dados` is non-empty) after sending exactly `SendSegments`. |
| Tcp.Connection.Close | tcp.py:166-175 | Sends one FIN with seq = `next_seq_no` and ack = `ack_no`, and changes no field. |

## Left out

- Timers. The asyncio calls `call_later` and `cancel` (tcp.py:71, 83, 116-117, 127, 163) are only event-loop scheduling. They are replaced by `timerRunning`, and `HandleTimeout` is called wherever the timer would fire. The race in which a cancelled timer has already queued its callback is a concurrency concern and is not modelled.
- `tcputils` is not part of this model.
  - `read_header` is replaced by a parsed `Header` passed in beside the raw segment. The model does not check that the two agree.
  - `calc_checksum` is replaced by the boolean `checksumOk`.
  - For `make_header` and `fix_checksum`, outbound segments are recorded as the header fields passed to `make_header` plus the payload. No wire bytes and no checksum values are modelled.
  - As a result the model cannot show that `handle_timeout` checksums the header alone and appends the payload afterwards (tcp.py:76 vs tcp.py:82), while `enviar` checksums header and payload together (tcp.py:155).
- Network I/O. `rede.enviar` is the append to `Network.sent`, with the destination address in the record. Registering the server as the network's receiver (tcp.py:12) is not modelled.
- `print` logging (tcp.py:29, 50, 93) is a side effect only.
- `Conexao.registrar_recebedor` (tcp.py:134-139) is not modelled. A receive callback is assumed to be registered, because the code calls it without a None check (tcp.py:102, 109). Deliveries go to the log `delivered`.
- Callbacks cannot re-enter the connection, for example by sending from inside a delivery.
- Delivery order against sends. The delivery log and the network log are separate, so their relative order within one call is not recorded. For example, tcp.py:109 delivers before tcp.py:110 sends.
- `math.ceil(len(dados) / MSS)` (tcp.py:151) uses floating-point division. It is modelled as the exact integer ceiling, which may differ for lengths beyond 2^53.
- 32-bit wrap-around of sequence numbers is not modelled, because the code has none.
- Tcp.Connection.Receive requires that its identity is in the server's table only on the in-order FIN path. That is the one path where `del` (tcp.py:103) would raise `KeyError`, and the only caller (tcp.py:46-48) guarantees it.
