/** The two classes of `tcp.py`: `Servidor` (here `Server`), which owns the
    connection table and demultiplexes inbound segments, and `Conexao`
    (here `Connection`), the per-connection reliable-delivery engine. The
    network is an append-only log of sent segments; the application's
    callbacks are logs of accepted connections and of delivered payloads;
    the retransmission timer is the flag `timerRunning` plus the method
    `HandleTimeout`, called when the timer fires. */
module Tcp {
  import opened Wire
  import opened PySlice
  import opened ConexaoSpec
  import opened ServidorSpec

  /** The network layer `rede`: what was sent, and the `ignore_checksum` switch. */
  class Network {
    var sent: seq<Segment>
    const ignoreChecksum: bool

    constructor (ignoreChecksum: bool)
      ensures sent == [] && this.ignoreChecksum == ignoreChecksum
    {
      sent := [];
      this.ignoreChecksum := ignoreChecksum;
    }

    /** `rede.enviar(segment, segment.to)` */
    method Send(s: Segment)
      modifies this
      ensures sent == old(sent) + [s]
    {
      sent := sent + [s];
    }
  }

  class Server {
    const net: Network
    const port: nat
    var conexoes: map<ConnId, Connection>
    /** whether an accept callback has been registered */
    var hasAcceptor: bool
    /** the connections handed to the accept callback, in order */
    var accepted: seq<Connection>

    /** Every table entry is the connection of that identity, owned by this server. */
    ghost predicate Valid()
      reads this
    {
      forall k | k in conexoes :: conexoes[k].id == k && conexoes[k].server == this
    }

    constructor (net: Network, port: nat)
      ensures Valid()
      ensures this.net == net && this.port == port
      ensures conexoes == map[] && !hasAcceptor && accepted == []
    {
      this.net := net;
      this.port := port;
      conexoes := map[];
      hasAcceptor := false;
      accepted := [];
    }

    /** `registrar_monitor_de_conexoes_aceitas(callback)`, where `truthy`
        is whether `callback` is truthy: registering a falsy value such as
        `None` switches the accept notices off again. */
    method RegisterAcceptor(truthy: bool)
      modifies this`hasAcceptor
      ensures hasAcceptor == truthy
    {
      hasAcceptor := truthy;
    }

    /** The connection (if any) an inbound segment is forwarded to. */
    function Target(srcAddr: Addr, dstAddr: Addr, h: Header, segment: Bytes, checksumOk: bool): set<Connection>
      reads this
    {
      match Demux(port, net.ignoreChecksum, conexoes.Keys, srcAddr, dstAddr, h, segment, checksumOk)
      case Forward(id, _, _, _, _) => {conexoes[id]}
      case _ => {}
    }

    /** `_rdt_rcv(src_addr, dst_addr, segment)`, with `h` the header
        `read_header` parses from `segment` and `checksumOk` whether the
        checksum over the pseudo header and the segment is zero. */
    method Receive(srcAddr: Addr, dstAddr: Addr, h: Header, segment: Bytes, checksumOk: bool)
      requires Valid()
      modifies this`conexoes, this`accepted, net, Target(srcAddr, dstAddr, h, segment, checksumOk)
      ensures Valid()
      ensures var r := Demux(port, net.ignoreChecksum, old(conexoes).Keys, srcAddr, dstAddr, h, segment, checksumOk);
        match r
        case Discard(_) =>
          && conexoes == old(conexoes) && net.sent == old(net.sent) && accepted == old(accepted)
        case Open(id, peerSeq) =>
          && id in conexoes && fresh(conexoes[id])
          && conexoes == old(conexoes)[id := conexoes[id]]
          && conexoes[id].State() == Opened(peerSeq) && conexoes[id].delivered == []
          && net.sent == old(net.sent) + [SynAck(id, peerSeq)]
          && accepted == old(accepted) + (if hasAcceptor then [conexoes[id]] else [])
        case Forward(id, seqNo, ackNo, flags, payload) =>
          var c := old(conexoes)[id];
          var e := SegmentEffect(id, old(c.State()), seqNo, ackNo, flags, payload);
          && c.State() == e.state
          && c.delivered == old(c.delivered) + e.delivered
          && net.sent == old(net.sent) + e.sent
          && conexoes == (if e.closed then old(conexoes) - {id} else old(conexoes))
          && accepted == old(accepted)
    {
      if h.dstPort != port {
        return;
      }
      if !net.ignoreChecksum && !checksumOk {
        return;
      }
      var payload := PayloadOf(h, segment);
      var id := Key(srcAddr, dstAddr, h);
      if HasFlag(h.flags, FLAGS_SYN) {
        var c := new Connection(this, id, h.seqNo);
        conexoes := conexoes[id := c];
        net.Send(SynAck(id, h.seqNo));
        if hasAcceptor {
          accepted := accepted + [c];
        }
      } else if id in conexoes {
        var c := conexoes[id];
        c.Receive(h.seqNo, h.ackNo, h.flags, payload);
      }
    }
  }

  class Connection {
    const server: Server
    const id: ConnId
    var seqNo: int
    var nextSeqNo: int
    var ackNo: int
    var notYetAcked: Bytes
    var timerRunning: bool
    /** the payloads handed to the receive callback, in order */
    var delivered: seq<Bytes>

    function State(): ConnState
      reads this
    {
      ConnState(seqNo, nextSeqNo, ackNo, notYetAcked, timerRunning)
    }

    /** `Conexao(servidor, id_conexao, seq_no)` */
    constructor (server: Server, id: ConnId, seqNo: int)
      ensures this.server == server && this.id == id
      ensures State() == Opened(seqNo) && delivered == []
    {
      this.server := server;
      this.id := id;
      this.seqNo := seqNo;
      nextSeqNo := seqNo + 1;
      ackNo := seqNo + 1;
      notYetAcked := [];
      timerRunning := false;
      delivered := [];
    }

    /** `handle_timeout`: resend the head of the buffer and restart the timer.
        Only a running timer fires: with the timer off `self.timer` is
        `None` and the call to `cancel` would raise. */
    method HandleTimeout()
      requires timerRunning
      modifies this`timerRunning, server.net
      ensures State() == AfterTimeout(old(State()))
      ensures server.net.sent == old(server.net.sent) + [Retransmission(id, old(State()))]
    {
      timerRunning := false;
      var payload := Prefix(notYetAcked, MSS);
      server.net.Send(Reply(id, seqNo, ackNo, FLAGS_ACK, payload));
      timerRunning := true;
    }

    /** `_rdt_rcv(seq_no, ack_no, flags, payload)`. On the FIN path the
        source deletes its own table entry, which raises unless present. */
    method Receive(segSeq: int, segAck: int, flags: bv16, payload: Bytes)
      requires segSeq == ackNo && HasFlag(flags, FLAGS_FIN) ==> id in server.conexoes
      modifies this, server`conexoes, server.net
      ensures var e := SegmentEffect(id, old(State()), segSeq, segAck, flags, payload);
              State() == e.state
      ensures var e := SegmentEffect(id, old(State()), segSeq, segAck, flags, payload);
              delivered == old(delivered) + e.delivered
      ensures var e := SegmentEffect(id, old(State()), segSeq, segAck, flags, payload);
              server.net.sent == old(server.net.sent) + e.sent
      ensures var e := SegmentEffect(id, old(State()), segSeq, segAck, flags, payload);
              server.conexoes == (if e.closed then old(server.conexoes) - {id} else old(server.conexoes))
    {
      ghost var s0, sent0, delivered0, table0 := State(), server.net.sent, delivered, server.conexoes;
      if ackNo != segSeq {
        return;
      }
      ghost var fin := HasFlag(flags, FLAGS_FIN);
      ghost var s1 := if fin then s0.(ackNo := s0.ackNo + 1) else s0;
      if HasFlag(flags, FLAGS_FIN) {
        ackNo := ackNo + 1;
        server.net.Send(Reply(id, seqNo, ackNo, FLAGS_ACK, []));
        delivered := delivered + [[]];
        server.conexoes := server.conexoes - {id};
      }
      assert State() == s1;
      assert server.net.sent == sent0 + (if fin then [EmptyAck(id, s1)] else []);
      assert delivered == delivered0 + (if fin then [[]] else []);
      assert server.conexoes == (if fin then table0 - {id} else table0);
      ackNo := ackNo + |payload|;
      if |payload| > 0 {
        delivered := delivered + [payload];
        server.net.Send(Reply(id, seqNo, ackNo, FLAGS_ACK, []));
        return;
      }
      if HasFlag(flags, FLAGS_ACK) {
        if timerRunning {
          timerRunning := false;
        }
        notYetAcked := From(notYetAcked, segAck - seqNo);
        seqNo := segAck;
        if segAck < nextSeqNo {
          timerRunning := true;
        }
        assert State() == PureAck(s1, segAck);
      }
    }

    /** `enviar(dados)`: one segment per MSS-sized piece. */
    method Send(dados: Bytes)
      modifies this`nextSeqNo, this`notYetAcked, this`timerRunning, server.net
      ensures State() == AfterSend(old(State()), dados)
      ensures server.net.sent == old(server.net.sent) + SendSegments(id, old(State()), dados)
    {
      ghost var s0, sent0 := State(), server.net.sent;
      var n := PieceCount(|dados|);
      for i := 0 to n
        invariant State() == SendProgress(s0, dados, i)
        invariant server.net.sent == sent0 + DataSegments(id, s0.nextSeqNo, s0.ackNo, dados, i)
      {
        var payload := Slice(dados, i * MSS, (i + 1) * MSS);
        SendStep(id, s0, dados, i);
        server.net.Send(Reply(id, nextSeqNo, ackNo, FLAGS_ACK, payload));
        nextSeqNo := nextSeqNo + |payload|;
        notYetAcked := notYetAcked + payload;
        if !timerRunning {
          timerRunning := true;
        }
      }
      SendDone(s0, dados);
    }

    /** `fechar`: one FIN at `nextSeqNo`; no field changes. */
    method Close()
      modifies server.net
      ensures server.net.sent == old(server.net.sent) + [FinSegment(id, State())]
    {
      server.net.Send(Reply(id, nextSeqNo, ackNo, FLAGS_FIN, []));
    }
  }
}
