/** The client session: the login handshake and the send/receive helpers of
    vendor/github.com/bigwhite/gocmpp/client.go. */
module Session {
  import opened Wire
  import opened SeqIds
  import opened Connection

  /** Versions whose login response is a Cmpp2ConnRspPkt. */
  predicate IsV2(typ: Version) {
    typ == V20 || typ == V21
  }

  /** Whether `p` is the login-response variant a client of version `typ` expects. */
  predicate ExpectedVariant(typ: Version, p: Packet) {
    if IsV2(typ) then p.Cmpp2ConnRsp? else p.Cmpp3ConnRsp?
  }

  /** The status a login response carries on the wire, at its full width. */
  function WireStatus(p: Packet): (status: int)
    requires p.Cmpp2ConnRsp? || p.Cmpp3ConnRsp?
    ensures 0 <= status < 0x1_0000_0000
    ensures p.Cmpp2ConnRsp? ==> status < 0x100
  {
    if p.Cmpp2ConnRsp? then p.status as int else p.wideStatus as int
  }

  /** The status byte the client decides on, or None when the type assertion
      on the received packet fails. A 3.0 status is cut to its low byte. */
  function LoginStatus(typ: Version, p: Packet): (status: Option<uint8>)
    ensures status.Some? <==> ExpectedVariant(typ, p)
    ensures status.Some? ==> status.value as int == WireStatus(p) % 0x100
  {
    if IsV2(typ) then
      match p
      case Cmpp2ConnRsp(s) => Some(s)
      case _ => None
    else
      match p
      case Cmpp3ConnRsp(s) => Some((s as int % 0x100) as uint8)
      case _ => None
  }

  /** A lookup in the status-to-error table; a missing key gives Go's nil. */
  function StatusError(table: map<uint8, Error>, status: uint8): (err: Option<Error>)
    ensures err.Some? <==> status in table
    ensures err.Some? ==> err.value == table[status]
  {
    if status in table then Some(table[status]) else None
  }

  /** How the client judges a received login response. */
  datatype Verdict =
    | Authenticated              // the expected variant with status 0
    | Rejected(err: Option<Error>) // a non-zero status and what the table gives for it
    | NilDeref                   // the wrong variant: the status is read through a nil pointer

  function Handshake(typ: Version, p: Packet, table: map<uint8, Error>): (v: Verdict)
    ensures v.NilDeref? <==> !ExpectedVariant(typ, p)
    ensures v.Authenticated? <==> ExpectedVariant(typ, p) && WireStatus(p) % 0x100 == 0
    ensures v.Rejected? ==> v.err == StatusError(table, (WireStatus(p) % 0x100) as uint8)
  {
    match LoginStatus(typ, p)
    case None => NilDeref
    case Some(status) =>
      if status != 0 then Rejected(StatusError(table, status)) else Authenticated
  }

  /** A 3.0 client decides on the low byte of the wide status alone. */
  lemma LowByteDecides(typ: Version, s: uint32, table: map<uint8, Error>)
    requires !IsV2(typ)
    ensures Handshake(typ, Cmpp3ConnRsp(s), table) ==
            Handshake(typ, Cmpp3ConnRsp((s as int % 0x100) as uint32), table)
  {
  }

  /** So a 3.0 response with status 256 logs the client in. */
  lemma Status256LogsIn(table: map<uint8, Error>)
    ensures Handshake(V30, Cmpp3ConnRsp(0x100), table) == Authenticated
  {
  }

  /** A 2.x status is one byte wide and is used as received. */
  lemma V2StatusUsedAsIs(typ: Version, s: uint8, table: map<uint8, Error>)
    requires IsV2(typ)
    ensures Handshake(typ, Cmpp2ConnRsp(s), table) ==
            if s == 0 then Authenticated else Rejected(StatusError(table, s))
  {
  }

  /** How Connect ends: it returns an error value (None for nil), or the Go
      runtime panics. */
  datatype Outcome = Returned(err: Option<Error>) | Panicked

  class Client {
    /** Fixed when the client is created; nothing assigns it again. */
    const typ: Version
    var conn: Conn?

    /** An owned connection was made for this client's version and its
        sequence-id source is a counter from zero. */
    ghost predicate Valid()
      reads this, conn
    {
      conn != null ==> conn.Valid() && conn.typ == typ
    }

    constructor NewClient(typ: Version)
      ensures Valid() && this.typ == typ && conn == null
    {
      this.typ := typ;
      conn := null;
    }

    /** Dials, logs in and judges the login response. The collaborators' results
        are inputs: `dial` is the dial error, `sendFault` the transport's write
        error, `reply` what the receive yields and `table` the status-to-error
        table. */
    method Connect(dial: Option<Error>, user: string, password: string,
                   sendFault: Option<Error>, reply: Result<Packet>,
                   table: map<uint8, Error>) returns (outcome: Outcome)
      modifies this
      // a failed dial returns its error and leaves the client as it was
      ensures dial.Some? ==> outcome == Returned(dial) && conn == old(conn)
      // after a dial the client owns a new connection that drew exactly one id
      ensures dial.None? ==> Valid()
      ensures old(Valid()) ==> Valid()
      ensures dial.None? ==> conn != null && fresh(conn) && conn.typ == typ && conn.Valid()
      ensures dial.None? ==> conn.drawn == [0] && conn.nextSeq == 1
      // the login request goes out only after the state became Connected
      ensures dial.None? && sendFault.Some? ==>
        outcome == Returned(sendFault) && conn.sent == [] &&
        conn.trace == [Entered(Connected), Released]
      ensures dial.None? && sendFault.None? ==>
        conn.sent == [Frame(ConnReq(user, password, typ), 0)] &&
        |conn.trace| >= 2 && conn.trace[..2] == [Entered(Connected), Wrote(Frame(ConnReq(user, password, typ), 0))]
      ensures dial.None? && sendFault.None? && reply.Err? ==>
        outcome == Returned(Some(reply.error)) && |conn.trace| == 3 && conn.trace[2] == Released
      ensures dial.None? && sendFault.None? && reply.Ok? ==>
        match Handshake(typ, reply.value, table)
        case Authenticated =>
          outcome == Returned(None) && |conn.trace| == 3 && conn.trace[2] == Entered(AuthOk)
        case Rejected(e) =>
          outcome == Returned(e) && |conn.trace| >= 2 &&
          conn.trace[2..] == (if e.Some? then [Released] else [])
        case NilDeref =>
          outcome == Panicked && |conn.trace| == 2
      // AuthOk is reached exactly when the expected variant carries status 0
      ensures dial.None? ==>
        (conn.state == AuthOk <==>
          sendFault.None? && reply.Ok? && ExpectedVariant(typ, reply.value) &&
          WireStatus(reply.value) % 0x100 == 0)
      ensures dial.None? ==> (Entered(AuthOk) in conn.trace <==> conn.state == AuthOk)
      // every error return after the dial leaves the connection closed; no other return closes it
      ensures dial.None? ==> (conn.closed <==> outcome.Returned? && outcome.err.Some?)
      ensures dial.None? ==> (conn.closed <==> conn.state == Closed)
      // the final state: Closed after an error return, AuthOk after a login, and
      // otherwise (the panic, an unmapped status) still Connected
      ensures dial.None? ==>
        conn.state == (if conn.closed then Closed
                       else if Entered(AuthOk) in conn.trace then AuthOk
                       else Connected)
      // the mismatch error is never produced here: it can only come from a collaborator
      ensures outcome == Returned(Some(RespNotMatch)) ==>
        dial == Some(RespNotMatch) || sendFault == Some(RespNotMatch) ||
        reply == Err(RespNotMatch) || RespNotMatch in table.Values
    {
      if dial.Some? {
        return Returned(dial);
      }
      var c := new Conn(typ);
      conn := c;
      c.SetState(Connected);

      var req := ConnReq(user, password, typ);
      var err := SendReqPkt(req, sendFault);
      var panicked := false;
      if err.None? {
        if reply.Err? {
          err := Some(reply.error);
        } else {
          match Handshake(typ, reply.value, table)
          case NilDeref =>
            panicked := true;
          case Rejected(e) =>
            err := e;
          case Authenticated =>
            c.SetState(AuthOk);
        }
      }
      // the deferred cleanup: close when err is non-nil (it is nil during the panic)
      if err.Some? {
        c.Close();
      }
      outcome := if panicked then Panicked else Returned(err);
    }

    method Disconnect()
      requires conn != null
      modifies conn
      ensures conn.state == Closed && conn.closed
      ensures conn.trace == if old(conn.closed) then old(conn.trace) else old(conn.trace) + [Released]
      ensures conn.sent == old(conn.sent) && conn.nextSeq == old(conn.nextSeq) && conn.drawn == old(conn.drawn)
    {
      conn.Close();
    }

    /** Sends a request under a fresh id drawn from the connection. */
    method SendReqPkt(packet: Packet, fault: Option<Error>) returns (err: Option<Error>)
      requires conn != null && Valid()
      modifies conn
      ensures Valid()
      ensures conn.drawn == old(conn.drawn) + [old(conn.nextSeq)]
      ensures conn.nextSeq == Next(old(conn.nextSeq))
      ensures err == SendResult(conn.state, fault)
      ensures conn.sent == if err.None? then old(conn.sent) + [Frame(packet, old(conn.nextSeq))] else old(conn.sent)
      ensures conn.trace == if err.None? then old(conn.trace) + [Wrote(Frame(packet, old(conn.nextSeq)))] else old(conn.trace)
      ensures conn.state == old(conn.state) && conn.closed == old(conn.closed)
    {
      var id := conn.NextSeqId();
      err := conn.SendPkt(packet, id, fault);
    }

    /** Like SendReqPkt, and returns the id it used. */
    method SendReqPktWithSeqId(packet: Packet, fault: Option<Error>) returns (seqId: uint32, err: Option<Error>)
      requires conn != null && Valid()
      modifies conn
      ensures Valid()
      ensures seqId == old(conn.nextSeq) && conn.nextSeq == Next(seqId)
      ensures conn.drawn == old(conn.drawn) + [seqId]
      ensures err == SendResult(conn.state, fault)
      ensures conn.sent == if err.None? then old(conn.sent) + [Frame(packet, seqId)] else old(conn.sent)
      ensures conn.trace == if err.None? then old(conn.trace) + [Wrote(Frame(packet, seqId))] else old(conn.trace)
      ensures conn.state == old(conn.state) && conn.closed == old(conn.closed)
    {
      seqId := conn.NextSeqId();
      err := conn.SendPkt(packet, seqId, fault);
    }

    /** Sends a response under the caller's id; the sequence-id source is not touched. */
    method SendRspPkt(packet: Packet, seqId: uint32, fault: Option<Error>) returns (err: Option<Error>)
      requires conn != null
      modifies conn
      ensures conn.nextSeq == old(conn.nextSeq) && conn.drawn == old(conn.drawn)
      ensures err == SendResult(conn.state, fault)
      ensures conn.sent == if err.None? then old(conn.sent) + [Frame(packet, seqId)] else old(conn.sent)
      ensures conn.trace == if err.None? then old(conn.trace) + [Wrote(Frame(packet, seqId))] else old(conn.trace)
      ensures conn.state == old(conn.state) && conn.closed == old(conn.closed)
    {
      err := conn.SendPkt(packet, seqId, fault);
    }

    /** Hands back whatever the connection's receive yields, `incoming`. */
    method RecvAndUnpackPkt(incoming: Result<Packet>) returns (r: Result<Packet>)
      requires conn != null
      ensures r == incoming
    {
      r := incoming;
    }
  }
}
