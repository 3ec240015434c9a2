/** The connection a client owns. Its implementation (socket, framing, the
    goroutine behind its sequence-id channel) is not part of this model: the
    class keeps only what the session layer observes and changes. */
module Connection {
  import opened Wire
  import opened SeqIds

  /** Lifecycle of one connection. */
  datatype State = Init | Connected | AuthOk | Closed {
    /** A connection may write frames only between dialling and closing. */
    predicate IsOpen() { Connected? || AuthOk? }
  }

  /** A packet as handed to the transport together with its sequence id. */
  datatype Frame = Frame(packet: Packet, seqId: uint32)

  /** What happened to a connection, in order: lifecycle changes, frames
      written, and the release of the transport. */
  datatype Event = Entered(state: State) | Wrote(frame: Frame) | Released

  /** Whether a send in state `st` succeeds when the transport reports `fault`:
      only an open connection writes, and a write can fail. */
  function SendResult(st: State, fault: Option<Error>): (err: Option<Error>)
    ensures err.None? <==> st.IsOpen() && fault.None?
    ensures !st.IsOpen() ==> err == Some(IllegalState)
    ensures st.IsOpen() ==> err == fault
  {
    if st.Init? || st.Closed? then Some(IllegalState) else fault
  }

  class Conn {
    /** The protocol version the connection was created for. */
    const typ: Version
    var state: State
    /** Whether the transport has been released. */
    var closed: bool
    /** The value the sequence-id source hands out next. */
    var nextSeq: uint32
    /** Frames written to the transport, oldest first. */
    var sent: seq<Frame>
    /** Every id handed out so far, oldest first. */
    ghost var drawn: seq<uint32>
    ghost var trace: seq<Event>

    /** The sequence-id source is a counter from zero: the ids handed out are
        its first |drawn| values and it now holds the next one. */
    ghost predicate Valid()
      reads this`drawn, this`nextSeq
    {
      drawn == Issue(0, |drawn|) && nextSeq as int == |drawn| % MODULUS
    }

    constructor (typ: Version)
      ensures Valid() && this.typ == typ
      ensures state == Init && !closed && nextSeq == 0
      ensures sent == [] && drawn == [] && trace == []
    {
      this.typ := typ;
      state := Init;
      closed := false;
      nextSeq := 0;
      sent := [];
      drawn := [];
      trace := [];
    }

    method SetState(s: State)
      modifies this`state, this`trace
      ensures state == s && trace == old(trace) + [Entered(s)]
    {
      state := s;
      trace := trace + [Entered(s)];
    }

    /** Receives one id from the sequence-id source. */
    method NextSeqId() returns (id: uint32)
      requires Valid()
      modifies this`nextSeq, this`drawn
      ensures Valid()
      ensures id == old(nextSeq) && nextSeq == Next(id)
      ensures drawn == old(drawn) + [id]
    {
      IssueSnoc(0, |drawn|);
      id := nextSeq;
      nextSeq := Next(nextSeq);
      drawn := drawn + [id];
    }

    /** Writes `packet` with sequence id `seqId`; `fault` is the transport's
        write error, if any. */
    method SendPkt(packet: Packet, seqId: uint32, fault: Option<Error>) returns (err: Option<Error>)
      modifies this`sent, this`trace
      ensures err == SendResult(state, fault)
      ensures sent == if err.None? then old(sent) + [Frame(packet, seqId)] else old(sent)
      ensures trace == if err.None? then old(trace) + [Wrote(Frame(packet, seqId))] else old(trace)
    {
      if state.Init? || state.Closed? {
        err := Some(IllegalState);
      } else if fault.Some? {
        err := fault;
      } else {
        sent := sent + [Frame(packet, seqId)];
        trace := trace + [Wrote(Frame(packet, seqId))];
        err := None;
      }
    }

    /** Releases the transport; closing twice releases it once. */
    method Close()
      modifies this`state, this`closed, this`trace
      ensures state == Closed && closed
      ensures trace == if old(closed) then old(trace) else old(trace) + [Released]
    {
      if !closed {
        trace := trace + [Released];
      }
      closed := true;
      state := Closed;
    }
  }

  /** While at most 2^32 ids have been handed out, no two of them are equal. */
  lemma DrawnDistinct(c: Conn)
    requires c.Valid() && |c.drawn| <= MODULUS
    ensures forall i, j :: 0 <= i < j < |c.drawn| ==> c.drawn[i] != c.drawn[j]
  {
    IssueDistinct(0, |c.drawn|);
  }
}
