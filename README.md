# CMPP client session layer in Dafny

This project models the session layer of a CMPP (China Mobile Peer-to-Peer) SMS-gateway
client, `vendor/github.com/bigwhite/gocmpp/client.go`. It covers three things:

- the login handshake that `Client.Connect` runs;
- the sequence-id discipline of the three send helpers;
- the `Disconnect` and receive passthroughs.

The model has four modules:

- `Wire` holds the values. These are fixed-width integers, the version tag, the packets the
  handshake uses and the error values. A Go `error` is an `Option<Error>`, where `None` is nil.
- `SeqIds` specifies the connection's sequence-id source. It is a counter from zero that hands
  out its value and advances modulo 2^32. It proves that up to 2^32 consecutive draws are
  pairwise distinct and that the counter wraps around rather than failing.
- `Connection` holds the `Conn` class the client owns: its lifecycle state
  (`Init`/`Connected`/`AuthOk`/`Closed`), a `closed` flag for the released transport, the
  counter that stands in for the `SeqId` channel, the log of frames (packet and id) written,
  and a ghost trace of lifecycle changes and writes in order.
- `Session` holds the `Client` class and the pure judgement of a login response (`Handshake`).

The collaborators are inputs to `Connect`:

- the dial error (`dial`);
- the transport's write error (`sendFault`);
- the packet or error the receive yields (`reply`);
- the status-to-error table `ConnRspStatusErrMap`, as a `map<uint8, Error>`.

The model keeps these behaviours of the code as written:

- **A wrong response variant panics.** At client.go:76-77 and 80-81 the status is read
  through the result of the type assertion before `ok` is tested. So a response of the wrong
  variant dereferences nil. `Connect` then ends in `Panicked`, not in `ErrRespNotMatch`. The
  deferred cleanup runs during the panic with `err` still nil, so it does not close the
  connection. `Connect`'s contract states that `RespNotMatch` can only come from a
  collaborator.
- **The 3.0 status is truncated.** It is cut to a byte at client.go:81, so only its low eight
  bits decide (`LowByteDecides`, `Status256LogsIn`).
- **An unmapped status returns nil.** A non-zero status that is not a key of the table looks
  up Go's nil, so an unmapped non-zero code yields no error at all. `Connect` then returns nil
  while the connection stays `Connected` and open.
- **The mismatch return is unreachable.** The `ErrRespNotMatch` return at client.go:85-86 is
  never reached, because a wrong variant panics first.

## Model

| member | source | states |
|---|---|---|
| `Session.Client.NewClient` | vendor/github.com/bigwhite/gocmpp/client.go:33-37 | a new client has the given version and no connection; `typ` is a `const`, so nothing reassigns it |
| `Session.Client.Connect` | vendor/github.com/bigwhite/gocmpp/client.go:41-96 | a failed dial returns its error and leaves `conn` as it was. Otherwise the client owns a fresh connection that drew exactly one id (0). The connection enters Connected before the login request `ConnReq(user, password, typ)` is written. AuthOk is reached iff the expected variant arrives with low status byte 0. Every error return after the dial closes the connection, and no other path closes it. A wrong variant panics without closing. A rejected status returns the table's entry, or nil for a missing key. The final state is Closed after an error return, AuthOk after a login, and Connected otherwise (the panic, an unmapped status). RespNotMatch is never produced by Connect itself |
| `Session.Handshake` | vendor/github.com/bigwhite/gocmpp/client.go:72-95 | the verdict is a nil dereference iff the variant is wrong; it authenticates iff the expected variant carries status 0 mod 256; otherwise it rejects with the table lookup of the truncated status |
| `Session.LoginStatus` | vendor/github.com/bigwhite/gocmpp/client.go:74-82 | a status is read iff the packet is `Cmpp2ConnRsp` for V20/V21 or `Cmpp3ConnRsp` for every other version, and it equals the wire status mod 256 |
| `Session.StatusError` | vendor/github.com/bigwhite/gocmpp/client.go:89-91 | Go's map index with a nil default: an error iff the status is a key of the table, and then exactly the table's entry. Connect and Handshake use it for a rejected status |
| `Session.LowByteDecides` | vendor/github.com/bigwhite/gocmpp/client.go:79-81 | for a 3.0 client, a wide status and its low byte give the same verdict |
| `Session.Status256LogsIn` | vendor/github.com/bigwhite/gocmpp/client.go:81 | a 3.0 response with status 256 authenticates, because of the truncation |
| `Session.V2StatusUsedAsIs` | vendor/github.com/bigwhite/gocmpp/client.go:74-77 | for V20/V21 a one-byte status 0 authenticates and any other is rejected with its table entry |
| `Session.Client.Disconnect` | vendor/github.com/bigwhite/gocmpp/client.go:98-100 | the owned connection is closed (idempotently); nothing sent and no id is consumed |
| `Session.Client.SendReqPkt` | vendor/github.com/bigwhite/gocmpp/client.go:103-105 | exactly one fresh id is drawn (the counter's old value, which then advances); the packet is written under it iff the connection is open and the write does not fail; state is unchanged |
| `Session.Client.SendReqPktWithSeqId` | vendor/github.com/bigwhite/gocmpp/client.go:107-110 | as SendReqPkt, and the returned id is the one drawn and the one the frame carries |
| `Session.Client.SendRspPkt` | vendor/github.com/bigwhite/gocmpp/client.go:113-115 | the frame carries the caller's id and the sequence-id source is untouched |
| `Session.Client.RecvAndUnpackPkt` | vendor/github.com/bigwhite/gocmpp/client.go:118-120 | returns what the connection's receive yields and changes nothing |
| `Connection.Conn.constructor` | vendor/github.com/bigwhite/gocmpp/client.go:47 | a new connection is in Init, not closed (the transport is held), has sent nothing and its id counter is at 0 |
| `Connection.Conn.SetState` | vendor/github.com/bigwhite/gocmpp/client.go:53 | the state becomes the given one and the change is recorded in order |
| `Connection.Conn.NextSeqId` | vendor/github.com/bigwhite/gocmpp/client.go:108 | the id returned is the counter's value, the counter advances mod 2^32, and the source stays a counter from zero |
| `Connection.Conn.SendPkt` | vendor/github.com/bigwhite/gocmpp/client.go:114 | the frame is appended to the log iff the send succeeds; nothing else changes |
| `Connection.Conn.Close` | vendor/github.com/bigwhite/gocmpp/client.go:48-52 | the connection ends Closed with its transport released, and a second close releases nothing more |
| `Connection.SendResult` | vendor/github.com/bigwhite/gocmpp/client.go:104 | the abstract send's legality rule: a send succeeds iff the connection is Connected or AuthOk and the transport reports no error; a send before dialling or after closing fails with IllegalState. Conn.SendPkt and the client's send helpers are stated through it |
| `Connection.DrawnDistinct` | vendor/github.com/bigwhite/gocmpp/client.go:103-110 | while at most 2^32 ids have been drawn from a connection that has not been closed, they are pairwise distinct |
| `SeqIds.Next` | vendor/github.com/bigwhite/gocmpp/client.go:108 | the next counter value is the current one plus one mod 2^32, and it is 0 exactly after 2^32-1 |
| `SeqIds.Issue` | vendor/github.com/bigwhite/gocmpp/client.go:104 | n draws from a counter at `start` give n ids, the k-th being start + k mod 2^32 |
| `SeqIds.IssueSnoc` | vendor/github.com/bigwhite/gocmpp/client.go:103-110 | one more draw appends the counter's next value to the ids handed out so far |
| `SeqIds.IssueDistinct` | vendor/github.com/bigwhite/gocmpp/client.go:103-110 | at most 2^32 consecutive draws are pairwise distinct |
| `SeqIds.WrapsAfterModulus` | vendor/github.com/bigwhite/gocmpp/client.go:108 | draw 2^32 + 1 repeats the first id: the counter wraps instead of failing |

## Left out

- Dialling (`net.DialTimeout`, the server address and the timeout) and all socket mechanics: the dial is an input that either fails with an error or succeeds.
- The internals of `Conn` (conn.go is not part of this model): `NewConn`, `SendPkt`, `RecvAndUnpackPkt`, `Close` and `SetState` are represented by the abstract `Conn` class. A send is legal only in Connected and AuthOk. `Close` is idempotent.
- Packet `Pack`/`Unpack` byte layouts and the login request's timestamp and authenticator: packets are tagged values with only the fields the session layer reads or sets.
- The goroutine and channel behind `SeqId`: modelled as a sequential counter starting at 0 that wraps mod 2^32. What a closed channel yields after `Close` is not modelled; every draw advances the counter.
- Connection.DrawnDistinct, Session.Client.SendReqPkt and Session.Client.SendReqPktWithSeqId: after `Close` the Go channel is closed and every further draw yields 0. The model's counter keeps advancing instead, so distinctness is promised only for ids drawn before the connection is closed.
- Concurrency between senders and receivers on one connection: the model is sequential.
- Timeouts and blocking in receive (`RecvAndUnpackPkt(0)` waits indefinitely): the received packet or receive error is an input.
- The contents of `ConnRspStatusErrMap`: the table is an input map, and the values of V20, V21 and V30 (0x20, 0x21, 0x30) are taken as given because packet.go is not part of this model.
- Session.Client.Disconnect: requires a connection; calling it before `Connect` dereferences a nil `conn` in Go.
- Session.Client.SendReqPkt, SendReqPktWithSeqId, SendRspPkt and RecvAndUnpackPkt: require a connection, for the same reason.
- A write error does not change the connection's state; whatever conn.go does after a failed write is not modelled.
