/** Values exchanged between the CMPP client and its collaborators: fixed-width
    integers, the protocol version tag, the packets the login handshake uses,
    and the errors the session layer can return. */
module Wire {

  newtype uint8 = x: int | 0 <= x < 0x100
  newtype uint32 = x: int | 0 <= x < 0x1_0000_0000

  /** The protocol version tag a client is created with (CMPP 2.0, 2.1, 3.0). */
  type Version = uint8

  const V20: Version := 0x20
  const V21: Version := 0x21
  const V30: Version := 0x30

  /** A Go `error` value; `None` in an `Option<Error>` is Go's nil. */
  datatype Error =
    | RespNotMatch          // ErrRespNotMatch
    | IllegalState          // a send on a connection that is not open
    | External(name: string) // dial, transport and login-status errors of collaborators

  datatype Option<T> = None | Some(value: T)

  datatype Result<T> = Ok(value: T) | Err(error: Error)

  /** The packets the session layer handles. Only the fields it reads or sets are kept:
      the login request's source address, secret and version, and the login
      responses' status (one byte in CMPP 2.x, four bytes in CMPP 3.0). */
  datatype Packet =
    | ConnReq(srcAddr: string, secret: string, version: Version)
    | Cmpp2ConnRsp(status: uint8)
    | Cmpp3ConnRsp(wideStatus: uint32)
    | Other(commandId: uint32)
}
