/** A connection as a byte string followed by the error every later read meets, and io.ReadFull on it. */
module Conn {
  import opened Bytes

  datatype IoError = EOF | UnexpectedEOF | Broken

  datatype Full = Got(bytes: seq<byte>, rest: seq<byte>) | Failed(err: IoError)

  /** io.ReadFull: an end of file in the middle becomes ErrUnexpectedEOF, before the first byte it stays EOF. */
  function ReadFull(s: seq<byte>, n: nat, end: IoError): Full {
    if |s| >= n then Got(s[..n], s[n..])
    else if s != [] && end.EOF? then Failed(UnexpectedEOF)
    else Failed(end)
  }
}
