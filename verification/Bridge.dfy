/** The packet loop of a socket: the reader and the handlers put together (tcpusb/socket.go). */
module Bridge {
  import opened Bytes
  import opened Packets
  import opened PacketStream
  import opened Connection

  /** The fields after a list of packets, handled one after the other. */
  function HandledAll(f: Fields, ps: seq<Packet>, env: nat -> Env): Fields {
    if ps == [] then f
    else HandledBy(HandledAll(f, ps[..|ps| - 1], env), ps[|ps| - 1], env(|ps| - 1)).0
  }

  datatype Stop = ReadStop | FormatStop | HandlerStop

  /**
   * Socket.Start.  However the stream is cut into reads, the packets handled are, in order, the first packets of
   * the one-shot parse of its bytes: all of them when the loop stopped at the end of a stream without read errors
   * or at malformed bytes.  The socket is left ended and its table empty.
   */
  method Start(events: seq<ReadEvent>, env: nat -> Env) returns (socket: Socket, ghost ps: seq<Packet>, stop: Stop)
    ensures socket.Valid() && socket.ended
    ensures socket.View() == HandledAll(NEW_FIELDS, ps, env).(ended := true, table := map[])
    ensures ps <= ParseAll(Delivered(events)).packets
    ensures stop.FormatStop? || (stop.ReadStop? && NoReadErrors(events)) ==> ps == ParseAll(Delivered(events)).packets
    ensures stop.FormatStop? ==> !ParseAll(Delivered(events)).ending.Incomplete?
  {
    hide HandledBy, HandledAll, ParseAll, ParseOne, Delivered, HeaderBytes, NoReadErrors, Socket.View, PacketReader.Input, PacketReader.Pending;
    var reader := new PacketReader(events);
    socket := new Socket();
    ps := [];
    NoneHandled(NEW_FIELDS, env);
    ghost var all := ParseAll(Delivered(events));
    ghost var input := reader.Input();
    var n := 0;
    while true
      invariant fresh(reader) && fresh(socket.Repr) && reader !in socket.Repr
      invariant reader.Valid() && socket.Valid() && !socket.ended && n == |ps| && input == reader.Input()
      invariant Ahead(all, ps, input)
      invariant socket.View() == HandledAll(NEW_FIELDS, ps, env)
      invariant NoReadErrors(events) ==> NoReadErrors(reader.stream)
      decreases |input|
    {
      var r := reader.ReadPacket();
      if !r.Got? {
        stop := if r.ReadError? then ReadStop else FormatStop;
        NothingAhead(all, ps, input);
        break;
      }
      var p := r.packet;
      OneAhead(all, ps, input, p, reader.Input());
      OneHandled(NEW_FIELDS, ps, p, env);
      input := reader.Input();
      var err := socket.Handle(p, env(n));
      ps := ps + [p];
      n := n + 1;
      if err != NoError {
        stop := HandlerStop;
        break;
      }
    }
    socket.End();
  }

  /** The packets `ps` are done and `input` is what is left of the stream. */
  ghost predicate Ahead(all: Trace, ps: seq<Packet>, input: seq<byte>) {
    all.packets == ps + ParseAll(input).packets && all.ending == ParseAll(input).ending
  }

  lemma OneAhead(all: Trace, ps: seq<Packet>, input: seq<byte>, p: Packet, rest: seq<byte>)
    requires Ahead(all, ps, input) && ParseOne(input) == Parsed(p, rest)
    ensures Ahead(all, ps + [p], rest)
  {
    hide ParseOne;
  }

  lemma NothingAhead(all: Trace, ps: seq<Packet>, input: seq<byte>)
    requires Ahead(all, ps, input)
    ensures !ParseOne(input).Parsed? ==> all.packets == ps && (all.ending.Incomplete? <==> ParseOne(input).NeedMore?)
  {
    hide ParseOne;
  }

  lemma NoneHandled(f: Fields, env: nat -> Env)
    ensures HandledAll(f, [], env) == f
  {
  }

  lemma OneHandled(f: Fields, ps: seq<Packet>, p: Packet, env: nat -> Env)
    ensures HandledAll(f, ps + [p], env) == HandledBy(HandledAll(f, ps, env), p, env(|ps|)).0
  {
    hide HandledBy;
    assert (ps + [p])[..|ps|] == ps;
  }
}
