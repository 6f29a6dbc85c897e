/** The UDPR transfer of client_udpr.c, server_udpr.c and server_udp_udpr.c: stop-and-wait with retransmission. */
module Udpr {

  // One client with one session identifier talks to the server over a network that may lose, duplicate, delay and
  // reorder datagrams.  A transition is one datagram sent, one datagram received, or one timeout.  The network is
  // the set of all datagrams ever sent; a receive picks any of them.

  const BUFFER_SIZE: nat := 64000
  const MIN_DATA_LEN: nat := 1
  const MAX_DATA_LEN: nat := 64000
  const MAX_RETRANSMITS: nat := 5

  type byte = x: int | 0 <= x < 256

  datatype ToServer = Conn(dataLen: nat) | Data(number: nat, bytes: seq<byte>)

  datatype ToClient = ConAcc | Acc(number: nat) | Rjt(number: nat) | Rcvd

  /** Where the client stands; `Sent` means that it waits for the answer. */
  datatype ClientState =
    | Connect(attempts: nat)
    | ConnectSent(attempts: nat)
    | SendData(number: nat, offset: nat, attempts: nat)
    | DataSent(number: nat, offset: nat, attempts: nat)
    | WaitRcvd
    | Succeeded
    | Failed

  /** Where the server stands in `handle_udp_connection`; `waiting` means that it waits for a datagram.  In `Rest`,
      `number` is the number of the packet printed last, `readSize` and `dataLen` do not count the first packet. */
  datatype ServerState =
    | Listen
    | First(dataLen: nat, attempts: nat, waiting: bool)
    | Rest(dataLen: nat, readSize: nat, number: nat, attempts: nat, waiting: bool)
    | Finish

  /** The output of one server session: the bytes, and the numbers of the packets they came from. */
  datatype Session = Session(printed: seq<byte>, chunks: seq<nat>)

  /** `current` is the output of the server session that is running or ran last; `earlier` (the sessions before
      it) and `best` (the most bytes any session has printed) are history. */
  datatype State = State(
    client: ClientState, server: ServerState, toServer: set<ToServer>, toClient: set<ToClient>,
    current: Session, earlier: seq<Session>, best: nat)

  datatype Event =
    | ClientSends | ClientReceives(toClient: ToClient) | ClientTimesOut
    | ServerSends | ServerReceives(toServer: ToServer) | ServerTimesOut

  const INIT: State := State(Connect(0), Listen, {}, {}, Session([], []), [], 0)

  function Min(a: nat, b: nat): nat { if a < b then a else b }

  /** The end of packet `number` in the data. */
  function End(data: seq<byte>, number: nat): nat { Min((number + 1) * BUFFER_SIZE, |data|) }

  // ---------------------------------------------------------------------------------------------
  // The client
  // ---------------------------------------------------------------------------------------------

  function ClientSend(data: seq<byte>, s: State): State {
    match s.client
    case Connect(attempts) => s.(client := ConnectSent(attempts), toServer := s.toServer + {Conn(|data|)})
    case SendData(number, offset, attempts) =>
      if offset > |data| then s
      else
        var chunkSize := if |data| - offset > BUFFER_SIZE then BUFFER_SIZE else |data| - offset;
        s.(client := DataSent(number, offset, attempts),
           toServer := s.toServer + {Data(number, data[offset..offset + chunkSize])})
    case _ => s
  }

  function NextPacket(data: seq<byte>, number: nat, offset: nat): ClientState {
    if offset < |data| then SendData(number, offset, 0) else WaitRcvd
  }

  function ClientReceive(data: seq<byte>, s: State, m: ToClient): State {
    match s.client
    case ConnectSent(_) => s.(client := if m.ConAcc? then NextPacket(data, 0, 0) else Failed)
    case DataSent(number, offset, attempts) =>
      if m.ConAcc? && number == 0 then s
      else if !m.Acc? then s.(client := Failed)
      else if m.number < number then s
      else if m.number != number then s.(client := Failed)
      else
        var chunkSize := if |data| - offset > BUFFER_SIZE then BUFFER_SIZE else |data| - offset;
        s.(client := if chunkSize < 0 then Failed else NextPacket(data, number + 1, offset + chunkSize))
    case WaitRcvd => s.(client := if m.Acc? then WaitRcvd else if m.Rcvd? then Succeeded else Failed)
    case _ => s
  }

  function ClientTimeout(s: State): State {
    match s.client
    case ConnectSent(attempts) =>
      s.(client := if attempts + 1 <= MAX_RETRANSMITS then Connect(attempts + 1) else Failed)
    case DataSent(number, offset, attempts) =>
      s.(client := if attempts + 1 <= MAX_RETRANSMITS then SendData(number, offset, attempts + 1) else Failed)
    case WaitRcvd => s.(client := Failed)
    case _ => s
  }

  // ---------------------------------------------------------------------------------------------
  // The server
  // ---------------------------------------------------------------------------------------------

  function ServerSend(s: State): State {
    match s.server
    case First(dataLen, attempts, false) =>
      s.(server := First(dataLen, attempts, true), toClient := s.toClient + {ConAcc})
    case Rest(dataLen, readSize, number, attempts, false) =>
      s.(server := if readSize == dataLen then Finish else Rest(dataLen, readSize, number, attempts, true),
         toClient := s.toClient + {Acc(number)})
    case Finish => s.(server := Listen, toClient := s.toClient + {Rcvd})
    case _ => s
  }

  datatype Verdict = Ignore | Accept | Reject

  /** The checks of `recv_data_packet_retr` on a datagram from the client. */
  function Check(expected: nat, readSize: nat, dataLen: nat, m: ToServer): Verdict {
    match m
    case Conn(_) => if expected == 0 then Ignore else Reject
    case Data(number, bytes) =>
      if |bytes| + readSize > dataLen then Reject
      else if |bytes| < MIN_DATA_LEN || |bytes| > MAX_DATA_LEN then Reject
      else if number < expected then Ignore
      else if number != expected then Reject
      else Accept
  }

  function Print(s: State, m: ToServer): State
    requires m.Data?
  {
    var printed := s.current.printed + m.bytes;
    s.(current := Session(printed, s.current.chunks + [m.number]),
       best := if |printed| > s.best then |printed| else s.best)
  }

  function ServerReceive(s: State, m: ToServer): State {
    match s.server
    case Listen =>
      if m.Conn? then
        s.(server := First(m.dataLen, 0, false), current := Session([], []), earlier := s.earlier + [s.current])
      else s
    case First(dataLen, attempts, true) =>
      (match Check(0, 0, dataLen, m)
       case Ignore => s
       case Reject => s.(server := Listen, toClient := s.toClient + {Rjt(0)})
       case Accept =>
         Print(s, m).(server := Rest(if |m.bytes| <= dataLen then dataLen - |m.bytes| else 0, 0, 0, 0, false)))
    case Rest(dataLen, readSize, number, attempts, true) =>
      (match Check(number + 1, readSize, dataLen, m)
       case Ignore => s
       case Reject => s.(server := Listen, toClient := s.toClient + {Rjt(number + 1)})
       case Accept => Print(s, m).(server := Rest(dataLen, readSize + |m.bytes|, number + 1, 0, false)))
    case _ => s
  }

  function ServerTimeout(s: State): State {
    match s.server
    case First(dataLen, attempts, true) =>
      s.(server := if attempts + 1 <= MAX_RETRANSMITS then First(dataLen, attempts + 1, false) else Listen)
    case Rest(dataLen, readSize, number, attempts, true) =>
      s.(server := if attempts + 1 <= MAX_RETRANSMITS then Rest(dataLen, readSize, number, attempts + 1, false)
                   else Listen)
    case _ => s
  }

  function Step(data: seq<byte>, s: State, e: Event): State {
    match e
    case ClientSends => ClientSend(data, s)
    case ClientReceives(m) => if m in s.toClient then ClientReceive(data, s, m) else s
    case ClientTimesOut => ClientTimeout(s)
    case ServerSends => ServerSend(s)
    case ServerReceives(m) => if m in s.toServer then ServerReceive(s, m) else s
    case ServerTimesOut => ServerTimeout(s)
  }

  function Run(data: seq<byte>, events: seq<Event>): State {
    if |events| == 0 then INIT else Step(data, Run(data, events[..|events| - 1]), events[|events| - 1])
  }

  // ---------------------------------------------------------------------------------------------
  // The invariant
  // ---------------------------------------------------------------------------------------------

  ghost predicate ClientOk(data: seq<byte>, s: State) {
    match s.client
    case SendData(number, offset, _) => offset == number * BUFFER_SIZE < |data| && (number > 0 ==> s.best >= offset)
    case DataSent(number, offset, _) => offset == number * BUFFER_SIZE < |data| && (number > 0 ==> s.best >= offset)
    case WaitRcvd => s.best == |data|
    case Succeeded => s.best == |data|
    case _ => true
  }

  ghost predicate NetworkOk(data: seq<byte>, s: State) {
    && (forall m :: m in s.toServer ==>
          match m
          case Conn(dataLen) => dataLen == |data|
          case Data(number, bytes) =>
            number * BUFFER_SIZE < |data| && bytes == data[number * BUFFER_SIZE..End(data, number)])
    && (forall m :: m in s.toClient ==>
          match m
          case Acc(number) => s.best >= End(data, number)
          case Rcvd => s.best == |data|
          case _ => true)
  }

  /** A session prints packets 0, 1, 2, ... in this order, and so a prefix of the data. */
  ghost predicate SessionOk(data: seq<byte>, best: nat, x: Session) {
    && |x.printed| <= best && x.printed <= data
    && (forall k :: 0 <= k < |x.chunks| ==> x.chunks[k] == k)
    && (|x.printed| > 0 <==> |x.chunks| > 0)
  }

  ghost predicate ServerOk(data: seq<byte>, s: State) {
    && s.best <= |data| && SessionOk(data, s.best, s.current)
    && (forall i :: 0 <= i < |s.earlier| ==> SessionOk(data, s.best, s.earlier[i]))
    && (|s.current.printed| == s.best || exists i :: 0 <= i < |s.earlier| && |s.earlier[i].printed| == s.best)
    && match s.server
       case First(dataLen, _, _) => dataLen == |data| && s.current == Session([], [])
       case Rest(dataLen, readSize, number, _, _) =>
         && |s.current.printed| == End(data, number) && |s.current.chunks| == number + 1
         && number * BUFFER_SIZE < |data|
         && |data| - dataLen == |s.current.printed| - readSize
       case Finish => s.current.printed == data
       case Listen => true
  }

  ghost predicate Inv(data: seq<byte>, s: State) { ClientOk(data, s) && NetworkOk(data, s) && ServerOk(data, s) }

  lemma ClientReceiveInv(data: seq<byte>, s: State, m: ToClient)
    requires Inv(data, s) && m in s.toClient
    ensures Inv(data, ClientReceive(data, s, m))
  {
  }

  lemma ClientInv(data: seq<byte>, s: State, e: Event)
    requires Inv(data, s) && (e.ClientSends? || e.ClientTimesOut?)
    ensures Inv(data, Step(data, s, e))
  {
  }

  /** A CONN that is accepted ends the current session and starts the next one. */
  lemma ServerAcceptsInv(data: seq<byte>, s: State, m: ToServer)
    requires Inv(data, s) && m in s.toServer && s.server.Listen? && m.Conn?
    ensures Inv(data, ServerReceive(s, m))
  {
    var s' := ServerReceive(s, m);
    assert s'.earlier[|s.earlier|] == s.current;
    if |s.current.printed| != s.best {
      var i :| 0 <= i < |s.earlier| && |s.earlier[i].printed| == s.best;
      assert s'.earlier[i] == s.earlier[i];
    }
  }

  /** The expected packet extends what has been printed by exactly its own bytes. */
  lemma PrintInv(data: seq<byte>, s: State, m: ToServer)
    requires Inv(data, s) && m in s.toServer && m.Data? && m.number == |s.current.chunks|
    requires |s.current.printed| == m.number * BUFFER_SIZE
    ensures var s' := Print(s, m);
            && ClientOk(data, s') && NetworkOk(data, s') && |s'.current.printed| == End(data, m.number) <= s'.best
            && s'.best <= |data| && SessionOk(data, s'.best, s'.current)
            && (forall i :: 0 <= i < |s.earlier| ==> SessionOk(data, s'.best, s.earlier[i]))
            && (|s'.current.printed| == s'.best || s'.best == s.best)
  {
    var from, to := m.number * BUFFER_SIZE, End(data, m.number);
    assert data[..from] + data[from..to] == data[..to];
  }

  lemma FirstPacketInv(data: seq<byte>, s: State, m: ToServer)
    requires Inv(data, s) && m in s.toServer && s.server.First? && s.server.waiting
    requires Check(0, 0, s.server.dataLen, m).Accept?
    ensures Inv(data, ServerReceive(s, m))
  {
    PrintInv(data, s, m);
  }

  lemma NextPacketInv(data: seq<byte>, s: State, m: ToServer)
    requires Inv(data, s) && m in s.toServer && s.server.Rest? && s.server.waiting
    requires Check(s.server.number + 1, s.server.readSize, s.server.dataLen, m).Accept?
    ensures Inv(data, ServerReceive(s, m))
  {
    PrintInv(data, s, m);
  }

  /** A datagram that is ignored or rejected changes no output. */
  lemma NoPrintInv(data: seq<byte>, s: State, s': State)
    requires Inv(data, s) && s'.server in {s.server, Listen}
    requires s' == s.(server := s'.server, toClient := s'.toClient)
    requires forall m :: m in s'.toClient ==> m in s.toClient || m.Rjt?
    ensures Inv(data, s')
  {
  }

  lemma ServerReceiveInv(data: seq<byte>, s: State, m: ToServer)
    requires Inv(data, s) && m in s.toServer && !(s.server.Listen? && m.Conn?)
    ensures Inv(data, ServerReceive(s, m))
  {
    hide Inv, Check, Print;
    if s.server.First? && s.server.waiting && Check(0, 0, s.server.dataLen, m).Accept? {
      FirstPacketInv(data, s, m);
    } else if s.server.Rest? && s.server.waiting
              && Check(s.server.number + 1, s.server.readSize, s.server.dataLen, m).Accept? {
      NextPacketInv(data, s, m);
    } else {
      NoPrintInv(data, s, ServerReceive(s, m));
    }
  }

  lemma ServerInv(data: seq<byte>, s: State, e: Event)
    requires Inv(data, s) && (e.ServerSends? || e.ServerTimesOut?)
    ensures Inv(data, Step(data, s, e))
  {
  }

  lemma {:induction false} RunInv(data: seq<byte>, events: seq<Event>)
    ensures Inv(data, Run(data, events))
  {
    if |events| > 0 {
      RunInv(data, events[..|events| - 1]);
      var s, e := Run(data, events[..|events| - 1]), events[|events| - 1];
      match e {
        case ServerReceives(m) =>
          if m in s.toServer {
            if s.server.Listen? && m.Conn? { ServerAcceptsInv(data, s, m); } else { ServerReceiveInv(data, s, m); }
          }
        case ClientReceives(m) => if m in s.toClient { ClientReceiveInv(data, s, m); }
        case ServerSends => ServerInv(data, s, e);
        case ServerTimesOut => ServerInv(data, s, e);
        case _ => ClientInv(data, s, e);
      }
    }
  }

  // ---------------------------------------------------------------------------------------------
  // What a user can rely on
  // ---------------------------------------------------------------------------------------------

  function Sessions(s: State): seq<Session> { s.earlier + [s.current] }

  /** Whatever the network does, every server session prints a prefix of the client's data, packet by packet in
      order and each packet once. */
  lemma SessionsPrintPrefixes(data: seq<byte>, events: seq<Event>, i: nat)
    requires i < |Sessions(Run(data, events))|
    ensures var x := Sessions(Run(data, events))[i];
            x.printed <= data && forall k :: 0 <= k < |x.chunks| ==> x.chunks[k] == k
  {
    RunInv(data, events);
  }

  /** All of the data has been printed, by one session. */
  ghost predicate AllPrinted(data: seq<byte>, s: State) { exists x :: x in Sessions(s) && x.printed == data }

  lemma BestIsAll(data: seq<byte>, s: State)
    requires Inv(data, s) && s.best == |data|
    ensures AllPrinted(data, s)
  {
    assert Sessions(s)[|s.earlier|] == s.current;
    if |s.current.printed| != s.best {
      var i :| 0 <= i < |s.earlier| && |s.earlier[i].printed| == s.best;
      assert Sessions(s)[i] == s.earlier[i];
    }
  }

  /** RCVD is only ever sent after the server has printed everything; and when the client leaves its send loop
      successfully, the server has printed everything, whatever was lost, duplicated or reordered. */
  lemma SuccessMeansPrinted(data: seq<byte>, events: seq<Event>)
    ensures var s := Run(data, events);
            && (Rcvd in s.toClient ==> AllPrinted(data, s))
            && (s.client.WaitRcvd? || s.client.Succeeded? ==> AllPrinted(data, s))
            && (s.server.Finish? ==> s.current.printed == data)
  {
    RunInv(data, events);
    var s := Run(data, events);
    if s.best == |data| {
      BestIsAll(data, s);
    }
  }

  /** Some packet has been printed by two different sessions. */
  ghost predicate PrintedTwice(s: State) {
    exists i, j, c :: 0 <= i < j < |Sessions(s)| && c in Sessions(s)[i].chunks && c in Sessions(s)[j].chunks
  }

  /** Packets are printed from number 0 on, so two sessions share a packet if both print anything. */
  lemma PrintedTwiceIffTwoSessionsPrint(data: seq<byte>, events: seq<Event>)
    ensures var s := Run(data, events);
            PrintedTwice(s) <==>
              exists i, j :: 0 <= i < j < |Sessions(s)| && Sessions(s)[i].printed != [] && Sessions(s)[j].printed != []
  {
    RunInv(data, events);
    var s := Run(data, events);
    var xs := Sessions(s);
    forall i | 0 <= i < |xs| ensures SessionOk(data, s.best, xs[i]) && (xs[i].printed != [] ==> 0 in xs[i].chunks) {
      assert SessionOk(data, s.best, xs[i]);
      if xs[i].printed != [] { assert xs[i].chunks[0] == 0; }
    }
    if i, j :| 0 <= i < j < |xs| && xs[i].printed != [] && xs[j].printed != [] {
      assert 0 in xs[i].chunks && 0 in xs[j].chunks;
    }
  }

  // ---------------------------------------------------------------------------------------------
  // A transfer over a network that loses some datagrams of the client and delivers all others once
  // ---------------------------------------------------------------------------------------------

  /** The client sends and waits in vain, as often as given. */
  function Losses(lost: nat): seq<Event> {
    if lost == 0 then [] else Losses(lost - 1) + [ClientSends, ClientTimesOut]
  }

  function Chunk(data: seq<byte>, number: nat): seq<byte>
    requires number * BUFFER_SIZE <= |data|
  {
    data[number * BUFFER_SIZE..End(data, number)]
  }

  /** The events around the delivery of one packet, without losses. */
  function Delivery(data: seq<byte>, number: nat): seq<Event>
    requires number * BUFFER_SIZE <= |data|
  {
    [ClientSends, ServerReceives(Data(number, Chunk(data, number))), ServerSends, ClientReceives(Acc(number))]
  }

  function Packets(data: seq<byte>, lost: nat, number: nat): seq<Event>
    decreases |data| - number * BUFFER_SIZE
  {
    if number * BUFFER_SIZE >= |data| then []
    else
      Losses(lost) + Delivery(data, number) + Packets(data, lost, number + 1)
  }

  function Opening(data: seq<byte>, lost: nat): seq<Event> {
    Losses(lost) + [ClientSends, ServerReceives(Conn(|data|)), ServerSends, ClientReceives(ConAcc)]
  }

  /** Of each datagram of the client the first `lost` copies get lost; the next copy, and every answer of the server,
      is delivered once, and before anything else is sent. */
  function Transfer(data: seq<byte>, lost: nat): seq<Event> {
    Opening(data, lost) + Packets(data, lost, 0) + [ServerSends, ClientReceives(Rcvd)]
  }

  lemma TwoEvents(data: seq<byte>, events: seq<Event>, e1: Event, e2: Event)
    ensures Run(data, events + [e1, e2]) == Step(data, Step(data, Run(data, events), e1), e2)
  {
    hide Step;
    var more := events + [e1, e2];
    assert more[..|more| - 1] == events + [e1];
    assert (events + [e1])[..|events|] == events;
  }

  lemma FourEvents(data: seq<byte>, events: seq<Event>, e1: Event, e2: Event, e3: Event, e4: Event)
    ensures Run(data, events + [e1, e2, e3, e4])
            == Step(data, Step(data, Step(data, Step(data, Run(data, events), e1), e2), e3), e4)
  {
    hide Step, Run;
    TwoEvents(data, events, e1, e2);
    TwoEvents(data, events + [e1, e2], e3, e4);
    assert events + [e1, e2] + [e3, e4] == events + [e1, e2, e3, e4];
  }

  /** The client state with another number of attempts. */
  function Trying(c: ClientState, attempts: nat): ClientState {
    match c
    case Connect(_) => Connect(attempts)
    case SendData(number, offset, _) => SendData(number, offset, attempts)
    case _ => c
  }

  lemma LossStep(data: seq<byte>, s: State)
    requires s.client.Connect? || (s.client.SendData? && s.client.offset <= |data|) || s.client.Failed?
    requires !s.client.Failed? ==> s.client.attempts <= MAX_RETRANSMITS
    ensures var s' := Step(data, Step(data, s, ClientSends), ClientTimesOut);
            && s' == s.(client := s'.client, toServer := s'.toServer)
            && s'.client == (if s.client.Failed? || s.client.attempts == MAX_RETRANSMITS then Failed
                             else Trying(s.client, s.client.attempts + 1))
  {
  }

  /** After at most `MAX_RETRANSMITS` losses the client is still trying, and after more it has given up. */
  lemma {:induction false} AfterLosses(data: seq<byte>, events: seq<Event>, lost: nat)
    requires var c := Run(data, events).client;
             (c.Connect? || (c.SendData? && c.offset <= |data|)) && c.attempts == 0
    ensures var s, s' := Run(data, events), Run(data, events + Losses(lost));
            && s' == s.(client := s'.client, toServer := s'.toServer)
            && s'.client == (if lost <= MAX_RETRANSMITS then Trying(s.client, lost) else Failed)
  {
    hide Step, Run;
    if lost == 0 {
      assert events + Losses(lost) == events;
    } else {
      AfterLosses(data, events, lost - 1);
      LossStep(data, Run(data, events + Losses(lost - 1)));
      TwoEvents(data, events + Losses(lost - 1), ClientSends, ClientTimesOut);
      assert events + Losses(lost) == events + Losses(lost - 1) + [ClientSends, ClientTimesOut];
    }
  }

  function Numbers(n: nat): seq<nat> { seq(n, i => i) }

  /** The server has printed the packets below `number` and waits for the next one, which the client will send. */
  ghost predicate Before(data: seq<byte>, s: State, number: nat) {
    var offset := number * BUFFER_SIZE;
    && offset < |data|
    && s.client == SendData(number, offset, 0)
    && s.server == (if number == 0 then First(|data|, 0, true)
                    else Rest(|data| - BUFFER_SIZE, offset - BUFFER_SIZE, number - 1, 0, true))
    && s.current == Session(data[..offset], Numbers(number)) && s.earlier == [Session([], [])]
  }

  ghost predicate Transferred(data: seq<byte>, s: State, number: nat) {
    && s.client == WaitRcvd && s.server == Finish
    && s.current == Session(data, Numbers(number)) && s.earlier == [Session([], [])]
  }

  lemma OpeningStep(data: seq<byte>, s: State, attempts: nat)
    requires |data| > 0 && s.client == Connect(attempts) && s.server == Listen && s.current == Session([], [])
    requires s.earlier == []
    ensures Before(data, Step(data, Step(data, Step(data, Step(data, s, ClientSends), ServerReceives(Conn(|data|))),
                                         ServerSends), ClientReceives(ConAcc)), 0)
  {
    var s1 := ClientSend(data, s);
    assert Conn(|data|) in s1.toServer;
    assert [] + [s.current] == [Session([], [])];
  }

  lemma Opened(data: seq<byte>, lost: nat)
    requires |data| > 0 && lost <= MAX_RETRANSMITS
    ensures Before(data, Run(data, Opening(data, lost)), 0)
  {
    hide Step, Before;
    AfterLosses(data, [], lost);
    assert [] + Losses(lost) == Losses(lost);
    FourEvents(data, Losses(lost), ClientSends, ServerReceives(Conn(|data|)), ServerSends, ClientReceives(ConAcc));
    OpeningStep(data, Run(data, Losses(lost)), lost);
  }

  /** The server prints the packet that it waits for, and the client goes on to the next one. */
  lemma PacketStep(data: seq<byte>, s: State, number: nat, attempts: nat)
    requires Before(data, s.(client := SendData(number, number * BUFFER_SIZE, 0)), number)
    requires s.client == SendData(number, number * BUFFER_SIZE, attempts)
    ensures var m := Data(number, Chunk(data, number));
            var s' := Step(data, Step(data, Step(data, Step(data, s, ClientSends), ServerReceives(m)), ServerSends),
                           ClientReceives(Acc(number)));
            if End(data, number) < |data| then Before(data, s', number + 1) else Transferred(data, s', number + 1)
  {
    var from, to := number * BUFFER_SIZE, End(data, number);
    var m := Data(number, data[from..to]);
    assert data[..from] + data[from..to] == data[..to];
    assert Numbers(number) + [number] == Numbers(number + 1);
    var s1 := ClientSend(data, s);
    assert m in s1.toServer && s1.client == DataSent(number, from, attempts);
    var s2 := ServerReceive(s1, m);
    assert s2.current == Session(data[..to], Numbers(number + 1));
    assert to == |data| ==> data[..to] == data;
  }

  lemma Delivered(data: seq<byte>, lost: nat, events: seq<Event>, number: nat)
    requires lost <= MAX_RETRANSMITS && number * BUFFER_SIZE < |data| && Before(data, Run(data, events), number)
    ensures var s := Run(data, events + Losses(lost) + Delivery(data, number));
            if End(data, number) < |data| then Before(data, s, number + 1) else Transferred(data, s, number + 1)
  {
    hide Run, Transferred, Step, Losses;
    var m := Data(number, Chunk(data, number));
    AfterLosses(data, events, lost);
    FourEvents(data, events + Losses(lost), ClientSends, ServerReceives(m), ServerSends, ClientReceives(Acc(number)));
    PacketStep(data, Run(data, events + Losses(lost)), number, lost);
  }

  lemma {:induction false} PacketsTransferred(data: seq<byte>, lost: nat, events: seq<Event>, number: nat)
    requires lost <= MAX_RETRANSMITS && number * BUFFER_SIZE < |data| && Before(data, Run(data, events), number)
    ensures exists n :: Transferred(data, Run(data, events + Packets(data, lost, number)), n)
    decreases |data| - number * BUFFER_SIZE
  {
    hide Run, Before, Transferred, Losses, Delivery;
    var more := events + Losses(lost) + Delivery(data, number);
    Delivered(data, lost, events, number);
    assert events + Packets(data, lost, number) == more + Packets(data, lost, number + 1);
    if End(data, number) < |data| {
      PacketsTransferred(data, lost, more, number + 1);
    } else {
      assert more + Packets(data, lost, number + 1) == more;
    }
  }

  lemma {:induction false} StaysFailed(data: seq<byte>, events: seq<Event>, more: seq<Event>)
    requires Run(data, events).client.Failed?
    ensures Run(data, events + more).client.Failed?
  {
    if |more| == 0 {
      assert events + more == events;
    } else {
      StaysFailed(data, events, more[..|more| - 1]);
      assert (events + more)[..|events + more| - 1] == events + more[..|more| - 1];
    }
  }

  lemma TooManyLosses(data: seq<byte>, lost: nat)
    requires lost > MAX_RETRANSMITS
    ensures Run(data, Transfer(data, lost)).client.Failed?
  {
    AfterLosses(data, [], lost);
    hide Step;
    var losses := Losses(lost);
    assert [] + losses == losses;
    StaysFailed(data, losses, Transfer(data, lost)[|losses|..]);
    assert losses + Transfer(data, lost)[|losses|..] == Transfer(data, lost);
  }

  lemma ClosingStep(data: seq<byte>, s: State, n: nat)
    requires Transferred(data, s, n)
    ensures var s' := Step(data, Step(data, s, ServerSends), ClientReceives(Rcvd));
            && s'.client == Succeeded && s'.server == Listen
            && Sessions(s') == [Session([], []), Session(data, Numbers(n))]
  {
  }

  /** Exactly up to `MAX_RETRANSMITS` losses of each datagram the transfer succeeds; the server has then printed all
      of the data in one session, packet by packet, and listens again. */
  lemma TransferSucceedsIff(data: seq<byte>, lost: nat)
    requires |data| > 0
    ensures var s := Run(data, Transfer(data, lost));
            && (s.client.Succeeded? <==> lost <= MAX_RETRANSMITS)
            && (lost <= MAX_RETRANSMITS ==>
                  && s.server == Listen && |Sessions(s)| == 2 && Sessions(s)[0].printed == []
                  && Sessions(s)[1].printed == data
                  && forall k :: 0 <= k < |Sessions(s)[1].chunks| ==> Sessions(s)[1].chunks[k] == k)
  {
    hide Run, Step, Opening, Packets, Losses, Before, Transferred, Sessions;
    var opening, packets := Opening(data, lost), Packets(data, lost, 0);
    if lost <= MAX_RETRANSMITS {
      Opened(data, lost);
      PacketsTransferred(data, lost, opening, 0);
      var n :| Transferred(data, Run(data, opening + packets), n);
      TwoEvents(data, opening + packets, ServerSends, ClientReceives(Rcvd));
      ClosingStep(data, Run(data, opening + packets), n);
    } else {
      TooManyLosses(data, lost);
    }
  }

  /** With nothing to send no packet is ever printed, and no RCVD is ever sent. */
  predicate NothingFinished(s: State) { !s.server.Rest? && !s.server.Finish? && Rcvd !in s.toClient }

  lemma NothingStep(s: State, e: Event)
    requires Inv([], s) && NothingFinished(s) && !s.client.Succeeded?
    ensures NothingFinished(Step([], s, e)) && !Step([], s, e).client.Succeeded?
  {
  }

  lemma {:induction false} NothingToSend(events: seq<Event>)
    ensures NothingFinished(Run([], events)) && !Run([], events).client.Succeeded?
  {
    if |events| > 0 {
      hide Step, Inv;
      NothingToSend(events[..|events| - 1]);
      RunInv([], events[..|events| - 1]);
      NothingStep(Run([], events[..|events| - 1]), events[|events| - 1]);
    }
  }

  /** The client can succeed exactly if it has something to send. */
  lemma SuccessIsPossibleIff(data: seq<byte>)
    ensures (exists events :: Run(data, events).client.Succeeded?) <==> |data| > 0
  {
    if |data| > 0 {
      TransferSucceedsIff(data, 0);
    } else {
      forall events ensures !Run(data, events).client.Succeeded? { NothingToSend(events); }
    }
  }

  // ---------------------------------------------------------------------------------------------
  // When the server prints a packet twice
  // ---------------------------------------------------------------------------------------------

  /** The guard under which the server starts a session: it listens and receives a CONN. */
  predicate StartsSession(s: State, e: Event) {
    s.server.Listen? && e.ServerReceives? && e.toServer in s.toServer && e.toServer.Conn?
  }

  /** The guard under which the server prints the first packet of a session: it has sent CONACC, waits for the packet
      with number 0, and the datagram passes the checks. */
  predicate AcceptsFirst(s: State, e: Event) {
    && s.server.First? && s.server.waiting && e.ServerReceives? && e.toServer in s.toServer
    && Check(0, 0, s.server.dataLen, e.toServer).Accept?
  }

  predicate SessionStarted(data: seq<byte>, events: seq<Event>, k: nat)
    requires k < |events|
  {
    StartsSession(Run(data, events[..k]), events[k])
  }

  predicate FirstAccepted(data: seq<byte>, events: seq<Event>, k: nat)
    requires k < |events|
  {
    AcceptsFirst(Run(data, events[..k]), events[k])
  }

  /** The number of marked positions. */
  function Count(marks: seq<bool>): nat {
    if |marks| == 0 then 0 else Count(marks[..|marks| - 1]) + if marks[|marks| - 1] then 1 else 0
  }

  lemma CountMore(marks: seq<bool>, b: bool)
    ensures Count(marks + [b]) == Count(marks) + if b then 1 else 0
  {
    assert (marks + [b])[..|marks|] == marks;
  }

  lemma {:induction false} SomeMark(marks: seq<bool>)
    ensures Count(marks) >= 1 <==> exists i :: 0 <= i < |marks| && marks[i]
  {
    if |marks| > 0 {
      var front := marks[..|marks| - 1];
      SomeMark(front);
      assert forall i :: 0 <= i < |front| ==> front[i] == marks[i];
    }
  }

  lemma {:induction false} TwoMarks(marks: seq<bool>)
    ensures Count(marks) >= 2 <==> exists i, j :: 0 <= i < j < |marks| && marks[i] && marks[j]
  {
    if |marks| > 0 {
      var front := marks[..|marks| - 1];
      SomeMark(front);
      TwoMarks(front);
      assert forall i :: 0 <= i < |front| ==> front[i] == marks[i];
    }
  }

  /** The events at which the server started a session. */
  function Starts(data: seq<byte>, events: seq<Event>): seq<bool> {
    seq(|events|, k requires 0 <= k < |events| => SessionStarted(data, events, k))
  }

  /** The events at which the server accepted the first packet of a session. */
  function Firsts(data: seq<byte>, events: seq<Event>): seq<bool> {
    seq(|events|, k requires 0 <= k < |events| => FirstAccepted(data, events, k))
  }

  /** The sessions that have printed something. */
  function Printing(xs: seq<Session>): seq<bool> {
    seq(|xs|, i requires 0 <= i < |xs| => xs[i].printed != [])
  }

  lemma OneMoreEvent(data: seq<byte>, events: seq<Event>)
    requires |events| > 0
    ensures var front, s, e := events[..|events| - 1], Run(data, events[..|events| - 1]), events[|events| - 1];
            && Starts(data, events) == Starts(data, front) + [StartsSession(s, e)]
            && Firsts(data, events) == Firsts(data, front) + [AcceptsFirst(s, e)]
  {
    hide Run, StartsSession, AcceptsFirst;
    var front := events[..|events| - 1];
    forall k | 0 <= k < |front| ensures events[..k] == front[..k] && events[k] == front[k] { }
  }

  /** What one event does to the sessions: a new one begins, the current one prints its first packet, or no session
      changes from silent to printing. */
  lemma SessionsStep(data: seq<byte>, s: State, e: Event)
    requires Inv(data, s)
    ensures var s' := Step(data, s, e);
            && s'.earlier == (if StartsSession(s, e) then s.earlier + [s.current] else s.earlier)
            && (StartsSession(s, e) ==> s'.current.printed == [])
            && (AcceptsFirst(s, e) ==> s.current.printed == [] != s'.current.printed)
            && (!StartsSession(s, e) && !AcceptsFirst(s, e) ==> (s'.current.printed == [] <==> s.current.printed == []))
  {
    hide ClientOk, NetworkOk;
  }

  lemma CountOfSessions(earlier: seq<Session>, current: Session)
    ensures Count(Printing(earlier + [current])) == Count(Printing(earlier)) + if current.printed != [] then 1 else 0
  {
    assert Printing(earlier + [current]) == Printing(earlier) + [current.printed != []];
    CountMore(Printing(earlier), current.printed != []);
  }

  /** As many sessions have printed something as first packets have been accepted. */
  lemma {:induction false} PrintingSessionsAreFirsts(data: seq<byte>, events: seq<Event>)
    ensures Count(Printing(Sessions(Run(data, events)))) == Count(Firsts(data, events))
  {
    if |events| == 0 {
      CountOfSessions([], INIT.current);
    } else {
      var front, e := events[..|events| - 1], events[|events| - 1];
      var s, s' := Run(data, front), Run(data, events);
      PrintingSessionsAreFirsts(data, front);
      RunInv(data, front);
      SessionsStep(data, s, e);
      OneMoreEvent(data, events);
      CountMore(Firsts(data, front), AcceptsFirst(s, e));
      CountOfSessions(s.earlier, s.current);
      CountOfSessions(s'.earlier, s'.current);
    }
  }

  /** Before the first CONN the server only listens, and the output from that time is empty. */
  ghost predicate SilentBefore(s: State) {
    if |s.earlier| == 0 then s.server == Listen && s.current.printed == [] else s.earlier[0].printed == []
  }

  lemma SilentStep(data: seq<byte>, s: State, e: Event)
    requires SilentBefore(s)
    ensures SilentBefore(Step(data, s, e))
  {
  }

  /** Each session but the silent one from before any CONN has been started by a CONN. */
  lemma {:induction false} SessionsAreStarts(data: seq<byte>, events: seq<Event>)
    ensures |Run(data, events).earlier| == Count(Starts(data, events)) && SilentBefore(Run(data, events))
  {
    if |events| > 0 {
      hide Step, StartsSession, Inv, SilentBefore;
      var front, e := events[..|events| - 1], events[|events| - 1];
      var s := Run(data, front);
      SessionsAreStarts(data, front);
      RunInv(data, front);
      SessionsStep(data, s, e);
      OneMoreEvent(data, events);
      CountMore(Starts(data, front), StartsSession(s, e));
      SilentStep(data, s, e);
    }
  }

  /** A packet is printed twice exactly when the server has, in two sessions, got a datagram that passes the checks
      while it waited for the first packet. */
  lemma PrintedTwiceIffFirstAcceptedTwice(data: seq<byte>, events: seq<Event>)
    ensures PrintedTwice(Run(data, events)) <==>
              exists i, j :: 0 <= i < j < |events| && FirstAccepted(data, events, i) && FirstAccepted(data, events, j)
  {
    var xs, firsts := Sessions(Run(data, events)), Firsts(data, events);
    PrintedTwiceIffTwoSessionsPrint(data, events);
    PrintingSessionsAreFirsts(data, events);
    TwoMarks(Printing(xs));
    TwoMarks(firsts);
    assert forall i :: 0 <= i < |xs| ==> Printing(xs)[i] == (xs[i].printed != []);
    assert forall k :: 0 <= k < |events| ==> firsts[k] == FirstAccepted(data, events, k);
  }

  lemma AtMostOneStart(data: seq<byte>, events: seq<Event>)
    requires forall i, j :: 0 <= i < j < |events| ==>
               !SessionStarted(data, events, i) || !SessionStarted(data, events, j)
    ensures |Run(data, events).earlier| <= 1
  {
    hide Run, SilentBefore, SessionStarted;
    var starts := Starts(data, events);
    SessionsAreStarts(data, events);
    TwoMarks(starts);
    assert forall k :: 0 <= k < |events| ==> starts[k] == SessionStarted(data, events, k);
  }

  /** As long as at most one CONN finds the server listening, no packet is printed twice. */
  lemma OneSessionPrintsOnce(data: seq<byte>, events: seq<Event>)
    requires forall i, j :: 0 <= i < j < |events| ==>
               !SessionStarted(data, events, i) || !SessionStarted(data, events, j)
    ensures !PrintedTwice(Run(data, events))
  {
    hide Run, PrintedTwice;
    AtMostOneStart(data, events);
    SessionsAreStarts(data, events);
    PrintedTwiceIffTwoSessionsPrint(data, events);
  }

  /** The network delivers at most one CONN to the server. */
  predicate OneConn(events: seq<Event>) {
    forall i, j :: 0 <= i < j < |events| && events[i].ServerReceives? && events[j].ServerReceives? ==>
                     !(events[i].toServer.Conn? && events[j].toServer.Conn?)
  }

  lemma OneConnStartsOne(data: seq<byte>, events: seq<Event>)
    requires OneConn(events)
    ensures forall i, j :: 0 <= i < j < |events| ==>
               !SessionStarted(data, events, i) || !SessionStarted(data, events, j)
  {
    hide Run;
    forall i, j | 0 <= i < j < |events|
      ensures !SessionStarted(data, events, i) || !SessionStarted(data, events, j) {
      assert events[i].ServerReceives? && events[j].ServerReceives? ==>
          !(events[i].toServer.Conn? && events[j].toServer.Conn?);
    }
  }

  /** In particular no packet is printed twice if the network delivers at most one CONN to the server. */
  lemma OneConnPrintsOnce(data: seq<byte>, events: seq<Event>)
    requires OneConn(events)
    ensures !PrintedTwice(Run(data, events))
  {
    OneConnStartsOne(data, events);
    OneSessionPrintsOnce(data, events);
  }

  lemma RunAt(data: seq<byte>, events: seq<Event>, k: nat)
    requires k < |events|
    ensures Run(data, events[..k + 1]) == Step(data, Run(data, events[..k]), events[k])
  {
    assert events[..k + 1][..k] == events[..k];
  }

  const DATA: seq<byte> := [65]

  /** One complete transfer of one byte, followed by the delivery of copies of the CONN and DATA datagrams. */
  const DUPLICATES: seq<Event> := [
    ClientSends, ServerReceives(Conn(1)), ServerSends, ClientReceives(ConAcc), ClientSends,
    ServerReceives(Data(0, DATA)), ServerSends, ServerSends,
    ServerReceives(Conn(1)), ServerSends, ServerReceives(Data(0, DATA))]

  ghost predicate Listening(k: nat, server: ServerState, current: Session, earlier: seq<Session>)
    requires k <= |DUPLICATES|
  {
    var s := Run(DATA, DUPLICATES[..k]);
    && s.server == server && s.current == current && s.earlier == earlier
    && Conn(1) in s.toServer && Data(0, DATA) in s.toServer
  }

  lemma UpToTheData()
    ensures Listening(5, First(1, 0, true), Session([], []), [Session([], [])])
  {
    RunAt(DATA, DUPLICATES, 0);
    RunAt(DATA, DUPLICATES, 1);
    RunAt(DATA, DUPLICATES, 2);
    RunAt(DATA, DUPLICATES, 3);
    RunAt(DATA, DUPLICATES, 4);
    assert DATA[0..1] == DATA;
  }

  lemma UpToTheSecondConn()
    ensures Listening(9, First(1, 0, false), Session([], []), [Session([], []), Session(DATA, [0])])
  {
    UpToTheData();
    RunAt(DATA, DUPLICATES, 5);
    RunAt(DATA, DUPLICATES, 6);
    assert [] + DATA == DATA;
    assert Listening(7, Finish, Session(DATA, [0]), [Session([], [])]);
    RunAt(DATA, DUPLICATES, 7);
    RunAt(DATA, DUPLICATES, 8);
  }

  /** It does happen: a CONN that the network duplicates is taken for a new session after the first one has
      ended, and the duplicated data is printed again. */
  lemma DuplicatedConnPrintsTwice()
    ensures var s := Run(DATA, DUPLICATES);
            && Sessions(s) == [Session([], []), Session(DATA, [0]), Session(DATA, [0])]
            && PrintedTwice(s)
  {
    UpToTheSecondConn();
    RunAt(DATA, DUPLICATES, 9);
    RunAt(DATA, DUPLICATES, 10);
    assert DUPLICATES[..11] == DUPLICATES;
    var s := Run(DATA, DUPLICATES);
    assert s.current.printed == [] + DATA && s.current.chunks == [] + [0];
    assert s.current == Session(DATA, [0]);
    assert Sessions(s) == [Session([], []), Session(DATA, [0]), Session(DATA, [0])];
    assert 0 in Sessions(s)[1].chunks && 0 in Sessions(s)[2].chunks;
  }

  // ---------------------------------------------------------------------------------------------
  // What the two sides do with the datagrams that can arrive
  // ---------------------------------------------------------------------------------------------

  /** The client has got as far as this packet. */
  predicate Reached(c: ClientState, number: nat) {
    match c
    case Connect(_) => false
    case ConnectSent(_) => false
    case SendData(n, _, _) => number <= n
    case DataSent(n, _, _) => number <= n
    case _ => true
  }

  ghost predicate SentOk(s: State) {
    && (forall m :: m in s.toServer && m.Data? ==> m.number * BUFFER_SIZE <= s.best && Reached(s.client, m.number))
    && (forall m :: m in s.toClient && m.Acc? ==> Reached(s.client, m.number))
    && (s.server.Rest? ==> Reached(s.client, s.server.number))
    && (s.server.Rest? && s.server.waiting ==> s.server.readSize < s.server.dataLen)
    && (s.client.Connect? || s.client.ConnectSent? ==>
          s.toClient <= {ConAcc} && (s.server.Listen? || s.server.First?))
  }

  lemma ClientSentOk(data: seq<byte>, s: State, e: Event)
    requires Inv(data, s) && SentOk(s) && (e.ClientSends? || e.ClientTimesOut? || e.ClientReceives?)
    ensures SentOk(Step(data, s, e))
  {
  }

  lemma ServerSentOk(data: seq<byte>, s: State, e: Event)
    requires Inv(data, s) && SentOk(s) && (e.ServerSends? || e.ServerTimesOut? || e.ServerReceives?)
    ensures SentOk(Step(data, s, e))
  {
  }

  lemma {:induction false} RunSentOk(data: seq<byte>, events: seq<Event>)
    ensures SentOk(Run(data, events))
  {
    if |events| > 0 {
      hide Step, Inv, SentOk;
      var front, e := events[..|events| - 1], events[|events| - 1];
      RunSentOk(data, front);
      RunInv(data, front);
      if e.ClientSends? || e.ClientTimesOut? || e.ClientReceives? {
        ClientSentOk(data, Run(data, front), e);
      } else {
        ServerSentOk(data, Run(data, front), e);
      }
    } else {
      assert Run(data, events) == INIT;
    }
  }

  /** What the client does with each datagram that can arrive.  It gives up only on a rejection, on a repeated CONACC
      after the first packet, and on an RCVD that overtakes the last ACC; in that case all data has been printed. */
  lemma ClientVerdict(data: seq<byte>, events: seq<Event>, m: ToClient)
    requires m in Run(data, events).toClient
    ensures var s := Run(data, events); var c, c' := s.client, Step(data, s, ClientReceives(m)).client;
            match c
            case ConnectSent(_) => m == ConAcc && c' == (if data == [] then WaitRcvd else SendData(0, 0, 0))
            case DataSent(number, offset, _) =>
              && (c' == Failed <==> m.Rjt? || m == Rcvd || (m == ConAcc && number > 0))
              && (m == Rcvd ==> AllPrinted(data, s))
              && (m == Acc(number) ==>
                    c' == if End(data, number) < |data| then SendData(number + 1, End(data, number), 0) else WaitRcvd)
              && (m == Acc(number) || c' == Failed || c' == c)
            case WaitRcvd =>
              && (c' == Failed <==> m.Rjt? || m == ConAcc)
              && (c' == Succeeded <==> m == Rcvd)
              && (m.Acc? ==> c' == c)
            case _ => c' == c
  {
    RunInv(data, events);
    RunSentOk(data, events);
    SuccessMeansPrinted(data, events);
    hide Run, AllPrinted;
  }

  /** The number of the packet that the server waits for. */
  function Expected(server: ServerState): nat { if server.Rest? then server.number + 1 else 0 }

  predicate Waiting(server: ServerState) { (server.First? || server.Rest?) && server.waiting }

  /** The datagrams that a waiting server rejects.  A repetition of an earlier packet is rejected, and not ignored, if
      the expected packet is shorter than the others: its size is compared with what is still missing before its
      number is looked at. */
  predicate Rejected(data: seq<byte>, expected: nat, m: ToServer) {
    match m
    case Conn(_) => expected > 0
    case Data(number, _) => number > expected || (number < expected && (expected + 1) * BUFFER_SIZE > |data|)
  }

  lemma ServerVerdict(data: seq<byte>, events: seq<Event>, m: ToServer)
    requires m in Run(data, events).toServer && Waiting(Run(data, events).server)
    ensures var s := Run(data, events); var s', expected := Step(data, s, ServerReceives(m)), Expected(s.server);
            if m.Data? && m.number == expected then
              && s'.current.printed == s.current.printed + m.bytes && s'.server.Rest? && s'.server.number == expected
            else if Rejected(data, expected, m) then
              s' == s.(server := Listen, toClient := s.toClient + {Rjt(expected)})
            else s' == s
  {
    RunInv(data, events);
    RunSentOk(data, events);
    hide Run, SessionOk, ClientOk;
  }

  /** The server waits in vain and repeats its datagram, as often as given. */
  function Silence(rounds: nat): seq<Event> {
    if rounds == 0 then [] else Silence(rounds - 1) + [ServerTimesOut, ServerSends]
  }

  /** The server state with another number of attempts. */
  function StillWaiting(server: ServerState, attempts: nat): ServerState {
    match server
    case First(dataLen, _, waiting) => First(dataLen, attempts, waiting)
    case Rest(dataLen, readSize, number, _, waiting) => Rest(dataLen, readSize, number, attempts, waiting)
    case _ => server
  }

  lemma SilentRound(data: seq<byte>, s: State)
    requires Waiting(s.server) || s.server.Listen?
    requires Waiting(s.server) ==> s.server.attempts <= MAX_RETRANSMITS
    requires s.server.Rest? ==> s.server.readSize < s.server.dataLen
    ensures var s' := Step(data, Step(data, s, ServerTimesOut), ServerSends);
            && s'.server == (if s.server.Listen? || s.server.attempts == MAX_RETRANSMITS then Listen
                             else StillWaiting(s.server, s.server.attempts + 1))
            && Sessions(s') == Sessions(s) && s'.toServer == s.toServer && s'.client == s.client
  {
  }

  /** A server that waits for a packet stays in the session for exactly `MAX_RETRANSMITS` timeouts; then it listens for
      a new CONN, and what it has printed stays printed. */
  lemma {:induction false} AfterSilence(data: seq<byte>, events: seq<Event>, rounds: nat)
    requires var server := Run(data, events).server; Waiting(server) && server.attempts == 0
    ensures var s, s' := Run(data, events), Run(data, events + Silence(rounds));
            && s'.server == (if rounds <= MAX_RETRANSMITS then StillWaiting(s.server, rounds) else Listen)
            && Sessions(s') == Sessions(s) && s'.toServer == s.toServer && s'.client == s.client
  {
    hide Step, Run, Sessions, Inv;
    RunSentOk(data, events);
    if rounds == 0 {
      assert events + Silence(rounds) == events;
    } else {
      AfterSilence(data, events, rounds - 1);
      SilentRound(data, Run(data, events + Silence(rounds - 1)));
      TwoEvents(data, events + Silence(rounds - 1), ServerTimesOut, ServerSends);
      assert events + Silence(rounds) == events + Silence(rounds - 1) + [ServerTimesOut, ServerSends];
    }
  }

  // ---------------------------------------------------------------------------------------------
  // When a transfer is rejected although the network delivers one CONN only
  // ---------------------------------------------------------------------------------------------

  predicate RejectionSent(s: State) { exists m :: m in s.toClient && m.Rjt? }

  /** There are several packets, and the last one is shorter than the others. */
  predicate ShortLast(data: seq<byte>) { |data| > BUFFER_SIZE && |data| % BUFFER_SIZE != 0 }

  /** A server in the middle of a session has got its CONN. */
  lemma ConnIsGone(data: seq<byte>, events: seq<Event>, e: Event)
    requires OneConn(events + [e]) && Run(data, events).server != Listen
    ensures !(e.ServerReceives? && e.toServer.Conn?)
  {
    hide Run, StartsSession;
    SessionsAreStarts(data, events);
    var starts := Starts(data, events);
    assert Count(starts) >= 1 by { assert SilentBefore(Run(data, events)); }
    SomeMark(starts);
    var i :| 0 <= i < |starts| && starts[i];
    assert SessionStarted(data, events, i);
    assert StartsSession(Run(data, events[..i]), events[i]) ==> events[i].ServerReceives? && events[i].toServer.Conn?
      by { StartIsConn(Run(data, events[..i]), events[i]); }
    assert (events + [e])[i] == events[i] && (events + [e])[|events|] == e;
  }

  lemma StartIsConn(s: State, e: Event)
    ensures StartsSession(s, e) ==> e.ServerReceives? && e.toServer.Conn?
  {
  }

  lemma OneConnBefore(events: seq<Event>)
    requires OneConn(events) && |events| > 0
    ensures OneConn(events[..|events| - 1])
  {
  }

  lemma {:induction false} NoRejection(data: seq<byte>, events: seq<Event>)
    requires OneConn(events) && !ShortLast(data)
    ensures !RejectionSent(Run(data, events))
  {
    if |events| > 0 {
      var front, e := events[..|events| - 1], events[|events| - 1];
      var s := Run(data, front);
      assert events == front + [e];
      OneConnBefore(events);
      NoRejection(data, front);
      if e.ServerReceives? && e.toServer in s.toServer && Waiting(s.server) {
        ConnIsGone(data, front, e);
        NotRejected(data, front, e.toServer);
        ServerVerdict(data, front, e.toServer);
      }
    }
  }

  lemma NotRejected(data: seq<byte>, events: seq<Event>, m: ToServer)
    requires OneConn(events) && !ShortLast(data) && m in Run(data, events).toServer && m.Data?
    requires Waiting(Run(data, events).server)
    ensures !Rejected(data, Expected(Run(data, events).server), m)
  {
    RunInv(data, events);
    RunSentOk(data, events);
    OneConnStartsOne(data, events);
    AtMostOneStart(data, events);
    SessionsAreStarts(data, events);
    hide Run;
    OneSessionNotRejected(data, Run(data, events), m);
  }

  lemma OnlySession(data: seq<byte>, s: State)
    requires ServerOk(data, s) && |s.earlier| <= 1 && SilentBefore(s)
    ensures s.best == |s.current.printed|
  {
  }

  lemma NotShort(data: seq<byte>, expected: nat)
    requires !ShortLast(data) && 0 < expected && expected * BUFFER_SIZE < |data|
    ensures (expected + 1) * BUFFER_SIZE <= |data|
  {
    var rest := |data| - expected * BUFFER_SIZE;
    if rest < BUFFER_SIZE {
      Remainder(expected, rest);
    }
  }

  lemma Remainder(quotient: nat, rest: nat)
    requires 0 < rest < BUFFER_SIZE
    ensures (quotient * BUFFER_SIZE + rest) % BUFFER_SIZE != 0
  {
  }

  lemma OneSessionNotRejected(data: seq<byte>, s: State, m: ToServer)
    requires Inv(data, s) && SentOk(s) && |s.earlier| <= 1 && SilentBefore(s) && Waiting(s.server)
    requires !ShortLast(data) && m in s.toServer && m.Data?
    ensures !Rejected(data, Expected(s.server), m)
  {
    OnlySession(data, s);
    hide ClientOk, NetworkOk, SilentBefore, SessionOk;
    assert m.number * BUFFER_SIZE <= |s.current.printed|;
    if s.server.Rest? {
      var expected := s.server.number + 1;
      assert |s.current.printed| == End(data, s.server.number) < |data|;
      assert |s.current.printed| == expected * BUFFER_SIZE;
      NotShort(data, expected);
    }
  }

  lemma NoMoreConn(events: seq<Event>, more: seq<Event>)
    requires OneConn(events) && forall e :: e in more && e.ServerReceives? ==> e.toServer.Data?
    ensures OneConn(events + more)
  {
    forall i, j | 0 <= i < j < |events + more|
                  && (events + more)[i].ServerReceives? && (events + more)[j].ServerReceives?
      ensures !((events + more)[i].toServer.Conn? && (events + more)[j].toServer.Conn?)
    {
      if j < |events| {
        assert (events + more)[i] == events[i] && (events + more)[j] == events[j];
      } else {
        assert (events + more)[j] == more[j - |events|] && more[j - |events|] in more;
      }
    }
  }

  predicate NoTimeouts(events: seq<Event>) { ClientTimesOut !in events && ServerTimesOut !in events }

  lemma Undisturbed(data: seq<byte>, number: nat, events: seq<Event>)
    requires number * BUFFER_SIZE <= |data| && OneConn(events) && NoTimeouts(events)
    ensures OneConn(events + Delivery(data, number)) && NoTimeouts(events + Delivery(data, number))
  {
    NoMoreConn(events, Delivery(data, number));
  }

  lemma UndisturbedOpening(data: seq<byte>)
    ensures OneConn(Opening(data, 0)) && NoTimeouts(Opening(data, 0))
  {
    assert Losses(0) == [];
  }

  /** A run without any loss up to the moment when the client is about to send the given packet. */
  lemma {:induction false} ReachPacket(data: seq<byte>, number: nat) returns (events: seq<Event>)
    requires number * BUFFER_SIZE < |data|
    ensures OneConn(events) && Before(data, Run(data, events), number)
    ensures NoTimeouts(events)
  {
    hide Run, Step, Before, OneConn, NoTimeouts, Opening;
    if number == 0 {
      events := Opening(data, 0);
      Opened(data, 0);
      UndisturbedOpening(data);
    } else {
      var before := ReachPacket(data, number - 1);
      var m := Data(number - 1, Chunk(data, number - 1));
      events := before + Delivery(data, number - 1);
      Undisturbed(data, number - 1, before);
      FourEvents(data, before, ClientSends, ServerReceives(m), ServerSends, ClientReceives(Acc(number - 1)));
      BeforeIsSending(data, Run(data, before), number - 1);
      PacketStep(data, Run(data, before), number - 1, 0);
    }
  }

  lemma BeforeIsSending(data: seq<byte>, s: State, number: nat)
    requires Before(data, s, number)
    ensures s.client == SendData(number, number * BUFFER_SIZE, 0) && s.(client := s.client) == s
  {
  }

  /** The server has printed the last full packet and waits for the short one; the client has not got the
      acknowledgement in time. */
  ghost predicate Late(data: seq<byte>, s: State, number: nat) {
    && s.client == SendData(number, number * BUFFER_SIZE, 1) && Acc(number) in s.toClient
    && number * BUFFER_SIZE < |data| && End(data, number) < |data|
    && s.server.Rest? && s.server.waiting && s.server.number == number
    && s.server.dataLen - s.server.readSize < BUFFER_SIZE
  }

  lemma LateStep(data: seq<byte>, s: State, number: nat)
    requires Before(data, s, number) && number + 1 == |data| / BUFFER_SIZE && ShortLast(data)
    ensures var m := ServerReceives(Data(number, Chunk(data, number)));
            Late(data, Step(data, Step(data, Step(data, Step(data, s, ClientSends), m), ServerSends), ClientTimesOut),
                 number)
  {
    var from, to := number * BUFFER_SIZE, End(data, number);
    var m := Data(number, data[from..to]);
    var s1 := ClientSend(data, s);
    assert m in s1.toServer && s1.client == DataSent(number, from, 0);
    var s2 := ServerReceive(s1, m);
    assert s2.server.Rest? && s2.server.dataLen - s2.server.readSize == |data| - to < BUFFER_SIZE;
  }

  /** The server rejects the repeated packet. */
  lemma RepetitionStep(data: seq<byte>, s: State, number: nat)
    requires Late(data, s, number)
    ensures var m := ServerReceives(Data(number, Chunk(data, number)));
            var s1 := Step(data, Step(data, Step(data, Step(data, s, ClientSends), m), ClientReceives(Acc(number))),
                           ClientSends);
            var s' := Step(data, s1, ClientReceives(Rjt(number + 1)));
            s'.client == Failed && Rjt(number + 1) in s'.toClient
  {
    var from, to := number * BUFFER_SIZE, End(data, number);
    var m := Data(number, data[from..to]);
    var s1 := ClientSend(data, s);
    assert m in s1.toServer && s1.client == DataSent(number, from, 1);
    var s2 := ServerReceive(s1, m);
    assert Rjt(number + 1) in s2.toClient && s2.client == s1.client && Acc(number) in s2.toClient;
  }

  lemma RejectedRun(data: seq<byte>) returns (events: seq<Event>)
    requires ShortLast(data)
    ensures OneConn(events) && Run(data, events).client == Failed && RejectionSent(Run(data, events))
  {
    var number := |data| / BUFFER_SIZE - 1;
    var m := ServerReceives(Data(number, Chunk(data, number)));
    var before := ReachPacket(data, number);
    hide Run, Step, Before, Late;
    LateStep(data, Run(data, before), number);
    FourEvents(data, before, ClientSends, m, ServerSends, ClientTimesOut);
    NoMoreConn(before, [ClientSends, m, ServerSends, ClientTimesOut]);
    var more := before + [ClientSends, m, ServerSends, ClientTimesOut];
    RepetitionStep(data, Run(data, more), number);
    var four := [ClientSends, m, ClientReceives(Acc(number)), ClientSends];
    FourEvents(data, more, ClientSends, m, ClientReceives(Acc(number)), ClientSends);
    NoMoreConn(more, four);
    OneEvent(data, more + four, ClientReceives(Rjt(number + 1)));
    NoMoreConn(more + four, [ClientReceives(Rjt(number + 1))]);
    events := more + four + [ClientReceives(Rjt(number + 1))];
  }

  /** With one CONN delivered, a rejection can happen exactly if there are several packets and the last one is shorter
      than the others: the repetition of a packet whose acknowledgement is late is then taken for bad data. */
  lemma RejectionIsPossibleIff(data: seq<byte>)
    ensures (exists events :: OneConn(events) && RejectionSent(Run(data, events))) <==> ShortLast(data)
  {
    hide Run, OneConn, RejectionSent, ShortLast;
    if ShortLast(data) {
      var events := RejectedRun(data);
    } else {
      forall events | OneConn(events) ensures !RejectionSent(Run(data, events)) { NoRejection(data, events); }
    }
  }

  lemma OvertakingStep(data: seq<byte>, s: State, number: nat)
    requires Before(data, s, number) && End(data, number) == |data|
    ensures var m := Data(number, Chunk(data, number));
            var s1 := Step(data, Step(data, Step(data, Step(data, s, ClientSends), ServerReceives(m)), ServerSends),
                           ServerSends);
            var s2 := Step(data, s1, ClientReceives(Rcvd));
            s2.client == Failed && s2.current.printed == data
  {
    var from, to := number * BUFFER_SIZE, End(data, number);
    var m := Data(number, data[from..to]);
    assert data[..from] + data[from..to] == data[..to] == data;
    var s1 := ClientSend(data, s);
    assert m in s1.toServer && s1.client == DataSent(number, from, 0);
    var s2 := ServerReceive(s1, m);
    assert s2.current.printed == data && s2.server.Rest? && s2.server.readSize == s2.server.dataLen;
  }

  /** The client's failure does not mean that the data has not arrived: for all data there is a run without any
      timeout in which everything is printed and the client fails, because RCVD overtakes the last ACC. */
  lemma FailureAfterPrinting(data: seq<byte>) returns (events: seq<Event>)
    requires |data| > 0
    ensures OneConn(events) && NoTimeouts(events)
    ensures Run(data, events).client == Failed && AllPrinted(data, Run(data, events))
  {
    var number := (|data| - 1) / BUFFER_SIZE;
    var m := ServerReceives(Data(number, Chunk(data, number)));
    var before := ReachPacket(data, number);
    hide Run, Step, Before, AllPrinted, OneConn;
    OvertakingStep(data, Run(data, before), number);
    var four := before + [ClientSends, m, ServerSends, ServerSends];
    FourEvents(data, before, ClientSends, m, ServerSends, ServerSends);
    NoMoreConn(before, [ClientSends, m, ServerSends, ServerSends]);
    events := four + [ClientReceives(Rcvd)];
    NoMoreConn(four, [ClientReceives(Rcvd)]);
    OneEvent(data, four, ClientReceives(Rcvd));
    CurrentIsAll(data, Run(data, events));
  }

  lemma OneEvent(data: seq<byte>, events: seq<Event>, e: Event)
    ensures Run(data, events + [e]) == Step(data, Run(data, events), e)
  {
    hide Step;
    assert (events + [e])[..|events|] == events;
  }

  lemma CurrentIsAll(data: seq<byte>, s: State)
    requires s.current.printed == data
    ensures AllPrinted(data, s)
  {
    assert Sessions(s)[|s.earlier|] == s.current;
  }
}
