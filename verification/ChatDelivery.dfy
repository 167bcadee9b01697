/** What every client of the chat hub receives, in every interleaving. */
module ChatDelivery {
  import opened ChatHub
  import opened Totals

  // ---------------------------------------------------------------- sub-sequences of messages

  /** The text messages of everybody but `id`. */
  function Others(msgs: seq<Message>, id: nat): seq<Message> {
    Select(msgs, (m: Message) => m.Text? && m.id != id)
  }

  lemma OthersOne(msgs: seq<Message>, m: Message, id: nat)
    ensures Others(msgs + [m], id) == Others(msgs, id) + if m.Text? && m.id != id then [m] else []
  {
    assert (msgs + [m])[..|msgs|] == msgs;
  }

  /** The lines in the text messages of `id`. */
  function LinesOf(msgs: seq<Message>, id: nat): seq<string> {
    if msgs == [] then []
    else
      var m := msgs[|msgs| - 1];
      LinesOf(msgs[..|msgs| - 1], id) + if m.Text? && m.id == id then [m.text] else []
  }

  /** The lines that are more than a line break. */
  function NonBlank(lines: seq<string>): seq<string> {
    Select(lines, (l: string) => l != "\n")
  }

  // ---------------------------------------------------------------- invariant

  /** Identifiers are dense and belong to different processes that were not rejected. */
  ghost predicate RegistryOk(s: Hub) {
    && |s.registry| <= MAX_CLIENTS && |s.joinedAt| == |s.registry|
    && (forall j :: 0 <= j < |s.registry| ==> s.registry[j] < |s.clients| && s.registry[j] !in s.rejected)
    && (forall i, j :: 0 <= i < j < |s.registry| ==> s.registry[i] != s.registry[j])
    && (forall j :: 0 <= j < |s.registry| ==> s.joinedAt[j] <= |s.log|)
    && (forall i, j :: 0 <= i < j < |s.registry| ==> s.joinedAt[i] <= s.joinedAt[j])
    && (forall n :: 0 <= n < |s.rejected| ==> s.rejected[n] < |s.clients|)
    && (s.rejected != [] ==> |s.registry| == MAX_CLIENTS)
  }

  /** A process registers at most once, and waits for the reply with an empty queue. */
  ghost predicate StagesOk(s: Hub) {
    && (forall p :: 0 <= p < |s.inbox| && s.inbox[p].InitMsg? ==>
          s.inbox[p].queue < |s.clients| && s.inbox[p].queue !in s.registry && s.inbox[p].queue !in s.rejected
          && s.clients[s.inbox[p].queue].pc == AwaitReply)
    && (forall p, q :: 0 <= p < q < |s.inbox| && s.inbox[p].InitMsg? ==> s.inbox[p] != s.inbox[q])
    && (forall c :: 0 <= c < |s.clients| && s.clients[c].pc == SendInit ==> c !in s.registry && c !in s.rejected)
    && (forall c :: 0 <= c < |s.clients| && c !in s.registry ==>
          s.clients[c].pc in {SendInit, AwaitReply} && s.clients[c].queue == [] && s.clients[c].received == [] &&
          (s.clients[c].pc == AwaitReply ==> c in s.rejected || InitMsg(c) in s.inbox))
    && (forall j :: 0 <= j < |s.registry| && s.registry[j] < |s.clients| ==>
          var k := s.clients[s.registry[j]];
          && k.pc in {AwaitReply, Chatting}
          && (k.pc == AwaitReply <==> k.received == [])
          && (k.pc == Chatting ==> k.id == j))
  }

  /** Every text message carries the identifier of a registered client, and no client is
      heard before it has joined. */
  ghost predicate TextsOk(s: Hub) {
    && (forall p :: 0 <= p < |s.inbox| ==> !s.inbox[p].IdAssign? && (s.inbox[p].Text? ==> s.inbox[p].id < |s.registry|))
    && (forall p :: 0 <= p < |s.log| ==> s.log[p].Text? && s.log[p].id < |s.registry|)
    && (forall j, p :: 0 <= j < |s.registry| && j < |s.joinedAt| && 0 <= p < s.joinedAt[j] && p < |s.log| ==>
          s.log[p].id < j)
  }

  ghost predicate ServerOk(s: Hub) {
    match s.server
    case Receive => true
    case Reply(id) => id + 1 == |s.registry| == |s.joinedAt| && s.joinedAt[id] == |s.log|
    case Broadcast(m, i) => i <= |s.registry| && s.log != [] && s.log[|s.log| - 1] == m
  }

  ghost predicate QueuesFit(s: Hub) {
    |s.inbox| <= MAX_MSG && forall c :: 0 <= c < |s.clients| ==> |s.clients[c].queue| <= MAX_MSG
  }

  /** All that has been put on the queue of client `j`, in order. */
  function Seen(s: Hub, j: nat): seq<Message>
    requires j < |s.registry| && s.registry[j] < |s.clients|
  {
    s.clients[s.registry[j]].received + s.clients[s.registry[j]].queue
  }

  /** The message of the broadcast in progress, if `j` has still to get it. */
  function Pending(s: Hub, j: nat): seq<Message> {
    if s.server.Broadcast? && s.server.i <= j && s.server.msg.Text? && s.server.msg.id != j then [s.server.msg] else []
  }

  function Due(s: Hub, j: nat): seq<Message>
    requires j < |s.joinedAt| && s.joinedAt[j] <= |s.log|
  {
    if s.server == Reply(j) then [] else [IdAssign(j)] + Others(s.log[s.joinedAt[j]..], j)
  }

  /** The delivery law. */
  ghost predicate DeliveryOk(s: Hub)
    requires RegistryOk(s)
  {
    forall j :: 0 <= j < |s.registry| ==> Seen(s, j) + Pending(s, j) == Due(s, j)
  }

  ghost predicate Inv(s: Hub) {
    RegistryOk(s) && StagesOk(s) && TextsOk(s) && ServerOk(s) && QueuesFit(s) && DeliveryOk(s)
  }

  lemma InitInv(inputs: seq<seq<string>>)
    ensures Inv(Init(inputs))
  {
  }

  lemma OthersAppend(msgs: seq<Message>, from: nat, m: Message, id: nat)
    requires from <= |msgs| && m.Text?
    ensures Others((msgs + [m])[from..], id) == Others(msgs[from..], id) + if m.id != id then [m] else []
  {
    assert (msgs + [m])[from..] == msgs[from..] + [m];
    OthersOne(msgs[from..], m, id);
  }

  /** What client `j` has seen and what it is about to see is what it is due. */
  lemma DeliveryLaw(s: Hub, j: nat)
    requires RegistryOk(s) && DeliveryOk(s) && j < |s.registry|
    ensures Seen(s, j) + Pending(s, j) == Due(s, j)
  {
  }

  // ---------------------------------------------------------------- parts of a step

  /** The server's own state plays no part in the tables and the queues. */
  lemma ServerMovesOn(s: Hub, next: ServerPc)
    requires RegistryOk(s) && StagesOk(s) && TextsOk(s) && QueuesFit(s)
    ensures var s' := s.(server := next); RegistryOk(s') && StagesOk(s') && TextsOk(s') && QueuesFit(s')
  {
  }

  function WithClient(s: Hub, c: nat, k: Client): Hub
    requires c < |s.clients|
  {
    s.(clients := s.clients[c := k])
  }

  /** A change to one client that leaves it at its stage. */
  ghost predicate SameStage(s: Hub, c: nat, k: Client)
    requires c < |s.clients|
  {
    && k.pc == s.clients[c].pc && k.id == s.clients[c].id
    && (k.received == [] <==> s.clients[c].received == [])
    && (c !in s.registry ==> k.queue == [])
    && |k.queue| <= MAX_MSG
  }

  lemma ClientKeepsStages(s: Hub, c: nat, k: Client)
    requires c < |s.clients| && StagesOk(s) && SameStage(s, c, k)
    ensures StagesOk(WithClient(s, c, k))
  {
  }

  lemma ClientKeeps(s: Hub, c: nat, k: Client)
    requires c < |s.clients| && SameStage(s, c, k)
    requires RegistryOk(s) && StagesOk(s) && TextsOk(s) && QueuesFit(s)
    ensures var s' := WithClient(s, c, k); RegistryOk(s') && StagesOk(s') && TextsOk(s') && QueuesFit(s')
  {
    hide StagesOk;
    ClientKeepsStages(s, c, k);
  }

  // ---------------------------------------------------------------- the server's steps

  lemma RegistersOk(s: Hub)
    requires Inv(s) && s.server.Receive? && s.inbox != [] && s.inbox[0].InitMsg? && |s.registry| < MAX_CLIENTS
    ensures RegistryOk(ServerNext(s)) && DeliveryOk(ServerNext(s))
  {
    hide Others;
    var s' := ServerNext(s);
    var c := s.inbox[0].queue;
    assert RegistryOk(s');
    forall j | 0 <= j < |s'.registry|
      ensures Seen(s', j) + Pending(s', j) == Due(s', j)
    {
      if j < |s.registry| {
        assert Seen(s, j) + Pending(s, j) == Due(s, j);
      } else {
        assert s.clients[c].queue == [] && s.clients[c].received == [];
      }
    }
  }

  lemma RegistersStages(s: Hub)
    requires Inv(s) && s.server.Receive? && s.inbox != [] && s.inbox[0].InitMsg? && |s.registry| < MAX_CLIENTS
    ensures StagesOk(ServerNext(s)) && TextsOk(ServerNext(s)) && ServerOk(ServerNext(s))
  {
    hide DeliveryOk;
  }

  lemma RejectsOk(s: Hub)
    requires Inv(s) && s.server.Receive? && s.inbox != [] && s.inbox[0].InitMsg? && |s.registry| == MAX_CLIENTS
    ensures RegistryOk(ServerNext(s)) && DeliveryOk(ServerNext(s))
  {
    hide Others, TextsOk, QueuesFit;
    var s' := ServerNext(s);
    forall j | 0 <= j < |s'.registry|
      ensures Seen(s', j) + Pending(s', j) == Due(s', j)
    {
      assert Seen(s, j) + Pending(s, j) == Due(s, j);
    }
  }

  lemma RejectsStages(s: Hub)
    requires Inv(s) && s.server.Receive? && s.inbox != [] && s.inbox[0].InitMsg? && |s.registry| == MAX_CLIENTS
    ensures StagesOk(ServerNext(s))
  {
    hide DeliveryOk, TextsOk, QueuesFit, RegistryOk;
  }

  lemma RejectsTexts(s: Hub)
    requires Inv(s) && s.server.Receive? && s.inbox != [] && s.inbox[0].InitMsg? && |s.registry| == MAX_CLIENTS
    ensures TextsOk(ServerNext(s)) && QueuesFit(ServerNext(s))
  {
    hide DeliveryOk, StagesOk, RegistryOk;
  }

  lemma ServerTakesInit(s: Hub)
    requires Inv(s) && s.server.Receive? && s.inbox != [] && s.inbox[0].InitMsg?
    ensures Inv(ServerNext(s))
  {
    hide RegistryOk, StagesOk, TextsOk, DeliveryOk;
    if |s.registry| < MAX_CLIENTS {
      RegistersOk(s);
      RegistersStages(s);
    } else {
      AtMostTen(s);
      RejectsOk(s);
      RejectsStages(s);
      RejectsTexts(s);
    }
  }

  lemma AtMostTen(s: Hub)
    requires RegistryOk(s)
    ensures |s.registry| <= MAX_CLIENTS
  {
  }

  lemma TakesTextStages(s: Hub)
    requires Inv(s) && s.server.Receive? && s.inbox != [] && s.inbox[0].Text?
    ensures RegistryOk(ServerNext(s)) && StagesOk(ServerNext(s)) && TextsOk(ServerNext(s))
  {
    hide DeliveryOk;
  }

  lemma TakesTextDue(s: Hub, j: nat)
    requires RegistryOk(s) && DeliveryOk(s) && j < |s.registry|
    requires s.server.Receive? && s.inbox != [] && s.inbox[0].Text?
    ensures Seen(s, j) + Pending(ServerNext(s), j) == Due(ServerNext(s), j)
  {
    var m := s.inbox[0];
    var id, o := [IdAssign(j)], Others(s.log[s.joinedAt[j]..], j);
    OthersAppend(s.log, s.joinedAt[j], m, j);
    hide Others;
    assert Seen(s, j) + Pending(s, j) == Due(s, j);
    assert Seen(s, j) == id + o;
    assert (id + o) + [m] == id + (o + [m]);
  }

  lemma ServerTakesText(s: Hub)
    requires Inv(s) && s.server.Receive? && s.inbox != [] && s.inbox[0].Text?
    ensures Inv(ServerNext(s))
  {
    TakesTextStages(s);
    hide Others, Pending, Due, StagesOk, TextsOk;
    var s' := ServerNext(s);
    forall j | 0 <= j < |s'.registry|
      ensures Seen(s', j) + Pending(s', j) == Due(s', j)
    {
      TakesTextDue(s, j);
    }
  }

  /** Adding a message to the queue of client `id` and moving on. */
  lemma DeliverKeeps(s: Hub, id: nat, m: Message, next: ServerPc)
    requires RegistryOk(s) && StagesOk(s) && TextsOk(s) && QueuesFit(s) && id < |s.registry| && HasRoom(s, id)
    ensures var s' := Deliver(s, id, m).(server := next);
            RegistryOk(s') && StagesOk(s') && TextsOk(s') && QueuesFit(s')
  {
    hide RegistryOk, StagesOk, TextsOk, QueuesFit;
    var k := s.clients[s.registry[id]];
    ClientKeeps(s, s.registry[id], k.(queue := k.queue + [m]));
    ServerMovesOn(Deliver(s, id, m), next);
  }

  lemma DeliverIsSeen(s: Hub, id: nat, m: Message, next: ServerPc, j: nat)
    requires RegistryOk(s) && id < |s.registry| && j < |s.registry|
    ensures var s' := Deliver(s, id, m).(server := next);
            Seen(s', j) == if j == id then Seen(s, j) + [m] else Seen(s, j)
  {
  }

  lemma RepliedDue(s: Hub, j: nat)
    requires RegistryOk(s) && DeliveryOk(s) && ServerOk(s) && s.server.Reply? && j < |s.registry|
    ensures (if j == s.server.id then Seen(s, j) + [IdAssign(j)] else Seen(s, j))
         == [IdAssign(j)] + Others(s.log[s.joinedAt[j]..], j)
  {
    assert Seen(s, j) + Pending(s, j) == Due(s, j);
    if j == s.server.id {
      assert s.log[s.joinedAt[j]..] == [] && Others([], j) == [];
    }
  }

  lemma ServerReplies(s: Hub)
    requires Inv(s) && s.server.Reply? && Enabled(s, Server)
    ensures Inv(ServerNext(s))
  {
    var id := s.server.id;
    var s' := Deliver(s, id, IdAssign(id)).(server := Receive);
    assert s' == ServerNext(s);
    hide StagesOk, TextsOk, Others, Deliver, QueuesFit, ServerNext, Seen;
    DeliverKeeps(s, id, IdAssign(id), Receive);
    forall j | 0 <= j < |s'.registry|
      ensures Seen(s', j) + Pending(s', j) == Due(s', j)
    {
      RepliedDue(s, j);
      DeliverIsSeen(s, id, IdAssign(id), Receive, j);
    }
  }

  lemma SendIsDue(s: Hub, j: nat)
    requires RegistryOk(s) && DeliveryOk(s) && s.server.Broadcast? && s.server.i < |s.registry| && j < |s.registry|
    requires s.server.msg.Text? && s.server.i != s.server.msg.id
    ensures var s' := Deliver(s, s.server.i, s.server.msg).(server := Broadcast(s.server.msg, s.server.i + 1));
            Seen(s', j) + Pending(s', j) == Due(s', j)
  {
    DeliveryLaw(s, j);
    DeliverIsSeen(s, s.server.i, s.server.msg, Broadcast(s.server.msg, s.server.i + 1), j);
    hide DeliveryOk, Others, Seen;
  }

  lemma BroadcastSends(s: Hub)
    requires Inv(s) && s.server.Broadcast? && s.server.i < |s.registry|
    requires s.server.msg.Text? && s.server.i != s.server.msg.id && HasRoom(s, s.server.i)
    ensures Inv(ServerNext(s))
  {
    var m, i := s.server.msg, s.server.i;
    var s' := Deliver(s, i, m).(server := Broadcast(m, i + 1));
    assert s' == ServerNext(s) && s'.registry == s.registry;
    assert ServerOk(s');
    hide RegistryOk, StagesOk, TextsOk, QueuesFit, Deliver, Others, ServerNext, Seen, Pending, Due, ServerOk;
    DeliverKeeps(s, i, m, Broadcast(m, i + 1));
    forall j | 0 <= j < |s'.registry|
      ensures Seen(s', j) + Pending(s', j) == Due(s', j)
    {
      SendIsDue(s, j);
    }
  }

  /** Passing over a client that gets nothing leaves everybody's due as it was. */
  lemma SkipsNobody(s: Hub, j: nat)
    requires s.server.Broadcast? && s.server.i <= |s.registry| && j < |s.registry|
    requires s.server.i < |s.registry| && s.server.msg.Text? ==> s.server.i == s.server.msg.id
    ensures Pending(ServerNext(s), j) == Pending(s, j)
  {
  }

  lemma BroadcastSkips(s: Hub)
    requires Inv(s) && s.server.Broadcast?
    requires s.server.i < |s.registry| && s.server.msg.Text? ==> s.server.i == s.server.msg.id
    ensures Enabled(s, Server) && Inv(ServerNext(s))
  {
    hide RegistryOk, StagesOk, TextsOk, QueuesFit, Others;
    var s' := ServerNext(s);
    ServerMovesOn(s, s'.server);
    forall j | 0 <= j < |s'.registry|
      ensures Seen(s', j) + Pending(s', j) == Due(s', j)
    {
      DeliveryLaw(s, j);
      SkipsNobody(s, j);
    }
  }

  lemma ServerKeeps(s: Hub)
    requires Inv(s) && Enabled(s, Server)
    ensures Inv(ServerNext(s))
  {
    hide StagesOk, DeliveryOk, RegistryOk;
    match s.server {
      case Receive =>
        if s.inbox[0].InitMsg? { ServerTakesInit(s); } else { ServerTakesText(s); }
      case Reply(_) => ServerReplies(s);
      case Broadcast(m, i) =>
        if i < |s.registry| && m.Text? && i != m.id { BroadcastSends(s); } else { BroadcastSkips(s); }
    }
  }

  // ---------------------------------------------------------------- the clients' steps

  /** A step of one client that leaves the server, the registry and the log alone, and keeps
      what that client has been sent. */
  lemma ClientLeavesDelivery(s: Hub, s': Hub)
    requires RegistryOk(s) && DeliveryOk(s)
    requires s'.server == s.server && s'.registry == s.registry && s'.log == s.log && s'.joinedAt == s.joinedAt
    requires s'.rejected == s.rejected && |s'.clients| == |s.clients|
    requires forall c :: 0 <= c < |s.clients| ==>
               s'.clients[c].received + s'.clients[c].queue == s.clients[c].received + s.clients[c].queue
    ensures RegistryOk(s') && DeliveryOk(s')
  {
    hide Others;
    forall j | 0 <= j < |s'.registry|
      ensures Seen(s', j) + Pending(s', j) == Due(s', j)
    {
      assert Seen(s, j) + Pending(s, j) == Due(s, j);
      assert Seen(s', j) == Seen(s, j);
    }
  }

  lemma MainRegistersStages(s: Hub, c: nat)
    requires RegistryOk(s) && StagesOk(s) && Enabled(s, Main(c)) && s.clients[c].pc == SendInit
    ensures StagesOk(MainNext(s, c))
  {
    hide RegistryOk;
  }

  lemma MainRegistersTexts(s: Hub, c: nat)
    requires TextsOk(s) && QueuesFit(s) && Enabled(s, Main(c)) && s.clients[c].pc == SendInit
    ensures TextsOk(MainNext(s, c)) && QueuesFit(MainNext(s, c))
  {
  }

  lemma MainRegisters(s: Hub, c: nat)
    requires Inv(s) && Enabled(s, Main(c)) && s.clients[c].pc == SendInit
    ensures Inv(MainNext(s, c))
  {
    hide RegistryOk, StagesOk, TextsOk, DeliveryOk, QueuesFit;
    ClientLeavesDelivery(s, MainNext(s, c));
    MainRegistersStages(s, c);
    MainRegistersTexts(s, c);
  }

  /** A registered client that has received nothing yet finds its identifier first. */
  lemma FirstIsOwnId(s: Hub, c: nat)
    requires Inv(s) && c < |s.clients| && s.clients[c].pc == AwaitReply && s.clients[c].queue != []
    ensures exists j :: 0 <= j < |s.registry| && s.registry[j] == c && s.clients[c].queue[0] == IdAssign(j)
  {
    assert c in s.registry;
    var j :| 0 <= j < |s.registry| && s.registry[j] == c;
    assert Seen(s, j) + Pending(s, j) == Due(s, j);
    assert Seen(s, j)[0] == s.clients[c].queue[0];
    assert (Seen(s, j) + Pending(s, j))[0] == Seen(s, j)[0];
  }

  lemma QueueMoves(received: seq<Message>, queue: seq<Message>)
    requires queue != []
    ensures (received + [queue[0]]) + queue[1..] == received + queue
  {
  }

  lemma MainGetsReplyStages(s: Hub, c: nat)
    requires Inv(s) && Enabled(s, Main(c)) && s.clients[c].pc == AwaitReply
    ensures StagesOk(MainNext(s, c))
  {
    FirstIsOwnId(s, c);
    hide DeliveryOk, TextsOk, QueuesFit;
  }

  lemma MainGetsReply(s: Hub, c: nat)
    requires Inv(s) && Enabled(s, Main(c)) && s.clients[c].pc == AwaitReply
    ensures Inv(MainNext(s, c))
  {
    hide RegistryOk, StagesOk, DeliveryOk;
    MainGetsReplyStages(s, c);
    QueueMoves(s.clients[c].received, s.clients[c].queue);
    ClientLeavesDelivery(s, MainNext(s, c));
  }

  /** A client that chats is registered under the identifier it puts on its lines. */
  lemma ChattingId(s: Hub, c: nat)
    requires RegistryOk(s) && StagesOk(s) && c < |s.clients| && s.clients[c].pc == Chatting
    ensures 0 <= s.clients[c].id < |s.registry| && s.registry[s.clients[c].id] == c
  {
    assert c in s.registry;
  }

  lemma PostsStages(s: Hub, m: Message)
    requires StagesOk(s) && m.Text?
    ensures StagesOk(s.(inbox := s.inbox + [m]))
  {
  }

  lemma PostsTexts(s: Hub, m: Message)
    requires TextsOk(s) && m.Text? && m.id < |s.registry|
    ensures TextsOk(s.(inbox := s.inbox + [m]))
  {
  }

  lemma MainSends(s: Hub, c: nat)
    requires Inv(s) && Enabled(s, Main(c)) && s.clients[c].pc == Chatting
    ensures Inv(MainNext(s, c))
  {
    assert |s.clients[c].queue| <= MAX_MSG && |s.inbox| <= MAX_MSG;
    hide RegistryOk, StagesOk, TextsOk, DeliveryOk;
    ChattingId(s, c);
    ClientLeavesDelivery(s, MainNext(s, c));
    var k := s.clients[c];
    var k' := k.(todo := k.todo[1..]);
    ClientKeeps(s, c, k');
    if !Blank(k.todo[0]) {
      PostsStages(WithClient(s, c, k'), Text(k.id, k.todo[0]));
      PostsTexts(WithClient(s, c, k'), Text(k.id, k.todo[0]));
    }
  }

  lemma ReceivedBefore(s: Hub, c: nat)
    requires StagesOk(s) && RegistryOk(s) && c < |s.clients| && s.clients[c].pc == Chatting
    ensures s.clients[c].received != [] && c in s.registry
  {
  }

  lemma ReceiverKeeps(s: Hub, c: nat)
    requires Inv(s) && Enabled(s, Receiver(c))
    ensures Inv(ReceiverNext(s, c))
  {
    assert |s.clients[c].queue| <= MAX_MSG;
    hide RegistryOk, StagesOk, TextsOk, DeliveryOk, QueuesFit;
    var k := s.clients[c];
    ReceivedBefore(s, c);
    ClientKeeps(s, c, k.(queue := k.queue[1..], received := k.received + [k.queue[0]]));
    QueueMoves(k.received, k.queue);
    ClientLeavesDelivery(s, ReceiverNext(s, c));
  }

  /** Every step of every process keeps the delivery law. */
  lemma StepKeeps(s: Hub, a: Actor)
    requires Inv(s)
    ensures Inv(Next(s, a))
  {
    hide Inv;
    if Enabled(s, a) {
      match a {
        case Server => ServerKeeps(s);
        case Main(c) =>
          match s.clients[c].pc {
            case SendInit => MainRegisters(s, c);
            case AwaitReply => MainGetsReply(s, c);
            case Chatting => MainSends(s, c);
          }
        case Receiver(c) => ReceiverKeeps(s, c);
      }
    }
  }

  lemma {:induction false} RunKeeps(inputs: seq<seq<string>>, schedule: seq<Actor>)
    ensures Inv(Run(Init(inputs), schedule))
  {
    hide Inv;
    if schedule == [] {
      InitInv(inputs);
    } else {
      RunKeeps(inputs, schedule[..|schedule| - 1]);
      StepKeeps(Run(Init(inputs), schedule[..|schedule| - 1]), schedule[|schedule| - 1]);
    }
  }
}
