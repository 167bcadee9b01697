/** The chat hub never gets stuck with work left, although the server and the clients send to
    each other through bounded queues: a client's receiver never sends.  Every run comes to
    an end at which everything has been delivered. */
module ChatProgress {
  import opened ChatHub
  import opened ChatDelivery
  import opened ChatLaws
  import opened Totals

  // ---------------------------------------------------------------- remaining work

  /** An upper bound on the steps that a message in the server's queue still causes. */
  function InboxWork(m: Message): int {
    if m.Text? then 2 * MAX_CLIENTS + 2 else 3
  }

  function ClientWork(k: Client): int {
    (if k.pc == SendInit then 4 else 0) + (2 * MAX_CLIENTS + 3) * |k.todo| + |k.queue|
  }

  function ServerWork(server: ServerPc): int {
    match server
    case Receive => 0
    case Reply(_) => 2
    case Broadcast(_, i) => 2 * (MAX_CLIENTS - i) + 1
  }

  function Work(s: Hub): int {
    Total(s.inbox, InboxWork) + ServerWork(s.server) + Total(s.clients, ClientWork)
  }

  lemma AppendWork(msgs: seq<Message>, m: Message)
    ensures Total(msgs + [m], InboxWork) == Total(msgs, InboxWork) + InboxWork(m)
  {
    assert (msgs + [m])[..|msgs|] == msgs;
  }

  // ---------------------------------------------------------------- every step uses up work

  lemma ServerWorks(s: Hub)
    requires Inv(s) && Enabled(s, Server)
    ensures Work(ServerNext(s)) < Work(s)
  {
    hide Total, StagesOk, TextsOk, DeliveryOk, QueuesFit;
    match s.server {
      case Receive =>
        TotalHead(s.inbox, InboxWork);
      case Reply(id) =>
        TotalUpdate(s.clients, s.registry[id], ServerNext(s).clients[s.registry[id]], ClientWork);
      case Broadcast(m, i) =>
        if i < |s.registry| && m.Text? && i != m.id {
          TotalUpdate(s.clients, s.registry[i], ServerNext(s).clients[s.registry[i]], ClientWork);
        }
    }
  }

  lemma MainWorks(s: Hub, c: nat)
    requires Inv(s) && Enabled(s, Main(c))
    ensures Work(MainNext(s, c)) < Work(s)
  {
    hide Total, Inv;
    var s' := MainNext(s, c);
    TotalUpdate(s.clients, c, s'.clients[c], ClientWork);
    if s'.inbox != s.inbox {
      AppendWork(s.inbox, s'.inbox[|s.inbox|]);
    }
    assert s.clients[c].pc != SendInit ==> ClientWork(s'.clients[c]) < ClientWork(s.clients[c]);
  }

  lemma ReceiverWorks(s: Hub, c: nat)
    requires Enabled(s, Receiver(c))
    ensures Work(ReceiverNext(s, c)) < Work(s)
  {
    hide Total;
    TotalUpdate(s.clients, c, ReceiverNext(s, c).clients[c], ClientWork);
  }

  lemma StepWorks(s: Hub, a: Actor)
    requires Inv(s) && Enabled(s, a)
    ensures Work(Next(s, a)) < Work(s)
  {
    hide Inv, Work;
    match a {
      case Server => ServerWorks(s);
      case Main(c) => MainWorks(s, c);
      case Receiver(c) => ReceiverWorks(s, c);
    }
  }

  lemma WorkIsNatural(s: Hub)
    requires Inv(s)
    ensures Work(s) >= 0
  {
    hide StagesOk, TextsOk, DeliveryOk, QueuesFit;
    TotalBounds(s.inbox, InboxWork);
    TotalBounds(s.clients, ClientWork);
  }

  /** The turns of a schedule in which a process moved. */
  function Moves(s: Hub, schedule: seq<Actor>): nat {
    if schedule == [] then 0
    else Moves(s, schedule[..|schedule| - 1])
         + if Enabled(Run(s, schedule[..|schedule| - 1]), schedule[|schedule| - 1]) then 1 else 0
  }

  /** Every run makes a bounded number of moves. */
  lemma {:induction false} MovesAreBounded(s: Hub, schedule: seq<Actor>)
    requires Inv(s)
    ensures Inv(Run(s, schedule)) && Moves(s, schedule) + Work(Run(s, schedule)) <= Work(s)
  {
    hide Inv, Work, Enabled;
    if schedule != [] {
      var before, a := schedule[..|schedule| - 1], schedule[|schedule| - 1];
      MovesAreBounded(s, before);
      StepKeeps(Run(s, before), a);
      if Enabled(Run(s, before), a) {
        StepWorks(Run(s, before), a);
      }
    }
  }

  // ---------------------------------------------------------------- no deadlock

  ghost predicate Stuck(s: Hub) {
    forall a :: !Enabled(s, a)
  }

  /** Who waits for what: the server for a message or for room on a queue that holds ten, a client
      for its identifier, for the user, or for room on the server's queue, a receiver for a
      message; nobody waits for anything else. */
  lemma WaitsIff(s: Hub, c: nat)
    requires Inv(s) && c < |s.clients|
    ensures !Enabled(s, Server) <==>
              match s.server
              case Receive => s.inbox == []
              case Reply(_) => false
              case Broadcast(m, i) =>
                m.Text? && i < |s.registry| && i != m.id && s.registry[i] < |s.clients|
                && |s.clients[s.registry[i]].queue| == 10
    ensures !Enabled(s, Main(c)) <==>
              var k := s.clients[c];
              match k.pc
              case SendInit => |s.inbox| == 10
              case AwaitReply => k.queue == []
              case Chatting => k.todo == [] || (k.todo[0] != "\n" && |s.inbox| == 10)
              case ShutDown => true
    ensures !Enabled(s, Receiver(c)) <==> s.clients[c].pc != Chatting || s.clients[c].queue == []
  {
    if s.server.Reply? {
      ReplyNeverBlocks(s);
    }
    hide StagesOk, TextsOk, DeliveryOk;
  }

  /** A client that has a message waiting can take it, whatever else is going on. */
  lemma ReceiversNeverBlock(s: Hub, j: nat)
    requires Inv(s) && j < |s.registry| && s.clients[s.registry[j]].queue != []
    ensures Enabled(s, Main(s.registry[j])) || Enabled(s, Receiver(s.registry[j]))
  {
  }

  /** The queue on which a client is told its identifier is empty, so the reply never blocks. */
  lemma ReplyNeverBlocks(s: Hub)
    requires Inv(s) && s.server.Reply?
    ensures Enabled(s, Server)
  {
    hide StagesOk, TextsOk, QueuesFit, Others;
    var id := s.server.id;
    assert Seen(s, id) + Pending(s, id) == Due(s, id);
  }

  lemma ServerIsIdle(s: Hub)
    requires Inv(s) && Stuck(s)
    ensures s.server.Receive? && s.inbox == []
  {
    assert !Enabled(s, Server);
    match s.server {
      case Receive =>
      case Reply(_) => ReplyNeverBlocks(s);
      case Broadcast(m, i) =>
        assert i < |s.registry| && !HasRoom(s, i);
        hide StagesOk, TextsOk, DeliveryOk;
        ReceiversNeverBlock(s, i);
    }
  }

  /** What a client process has come to when nothing moves any more. */
  ghost predicate Settled(s: Hub, c: nat)
    requires c < |s.clients|
  {
    if c in s.registry then s.clients[c].pc == Chatting && s.clients[c].todo == [] && s.clients[c].queue == []
    else c in s.rejected && s.clients[c].pc == AwaitReply
  }

  /** A registered client that waits for its identifier has it on its queue. */
  lemma AwaitedIdIsQueued(s: Hub, j: nat)
    requires Inv(s) && s.server.Receive? && j < |s.registry| && s.clients[s.registry[j]].pc == AwaitReply
    ensures s.clients[s.registry[j]].queue != []
  {
    hide TextsOk, QueuesFit, Others;
    assert Seen(s, j) + Pending(s, j) == Due(s, j);
  }

  lemma ClientIsSettled(s: Hub, c: nat)
    requires Inv(s) && Stuck(s) && c < |s.clients|
    ensures Settled(s, c)
  {
    ServerIsIdle(s);
    assert !Enabled(s, Main(c)) && !Enabled(s, Receiver(c));
    if c in s.registry {
      var j :| 0 <= j < |s.registry| && s.registry[j] == c;
      if s.clients[c].pc == AwaitReply {
        AwaitedIdIsQueued(s, j);
      }
    }
    hide TextsOk, DeliveryOk, QueuesFit;
  }

  // ---------------------------------------------------------------- who is connected

  lemma {:induction false} DistinctFit(xs: seq<nat>, n: nat)
    requires forall j :: 0 <= j < |xs| ==> xs[j] < n
    requires forall i, j :: 0 <= i < j < |xs| ==> xs[i] != xs[j]
    ensures |xs| <= n
    decreases n
  {
    if xs != [] {
      assert xs[0] < n;
      if n - 1 in xs {
        var j :| 0 <= j < |xs| && xs[j] == n - 1;
        DistinctFit(xs[..j] + xs[j + 1..], n - 1);
      } else {
        DistinctFit(xs, n - 1);
      }
    }
  }

  lemma {:induction false} CoveringNeeds(xs: seq<nat>, n: nat)
    requires forall c: nat :: c < n ==> c in xs
    ensures n <= |xs|
    decreases n
  {
    if n > 0 {
      assert n - 1 in xs;
      var j :| 0 <= j < |xs| && xs[j] == n - 1;
      var rest := xs[..j] + xs[j + 1..];
      forall c: nat | c < n - 1 ensures c in rest {
        assert c in xs;
        var i :| 0 <= i < |xs| && xs[i] == c;
        assert rest[if i < j then i else i - 1] == c;
      }
      CoveringNeeds(rest, n - 1);
    }
  }

  lemma RejectedMeansTooMany(s: Hub, c: nat)
    requires RegistryOk(s) && c in s.rejected
    ensures |s.clients| > MAX_CLIENTS
  {
    DistinctFit(s.registry + [c], |s.clients|);
  }

  /** Progress of the hub.  Every run makes a bounded number of moves, and when no process can
      move any more, the server is idle, every registered client has sent all its lines and
      received all its messages, the others have been rejected, and everybody is connected
      if and only if there were no more than ten processes. */
  lemma EveryRunSettles(inputs: seq<seq<string>>, schedule: seq<Actor>)
    ensures Moves(Init(inputs), schedule) <= Work(Init(inputs))
    ensures var s := Run(Init(inputs), schedule);
            Stuck(s) ==>
              && s.server.Receive? && s.inbox == []
              && (forall c: nat :: c < |s.clients| ==> Settled(s, c))
              && ((forall c: nat :: c < |s.clients| ==> c in s.registry) <==> |s.clients| <= 10)
  {
    var s := Run(Init(inputs), schedule);
    InitInv(inputs);
    MovesAreBounded(Init(inputs), schedule);
    WorkIsNatural(s);
    hide Run, Init, Work, Moves, StagesOk, TextsOk, DeliveryOk, QueuesFit, Enabled;
    if Stuck(s) {
      ServerIsIdle(s);
      forall c: nat | c < |s.clients| ensures Settled(s, c) {
        ClientIsSettled(s, c);
      }
      if forall c: nat :: c < |s.clients| ==> c in s.registry {
        CoveringNeeds(s.registry, |s.clients|);
      } else {
        var c: nat :| c < |s.clients| && c !in s.registry;
        assert Settled(s, c);
        RejectedMeansTooMany(s, c);
      }
    }
  }

  /** In the end, a client that registered before `j` has received exactly the lines that
      `j` typed, in order, mere line breaks left out. */
  lemma EverythingArrives(inputs: seq<seq<string>>, schedule: seq<Actor>, i: nat, j: nat)
    requires Stuck(Run(Init(inputs), schedule))
    requires i < j < |Run(Init(inputs), schedule).registry|
    ensures var s := Run(Init(inputs), schedule);
            && s.registry[i] < |s.clients| && s.registry[j] < |inputs|
            && LinesOf(s.clients[s.registry[i]].received, j)
               == Select(inputs[s.registry[j]], (l: string) => l != "\n")
  {
    hide Run, Init, LinesOf, StagesOk, TextsOk, DeliveryOk, QueuesFit, Stuck;
    var s := Run(Init(inputs), schedule);
    RunKeeps(inputs, schedule);
    ServerIsIdle(s);
    ClientIsSettled(s, s.registry[i]);
    ClientIsSettled(s, s.registry[j]);
    EveryLineOnceInOrder(inputs, schedule, i, j);
    assert Sent(s, i) == s.clients[s.registry[i]].received;
    NoLines(j);
  }

  /** Text is never lost: if `j` typed no mere line break, its lines arrive as they were typed. */
  lemma TextArrives(inputs: seq<seq<string>>, schedule: seq<Actor>, i: nat, j: nat)
    requires Stuck(Run(Init(inputs), schedule))
    requires i < j < |Run(Init(inputs), schedule).registry|
    ensures var s := Run(Init(inputs), schedule);
            && s.registry[i] < |s.clients| && s.registry[j] < |inputs|
            && ("\n" !in inputs[s.registry[j]] ==>
                  LinesOf(s.clients[s.registry[i]].received, j) == inputs[s.registry[j]])
  {
    hide Run, Init, LinesOf, Stuck, Select;
    EverythingArrives(inputs, schedule, i, j);
    var typed := inputs[Run(Init(inputs), schedule).registry[j]];
    if "\n" !in typed {
      SelectAll(typed, (l: string) => l != "\n");
    }
  }

  lemma NoLines(j: nat)
    ensures LinesOf([], j) == []
  {
  }

  /** And such an end can be reached from every reachable state. */
  lemma {:induction false} CanSettle(s: Hub) returns (schedule: seq<Actor>)
    requires Inv(s)
    ensures Stuck(Run(s, schedule))
    decreases Work(s)
  {
    WorkIsNatural(s);
    hide Inv, Work;
    if a :| Enabled(s, a) {
      StepKeeps(s, a);
      StepWorks(s, a);
      WorkIsNatural(Next(s, a));
      var rest := CanSettle(Next(s, a));
      schedule := [a] + rest;
      RunAfter(s, a, rest);
    } else {
      schedule := [];
    }
  }

  lemma {:induction false} RunAfter(s: Hub, a: Actor, rest: seq<Actor>)
    ensures Run(s, [a] + rest) == Run(Next(s, a), rest)
  {
    if rest == [] {
      assert ([a] + rest)[..0] == [];
    } else {
      RunAfter(s, a, rest[..|rest| - 1]);
      assert ([a] + rest)[..|rest|] == [a] + rest[..|rest| - 1];
    }
  }
}
