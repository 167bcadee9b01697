/** The server of lab4 handling one message at a time, updated in place, and the proof that the
    hub, whose server sends message by message between the steps of the clients, answers its
    inbox as if each message were handled at once. */
module ChatServers {
  import opened ChatDelivery
  import opened ChatHub

  /** A message handed to the queue of client process `queue`. */
  datatype Send = Send(queue: nat, msg: Message)

  // ---------------------------------------------------------------- handling a message at once

  function Registered(registry: seq<nat>, m: Message): seq<nat> {
    if m.InitMsg? && |registry| < MAX_CLIENTS then registry + [m.queue] else registry
  }

  /** The broadcast from identifier `i` on: to everybody but the sender. */
  function Deliveries(registry: seq<nat>, m: Message, i: nat): seq<Send>
    requires m.Text?
    decreases |registry| - i
  {
    if i >= |registry| then []
    else (if i != m.id then [Send(registry[i], m)] else []) + Deliveries(registry, m, i + 1)
  }

  function Answers(registry: seq<nat>, m: Message): seq<Send> {
    if m.InitMsg? && |registry| < MAX_CLIENTS then [Send(m.queue, IdAssign(|registry|))]
    else if m.Text? then Deliveries(registry, m, 0)
    else []
  }

  /** The registry and the sends after a whole list of messages. */
  function RegistryAfter(msgs: seq<Message>): seq<nat> {
    if msgs == [] then [] else Registered(RegistryAfter(msgs[..|msgs| - 1]), msgs[|msgs| - 1])
  }

  function AnswersTo(msgs: seq<Message>): seq<Send> {
    if msgs == [] then []
    else AnswersTo(msgs[..|msgs| - 1]) + Answers(RegistryAfter(msgs[..|msgs| - 1]), msgs[|msgs| - 1])
  }

  ghost predicate Distinct(registry: seq<nat>) {
    forall a, b :: 0 <= a < b < |registry| ==> registry[a] != registry[b]
  }

  /** A text goes exactly once to every registered client other than its sender... */
  lemma {:induction false} DeliveredToTheOthers(registry: seq<nat>, m: Message, i: nat, j: nat)
    requires m.Text? && j < |registry| && Distinct(registry)
    ensures multiset(Deliveries(registry, m, i))[Send(registry[j], m)] == if i <= j && j != m.id then 1 else 0
    decreases |registry| - i
  {
    hide Deliveries;
    var x := Send(registry[j], m);
    if i >= |registry| {
      NothingLeft(registry, m, i, x);
    } else {
      assert x == Send(registry[i], m) <==> i == j;
      DeliveredToTheOthers(registry, m, i + 1, j);
      Prepended(registry, m, i, x);
    }
  }

  lemma NothingLeft(registry: seq<nat>, m: Message, i: nat, x: Send)
    requires m.Text? && i >= |registry|
    ensures multiset(Deliveries(registry, m, i))[x] == 0
  {
  }

  lemma Prepended(registry: seq<nat>, m: Message, i: nat, x: Send)
    requires m.Text? && i < |registry|
    ensures multiset(Deliveries(registry, m, i))[x]
         == multiset(Deliveries(registry, m, i + 1))[x] + if i != m.id && x == Send(registry[i], m) then 1 else 0
  {
  }

  /** ...and to nobody else. */
  lemma {:induction false} DeliveredToNobodyElse(registry: seq<nat>, m: Message, i: nat, x: Send)
    requires m.Text? && x in Deliveries(registry, m, i)
    ensures x.msg == m && x.queue in registry[i..]
    decreases |registry| - i
  {
    if x in Deliveries(registry, m, i + 1) {
      DeliveredToNobodyElse(registry, m, i + 1, x);
      assert registry[i..][1..] == registry[i + 1..];
    } else {
      assert registry[i] == registry[i..][0];
    }
  }

  lemma OneMoreAnswered(msgs: seq<Message>, m: Message)
    ensures RegistryAfter(msgs + [m]) == Registered(RegistryAfter(msgs), m)
    ensures AnswersTo(msgs + [m]) == AnswersTo(msgs) + Answers(RegistryAfter(msgs), m)
  {
    assert (msgs + [m])[..|msgs|] == msgs;
  }

  class ChatServer {
    const clientQueues: array<int>
    var activeClients: nat
    /** What has been handed to `mq_send`. */
    var sent: seq<Send>

    ghost predicate Valid()
      reads this, clientQueues
    {
      && clientQueues.Length == MAX_CLIENTS && activeClients <= MAX_CLIENTS
      && forall i :: 0 <= i < activeClients ==> clientQueues[i] >= 0
    }

    /** The queues of the registered clients, by identifier. */
    ghost function Registry(): seq<nat>
      requires Valid()
      reads this, clientQueues
    {
      seq(activeClients,
          i requires 0 <= i < activeClients reads this, clientQueues requires Valid() => clientQueues[i] as nat)
    }

    constructor ()
      ensures Valid() && fresh(clientQueues) && Registry() == [] && sent == []
    {
      clientQueues := new int[MAX_CLIENTS](_ => -1);
      activeClients, sent := 0, [];
    }

    /** One turn of the receive loop. */
    method Handle(msg: Message)
      requires Valid()
      modifies this, clientQueues
      ensures Valid()
      ensures Registry() == Registered(old(Registry()), msg)
      ensures sent == old(sent) + Answers(old(Registry()), msg)
    {
      if msg.InitMsg? {
        if activeClients < MAX_CLIENTS {
          var newId := activeClients;
          clientQueues[newId] := msg.queue;
          activeClients := activeClients + 1;
          sent := sent + [Send(msg.queue, IdAssign(newId))];
        }
      } else if msg.Text? {
        for i := 0 to activeClients
          invariant Valid() && activeClients == old(activeClients) && Registry() == old(Registry())
          invariant sent + Deliveries(Registry(), msg, i) == old(sent) + Deliveries(Registry(), msg, 0)
        {
          if i != msg.id && clientQueues[i] != -1 {
            sent := sent + [Send(clientQueues[i], msg)];
          }
        }
      }
    }
  }

  // ---------------------------------------------------------------- handling it step by step

  /** What the server takes off its inbox in one turn. */
  function TakenBy(s: Hub, a: Actor): seq<Message> {
    if a.Server? && s.server.Receive? && s.inbox != [] then [s.inbox[0]] else []
  }

  /** What it sends in one turn. */
  function SentBy(s: Hub, a: Actor): seq<Send> {
    if !a.Server? || !Enabled(s, Server) then []
    else match s.server
      case Receive => []
      case Reply(id) => [Send(s.registry[id], IdAssign(id))]
      case Broadcast(m, i) => if m.Text? && i < |s.registry| && i != m.id then [Send(s.registry[i], m)] else []
  }

  function Taken(s: Hub, schedule: seq<Actor>): seq<Message> {
    if schedule == [] then []
    else Taken(s, schedule[..|schedule| - 1]) + TakenBy(Run(s, schedule[..|schedule| - 1]), schedule[|schedule| - 1])
  }

  function Sent(s: Hub, schedule: seq<Actor>): seq<Send> {
    if schedule == [] then []
    else Sent(s, schedule[..|schedule| - 1]) + SentBy(Run(s, schedule[..|schedule| - 1]), schedule[|schedule| - 1])
  }

  /** What the server has still to send for the message it is at. */
  function Owed(s: Hub): seq<Send> {
    match s.server
    case Receive => []
    case Reply(id) => if id < |s.registry| then [Send(s.registry[id], IdAssign(id))] else []
    case Broadcast(m, i) => if m.Text? then Deliveries(s.registry, m, i) else []
  }

  /** Taking a message owes its answers; sending pays them in order. */
  lemma StepAnswers(s: Hub, a: Actor)
    requires ServerOk(s)
    ensures TakenBy(s, a) == [] ==>
              Next(s, a).registry == s.registry && SentBy(s, a) + Owed(Next(s, a)) == Owed(s)
    ensures TakenBy(s, a) != [] ==>
              && s.inbox != [] && TakenBy(s, a) == [s.inbox[0]] && SentBy(s, a) == [] && Owed(s) == []
              && Next(s, a).registry == Registered(s.registry, s.inbox[0])
              && Owed(Next(s, a)) == Answers(s.registry, s.inbox[0])
  {
    if a.Server? {
      hide MainNext, ReceiverNext;
    } else {
      ClientsLeaveServer(s, a);
    }
  }

  lemma ClientsLeaveServer(s: Hub, a: Actor)
    requires !a.Server?
    ensures Next(s, a).registry == s.registry && Next(s, a).server == s.server
  {
  }

  /** Whatever the clients do meanwhile, the server has sent, up to what it owes for the message
      it is at, exactly what handling the messages one at a time in inbox order sends, and in
      the same order; and it has registered the same clients. */
  lemma {:induction false} AnsweredInInboxOrder(inputs: seq<seq<string>>, schedule: seq<Actor>)
    ensures var s, taken := Run(Init(inputs), schedule), Taken(Init(inputs), schedule);
            && s.registry == RegistryAfter(taken)
            && Sent(Init(inputs), schedule) + Owed(s) == AnswersTo(taken)
  {
    hide Next, SentBy, TakenBy, Answers, Registered, Owed, Inv, Init, AnswersTo, RegistryAfter;
    NothingOwed(inputs);
    if schedule != [] {
      var before, a := schedule[..|schedule| - 1], schedule[|schedule| - 1];
      AnsweredInInboxOrder(inputs, before);
      ServerStaysOk(inputs, before);
      var s := Run(Init(inputs), before);
      StepAnswers(s, a);
      var taken := Taken(Init(inputs), before);
      if TakenBy(s, a) == [] {
        assert taken + TakenBy(s, a) == taken;
      } else {
        OneMoreAnswered(taken, s.inbox[0]);
      }
    }
  }

  lemma ServerStaysOk(inputs: seq<seq<string>>, schedule: seq<Actor>)
    ensures ServerOk(Run(Init(inputs), schedule))
  {
    hide Run, Init;
    RunKeeps(inputs, schedule);
  }

  lemma NothingOwed(inputs: seq<seq<string>>)
    ensures Owed(Init(inputs)) == [] && AnswersTo([]) == [] && RegistryAfter([]) == Init(inputs).registry
  {
  }
}
