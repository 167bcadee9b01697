/** The chat hub of lab4 as asynchronous steps: one server, and for each client a main process
    that registers and then sends the user's lines, and a receiver.  The message queues are
    first-in-first-out and hold at most `MAX_MSG` messages; a process that would block on a
    full or an empty queue does not move. */
module ChatHub {

  const MAX_CLIENTS: nat := 10
  const MAX_MSG: nat := 10

  // ---------------------------------------------------------------- state

  /** A registration names the queue of the client process that sent it. */
  datatype Message = InitMsg(queue: nat) | IdAssign(id: nat) | Text(id: nat, text: string)

  datatype ClientPc = SendInit | AwaitReply | Chatting | ShutDown

  /** `todo` are the lines still to be read from the user, `received` all that was taken off
      the client's queue. */
  datatype Client = Client(pc: ClientPc, id: int, todo: seq<string>, queue: seq<Message>, received: seq<Message>)

  datatype ServerPc = Receive | Reply(id: nat) | Broadcast(msg: Message, i: nat)

  /** `registry[id]` is the client process whose queue the server keeps under `id`.  The log
      lists the text messages the server has taken up, `joinedAt[id]` its length when `id`
      was assigned, `rejected` the processes that found the hub full. */
  datatype Hub = Hub(
    inbox: seq<Message>, server: ServerPc, clients: seq<Client>, registry: seq<nat>,
    log: seq<Message>, joinedAt: seq<nat>, rejected: seq<nat>)

  datatype Actor = Server | Main(c: nat) | Receiver(c: nat)

  function Init(inputs: seq<seq<string>>): Hub {
    Hub([], Receive,
        seq(|inputs|, c requires 0 <= c < |inputs| => Client(SendInit, -1, inputs[c], [], [])),
        [], [], [], [])
  }

  // ---------------------------------------------------------------- steps

  function Deliver(s: Hub, id: nat, m: Message): Hub
    requires id < |s.registry| && s.registry[id] < |s.clients|
  {
    var c := s.registry[id];
    s.(clients := s.clients[c := s.clients[c].(queue := s.clients[c].queue + [m])])
  }

  predicate HasRoom(s: Hub, id: nat) {
    id < |s.registry| && s.registry[id] < |s.clients| && |s.clients[s.registry[id]].queue| < MAX_MSG
  }

  /** An empty line is read and not sent. */
  predicate Blank(line: string) {
    line == "\n"
  }

  predicate Enabled(s: Hub, a: Actor) {
    match a
    case Server =>
      (match s.server
       case Receive => s.inbox != []
       case Reply(id) => HasRoom(s, id)
       case Broadcast(m, i) => m.Text? && i < |s.registry| && i != m.id ==> HasRoom(s, i))
    case Main(c) =>
      c < |s.clients| &&
      (match s.clients[c].pc
       case SendInit => |s.inbox| < MAX_MSG
       case AwaitReply => s.clients[c].queue != []
       case Chatting => s.clients[c].todo != [] && (Blank(s.clients[c].todo[0]) || |s.inbox| < MAX_MSG)
       case ShutDown => false)
    case Receiver(c) =>
      c < |s.clients| && s.clients[c].pc == Chatting && s.clients[c].queue != []
  }

  function ServerNext(s: Hub): Hub
    requires Enabled(s, Server)
  {
    match s.server
    case Receive =>
      var m, rest := s.inbox[0], s.inbox[1..];
      if m.InitMsg? then
        if |s.registry| < MAX_CLIENTS
        then s.(inbox := rest, server := Reply(|s.registry|),
                registry := s.registry + [m.queue], joinedAt := s.joinedAt + [|s.log|])
        else s.(inbox := rest, rejected := s.rejected + [m.queue])
      else if m.Text? then s.(inbox := rest, server := Broadcast(m, 0), log := s.log + [m])
      else s.(inbox := rest)
    case Reply(id) => Deliver(s, id, IdAssign(id)).(server := Receive)
    case Broadcast(m, i) =>
      if !(i < |s.registry|) then s.(server := Receive)
      else if m.Text? && i != m.id then Deliver(s, i, m).(server := Broadcast(m, i + 1))
      else s.(server := Broadcast(m, i + 1))
  }

  function MainNext(s: Hub, c: nat): Hub
    requires Enabled(s, Main(c))
  {
    var k := s.clients[c];
    match k.pc
    case SendInit => s.(inbox := s.inbox + [InitMsg(c)], clients := s.clients[c := k.(pc := AwaitReply)])
    case AwaitReply =>
      var m := k.queue[0];
      var k' := k.(queue := k.queue[1..], received := k.received + [m]);
      s.(clients := s.clients[c := if m.IdAssign? then k'.(pc := Chatting, id := m.id) else k'.(pc := ShutDown)])
    case Chatting =>
      var k' := k.(todo := k.todo[1..]);
      if Blank(k.todo[0]) || k.id < 0 then s.(clients := s.clients[c := k'])
      else s.(inbox := s.inbox + [Text(k.id, k.todo[0])], clients := s.clients[c := k'])
    case ShutDown => s
  }

  function ReceiverNext(s: Hub, c: nat): Hub
    requires Enabled(s, Receiver(c))
  {
    var k := s.clients[c];
    s.(clients := s.clients[c := k.(queue := k.queue[1..], received := k.received + [k.queue[0]])])
  }

  function Next(s: Hub, a: Actor): Hub {
    if !Enabled(s, a) then s
    else match a
      case Server => ServerNext(s)
      case Main(c) => MainNext(s, c)
      case Receiver(c) => ReceiverNext(s, c)
  }

  function Run(s: Hub, schedule: seq<Actor>): Hub {
    if schedule == [] then s else Next(Run(s, schedule[..|schedule| - 1]), schedule[|schedule| - 1])
  }
}
