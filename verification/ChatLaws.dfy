/** What the users of the chat hub can rely on, in every run: the handshake, one order of
    messages for all, and every line delivered once and in the order it was typed. */
module ChatLaws {
  import opened ChatHub
  import opened ChatDelivery
  import opened Totals

  // ---------------------------------------------------------------- handshake

  lemma {:induction false} OthersAreTexts(msgs: seq<Message>, id: nat)
    ensures forall k :: 0 <= k < |Others(msgs, id)| ==> Others(msgs, id)[k].Text? && Others(msgs, id)[k].id != id
  {
    if msgs != [] {
      var n := |msgs| - 1;
      OthersAreTexts(msgs[..n], id);
      OthersOne(msgs[..n], msgs[n], id);
      assert msgs == msgs[..n] + [msgs[n]];
      hide Others;
    }
  }

  /** Handshake safety, in every run: identifiers are given to different processes, no client
      shuts down, the first message that client `j` takes off its queue is the assignment
      of `j`, and all the later ones are texts of other clients. */
  lemma Handshake(inputs: seq<seq<string>>, schedule: seq<Actor>, j: nat)
    requires j < |Run(Init(inputs), schedule).registry|
    ensures var s := Run(Init(inputs), schedule);
            && |s.registry| <= MAX_CLIENTS && s.registry[j] < |s.clients|
            && (forall i :: 0 <= i < |s.registry| && i != j ==> s.registry[i] != s.registry[j])
            && (var k := s.clients[s.registry[j]];
                && k.pc != ShutDown
                && (k.pc == Chatting ==> k.id == j && k.received != [])
                && (k.received != [] ==> k.received[0] == IdAssign(j))
                && forall n :: 1 <= n < |k.received| ==> k.received[n].Text? && k.received[n].id != j)
  {
    RunKeeps(inputs, schedule);
    hide Run, Init, Others, TextsOk, ServerOk, QueuesFit;
    var s := Run(Init(inputs), schedule);
    assert Seen(s, j) + Pending(s, j) == Due(s, j);
    OthersAreTexts(s.log[s.joinedAt[j]..], j);
    var k := s.clients[s.registry[j]];
    assert forall n :: 0 <= n < |k.received| ==> k.received[n] == (Seen(s, j) + Pending(s, j))[n];
  }

  // ---------------------------------------------------------------- one order for all

  ghost predicate IsSuffix<T>(xs: seq<T>, ys: seq<T>) {
    |xs| <= |ys| && ys[|ys| - |xs|..] == xs
  }

  lemma OthersConcat(xs: seq<Message>, ys: seq<Message>, id: nat)
    ensures Others(xs + ys, id) == Others(xs, id) + Others(ys, id)
  {
    SelectConcat(xs, ys, (m: Message) => m.Text? && m.id != id);
  }

  lemma {:induction false} OthersCommute(msgs: seq<Message>, a: nat, b: nat)
    ensures Others(Others(msgs, a), b) == Others(Others(msgs, b), a)
  {
    if msgs != [] {
      var before, m := msgs[..|msgs| - 1], msgs[|msgs| - 1];
      var xa, xb := Others(before, a), Others(before, b);
      OthersCommute(before, a, b);
      assert Others(msgs, a) == if m.Text? && m.id != a then xa + [m] else xa;
      assert Others(msgs, b) == if m.Text? && m.id != b then xb + [m] else xb;
      OthersOne(xa, m, b);
      OthersOne(xb, m, a);
      hide Others;
    }
  }

  /** What client `j` has been sent or is about to be sent by the broadcast in progress. */
  function Sent(s: Hub, j: nat): seq<Message>
    requires j < |s.registry| && s.registry[j] < |s.clients|
  {
    Seen(s, j) + Pending(s, j)
  }

  lemma OthersOfId(id: nat, other: nat)
    ensures Others([IdAssign(id)], other) == [] && Others([], other) == []
  {
    OthersOne([], IdAssign(id), other);
    assert [] + [IdAssign(id)] == [IdAssign(id)];
  }

  lemma SentOthers(s: Hub, a: nat, b: nat)
    requires Inv(s) && a < |s.registry| && s.server != Reply(a)
    ensures Others(Sent(s, a), b) == Others(Others(s.log[s.joinedAt[a]..], a), b)
  {
    hide StagesOk, TextsOk, ServerOk, QueuesFit, Others;
    DeliveryLaw(s, a);
    var texts := Others(s.log[s.joinedAt[a]..], a);
    OthersConcat([IdAssign(a)], texts, b);
    OthersOfId(a, b);
  }

  /** The same on the log: what `b` is owed from its later entry on, seen without `a`. */
  lemma LogOrder(log: seq<Message>, first: nat, second: nat, a: nat, b: nat)
    requires first <= second <= |log|
    ensures IsSuffix(Others(Others(log[second..], b), a), Others(Others(log[first..], a), b))
  {
    hide Others, IsSuffix;
    var early, later := log[first..second], log[second..];
    assert log[first..] == early + later;
    OthersCommute(later, a, b);
    OthersConcat(early, later, a);
    OthersConcat(Others(early, a), Others(later, a), b);
    TailIsSuffix(Others(Others(early, a), b), Others(Others(later, a), b));
  }

  /** Total order.  Of the messages that concern neither of two clients, the one that joined
      later is sent exactly a final part of what the other is sent: from then on both get
      the same messages, each once and in the same order. */
  lemma TotalOrder(s: Hub, a: nat, b: nat)
    requires Inv(s) && a < b < |s.registry|
    ensures s.registry[a] < |s.clients| && s.registry[b] < |s.clients|
    ensures IsSuffix(Others(Sent(s, b), a), Others(Sent(s, a), b))
  {
    hide StagesOk, TextsOk, QueuesFit, Others, IsSuffix;
    SentOthers(s, a, b);
    if s.server == Reply(b) {
      assert Sent(s, b) == Due(s, b) == [];
      OthersOfId(b, a);
      TailIsSuffix(Others(Sent(s, a), b), []);
    } else {
      SentOthers(s, b, a);
      LogOrder(s.log, s.joinedAt[a], s.joinedAt[b], a, b);
    }
  }

  lemma TailIsSuffix<T>(xs: seq<T>, ys: seq<T>)
    ensures IsSuffix(ys, xs + ys) && xs + [] == xs
  {
  }

  // ---------------------------------------------------------------- every line once, in order

  lemma LinesOne(msgs: seq<Message>, m: Message, id: nat)
    ensures LinesOf(msgs + [m], id) == LinesOf(msgs, id) + if m.Text? && m.id == id then [m.text] else []
  {
    assert (msgs + [m])[..|msgs|] == msgs;
  }

  lemma {:induction false} LinesConcat(xs: seq<Message>, ys: seq<Message>, id: nat)
    ensures LinesOf(xs + ys, id) == LinesOf(xs, id) + LinesOf(ys, id)
  {
    if ys == [] {
      assert xs + ys == xs;
    } else {
      LinesConcat(xs, ys[..|ys| - 1], id);
      assert (xs + ys)[..|xs + ys| - 1] == xs + ys[..|ys| - 1];
    }
  }

  lemma LinesHead(msgs: seq<Message>, id: nat)
    requires msgs != []
    ensures LinesOf(msgs, id)
         == (if msgs[0].Text? && msgs[0].id == id then [msgs[0].text] else []) + LinesOf(msgs[1..], id)
  {
    assert msgs == [msgs[0]] + msgs[1..];
    assert [msgs[0]][..0] == [];
    LinesConcat([msgs[0]], msgs[1..], id);
  }

  lemma {:induction false} LinesOfOthers(msgs: seq<Message>, a: nat, b: nat)
    requires a != b
    ensures LinesOf(Others(msgs, a), b) == LinesOf(msgs, b)
  {
    if msgs != [] {
      var before, m := msgs[..|msgs| - 1], msgs[|msgs| - 1];
      var xa := Others(before, a);
      LinesOfOthers(before, a, b);
      assert Others(msgs, a) == if m.Text? && m.id != a then xa + [m] else xa;
      LinesOne(xa, m, b);
      hide Others;
    }
  }

  lemma {:induction false} NobodysLines(msgs: seq<Message>, id: nat)
    requires forall p :: 0 <= p < |msgs| ==> msgs[p].Text? ==> msgs[p].id != id
    ensures LinesOf(msgs, id) == []
  {
    if msgs != [] {
      NobodysLines(msgs[..|msgs| - 1], id);
    }
  }

  /** What client `j` has typed, blank lines left out, is what the server has taken up from
      it, then what is on its way, then what is still to be typed. */
  ghost predicate FlowOk(s: Hub, inputs: seq<seq<string>>)
    requires RegistryOk(s)
  {
    && |inputs| == |s.clients|
    && (forall c :: 0 <= c < |inputs| && c !in s.registry ==> s.clients[c].todo == inputs[c])
    && (forall j :: 0 <= j < |s.registry| ==>
          LinesOf(s.log, j) + LinesOf(s.inbox, j) + NonBlank(s.clients[s.registry[j]].todo)
          == NonBlank(inputs[s.registry[j]]))
  }

  /** The part of the flow that belongs to client `j`. */
  function Flow(s: Hub, j: nat): seq<string>
    requires j < |s.registry| && s.registry[j] < |s.clients|
  {
    LinesOf(s.log, j) + LinesOf(s.inbox, j) + NonBlank(s.clients[s.registry[j]].todo)
  }

  lemma LinesTaken(log: seq<Message>, inbox: seq<Message>, j: nat)
    requires inbox != []
    ensures LinesOf(log, j) + LinesOf(inbox, j)
         == LinesOf(if inbox[0].Text? then log + [inbox[0]] else log, j) + LinesOf(inbox[1..], j)
  {
    LinesHead(inbox, j);
    LinesOne(log, inbox[0], j);
    hide LinesOf;
    var line := if inbox[0].Text? && inbox[0].id == j then [inbox[0].text] else [];
    Regroup(LinesOf(log, j), [], line, LinesOf(inbox[1..], j));
    assert LinesOf(log, j) + [] == LinesOf(log, j) && [] + line == line;
  }

  lemma InboxTaken(s: Hub, j: nat)
    requires Inv(s) && s.server.Receive? && s.inbox != [] && j < |s.registry|
    ensures Flow(ServerNext(s), j) == Flow(s, j)
  {
    hide LinesOf, NonBlank, StagesOk, DeliveryOk, QueuesFit;
    LinesTaken(s.log, s.inbox, j);
  }

  lemma NewcomerIsSilent(s: Hub)
    requires Inv(s) && s.server.Receive? && s.inbox != [] && s.inbox[0].InitMsg?
    ensures LinesOf(s.log, |s.registry|) == [] && LinesOf(s.inbox[1..], |s.registry|) == []
  {
    NobodysLines(s.log, |s.registry|);
    NobodysLines(s.inbox[1..], |s.registry|);
  }

  /** Steps that neither take up, send nor read a line. */
  lemma SameFlow(s: Hub, s': Hub, inputs: seq<seq<string>>)
    requires RegistryOk(s) && FlowOk(s, inputs) && RegistryOk(s')
    requires s'.registry == s.registry && |s'.clients| == |s.clients|
    requires forall c :: 0 <= c < |s.clients| ==> s'.clients[c].todo == s.clients[c].todo
    requires forall j :: 0 <= j < |s.registry| ==>
               LinesOf(s'.log, j) + LinesOf(s'.inbox, j) == LinesOf(s.log, j) + LinesOf(s.inbox, j)
    ensures FlowOk(s', inputs)
  {
    hide LinesOf, NonBlank;
  }

  lemma ReceiveKeepsFlow(s: Hub, inputs: seq<seq<string>>)
    requires Inv(s) && FlowOk(s, inputs) && s.server.Receive? && s.inbox != []
    requires RegistryOk(ServerNext(s))
    ensures FlowOk(ServerNext(s), inputs)
  {
    hide LinesOf, NonBlank, StagesOk, TextsOk, DeliveryOk, QueuesFit;
    var s' := ServerNext(s);
    if s.inbox[0].InitMsg? {
      NewcomerIsSilent(s);
      FirstIsNew(s);
    }
    forall j | 0 <= j < |s.registry|
      ensures Flow(s', j) == NonBlank(inputs[s'.registry[j]])
    {
      InboxTaken(s, j);
      assert Flow(s, j) == NonBlank(inputs[s.registry[j]]);
    }
  }

  lemma FirstIsNew(s: Hub)
    requires StagesOk(s) && s.inbox != [] && s.inbox[0].InitMsg?
    ensures s.inbox[0].queue !in s.registry && s.inbox[0].queue < |s.clients|
  {
  }

  lemma ServerKeepsFlow(s: Hub, inputs: seq<seq<string>>)
    requires Inv(s) && FlowOk(s, inputs) && Enabled(s, Server)
    requires RegistryOk(ServerNext(s))
    ensures FlowOk(ServerNext(s), inputs)
  {
    hide LinesOf, NonBlank, FlowOk, StagesOk, TextsOk, DeliveryOk, QueuesFit;
    if s.server.Receive? {
      ReceiveKeepsFlow(s, inputs);
    } else {
      SameFlow(s, ServerNext(s), inputs);
    }
  }

  lemma NonBlankHead(todo: seq<string>)
    requires todo != []
    ensures NonBlank(todo) == (if Blank(todo[0]) then [] else [todo[0]]) + NonBlank(todo[1..])
  {
    SelectHead(todo, (l: string) => l != "\n");
  }

  lemma ChattingMoves(s: Hub, c: nat)
    requires Inv(s) && Enabled(s, Main(c)) && s.clients[c].pc == Chatting
    ensures var k, s' := s.clients[c], MainNext(s, c);
            && k.id >= 0 && k.todo != [] && c in s.registry && k.id < |s.registry| && s.registry[k.id] == c
            && s'.log == s.log && s'.registry == s.registry
            && s'.inbox == s.inbox + (if Blank(k.todo[0]) then [] else [Text(k.id, k.todo[0])])
            && s'.clients == s.clients[c := k.(todo := k.todo[1..])]
  {
    hide TextsOk, DeliveryOk, QueuesFit;
  }

  /** A client's line moves from its user to the server's queue, or is dropped if blank. */
  lemma LineMoves(s: Hub, c: nat, j: nat)
    requires Inv(s) && Enabled(s, Main(c)) && s.clients[c].pc == Chatting && j < |s.registry|
    ensures Flow(MainNext(s, c), j) == Flow(s, j)
  {
    ChattingMoves(s, c);
    var s', k := MainNext(s, c), s.clients[c];
    hide MainNext, StagesOk, TextsOk, DeliveryOk, QueuesFit;
    NonBlankHead(k.todo);
    if !Blank(k.todo[0]) {
      LinesOne(s.inbox, Text(k.id, k.todo[0]), j);
    }
    hide LinesOf, NonBlank;
    var taken, waiting := LinesOf(s.log, j), LinesOf(s.inbox, j);
    if k.id == j && !Blank(k.todo[0]) {
      Regroup(taken, waiting, [k.todo[0]], NonBlank(k.todo[1..]));
    }
  }

  lemma Regroup<T>(a: seq<T>, b: seq<T>, c: seq<T>, d: seq<T>)
    ensures (a + (b + c)) + d == (a + b) + (c + d)
  {
  }

  lemma ChattingKeepsFlow(s: Hub, inputs: seq<seq<string>>, c: nat)
    requires Inv(s) && FlowOk(s, inputs) && Enabled(s, Main(c)) && s.clients[c].pc == Chatting
    requires RegistryOk(MainNext(s, c))
    ensures FlowOk(MainNext(s, c), inputs)
  {
    ChattingMoves(s, c);
    hide MainNext, Enabled, LinesOf, NonBlank, StagesOk, TextsOk, DeliveryOk, QueuesFit;
    var s' := MainNext(s, c);
    forall j | 0 <= j < |s.registry|
      ensures Flow(s', j) == NonBlank(inputs[s'.registry[j]])
    {
      LineMoves(s, c, j);
      assert Flow(s, j) == NonBlank(inputs[s.registry[j]]);
    }
  }

  lemma MainKeepsFlow(s: Hub, inputs: seq<seq<string>>, c: nat)
    requires Inv(s) && FlowOk(s, inputs) && Enabled(s, Main(c))
    requires RegistryOk(MainNext(s, c))
    ensures FlowOk(MainNext(s, c), inputs)
  {
    hide LinesOf, FlowOk, NonBlank, StagesOk, TextsOk, DeliveryOk, QueuesFit;
    if s.clients[c].pc == Chatting {
      ChattingKeepsFlow(s, inputs, c);
    } else {
      forall j | 0 <= j < |s.registry|
        ensures LinesOf(MainNext(s, c).inbox, j) == LinesOf(s.inbox, j)
      {
        LinesOne(s.inbox, InitMsg(c), j);
      }
      SameFlow(s, MainNext(s, c), inputs);
    }
  }

  lemma ReceiverKeepsFlow(s: Hub, inputs: seq<seq<string>>, c: nat)
    requires Inv(s) && FlowOk(s, inputs) && Enabled(s, Receiver(c))
    requires RegistryOk(ReceiverNext(s, c))
    ensures FlowOk(ReceiverNext(s, c), inputs)
  {
    hide LinesOf, NonBlank, FlowOk, TextsOk, DeliveryOk;
    SameFlow(s, ReceiverNext(s, c), inputs);
  }

  lemma {:induction false} RunKeepsFlow(inputs: seq<seq<string>>, schedule: seq<Actor>)
    ensures var s := Run(Init(inputs), schedule); Inv(s) && FlowOk(s, inputs)
  {
    RunKeeps(inputs, schedule);
    if schedule != [] {
      var s := Run(Init(inputs), schedule[..|schedule| - 1]);
      var a := schedule[|schedule| - 1];
      RunKeepsFlow(inputs, schedule[..|schedule| - 1]);
      if Enabled(s, a) {
        match a {
          case Server => ServerKeepsFlow(s, inputs);
          case Main(c) => MainKeepsFlow(s, inputs, c);
          case Receiver(c) => ReceiverKeepsFlow(s, inputs, c);
        }
      }
    }
  }

  lemma SentLines(s: Hub, i: nat, j: nat)
    requires Inv(s) && i < |s.registry| && j != i && s.server != Reply(i)
    ensures LinesOf(Sent(s, i), j) == LinesOf(s.log[s.joinedAt[i]..], j)
  {
    var late := s.log[s.joinedAt[i]..];
    assert Sent(s, i) == Due(s, i) == [IdAssign(i)] + Others(late, i);
    LinesConcat([IdAssign(i)], Others(late, i), j);
    assert [IdAssign(i)][..0] == [];
    LinesOfOthers(late, i, j);
  }

  /** Delivery end to end, in every run and at every moment: the lines that client `j` typed,
      mere line breaks left out, are those taken up before client `i` joined, then those sent to
      `i`, then those on their way to the server, then those still to be typed.  Nothing is
      lost, repeated or reordered, and a client that joined before `j` gets them all. */
  lemma EveryLineOnceInOrder(inputs: seq<seq<string>>, schedule: seq<Actor>, i: nat, j: nat)
    requires var s := Run(Init(inputs), schedule);
             i < |s.registry| && j < |s.registry| && i != j && s.server != Reply(i)
    ensures var s := Run(Init(inputs), schedule);
            && Inv(s) && |inputs| == |s.clients|
            && LinesOf(s.log[..s.joinedAt[i]], j) + LinesOf(Sent(s, i), j) + LinesOf(s.inbox, j)
               + Select(s.clients[s.registry[j]].todo, (l: string) => l != "\n")
               == Select(inputs[s.registry[j]], (l: string) => l != "\n")
            && (i < j ==> LinesOf(s.log[..s.joinedAt[i]], j) == [])
  {
    var s := Run(Init(inputs), schedule);
    RunKeepsFlow(inputs, schedule);
    hide Run, Init, LinesOf, Select, Sent, StagesOk, DeliveryOk, QueuesFit, ServerOk;
    SentLines(s, i, j);
    var early, late := s.log[..s.joinedAt[i]], s.log[s.joinedAt[i]..];
    assert s.log == early + late;
    LinesConcat(early, late, j);
    if i < j {
      NobodysLines(early, j);
    }
  }
}
