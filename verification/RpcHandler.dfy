// The JSON-RPC proxy in front of a chain: it screens every raw transaction of a request and
// forwards what passes, one message at a time, in the order of the batch.
module RpcHandler {
  import opened Wrappers
  import CallTree
  import Gates = AdmissionGate

  const INVALID_PARAMS: int := -32602
  const SEND_RAW: string := "eth_sendRawTransaction"

  // Undecoded JSON text
  type Raw = string

  type Bytes = seq<CallTree.Byte>

  datatype Message = Message(id: Raw, name: string, params: Raw)

  datatype JsonError = JsonError(code: int, message: string)

  // A response carries the ID of its request and either an error or a result.
  datatype Response = Response(id: Raw, outcome: Result<Raw, JsonError>)

  // What reaches the chain's own RPC server.
  datatype Request = Request(name: string, params: seq<Raw>)

  datatype Transaction = Transaction(payload: Bytes, deposit: bool)

  // How the screening of a message ends.
  datatype Screening = Clear | Stopped(error: JsonError) | Crashed

  // What goes back to the caller: an array for a batch, one response otherwise. The handler
  // panics on a null message and where the screening does, and the server then drops the
  // connection without a response.
  datatype Reply = Batch(responses: seq<Option<Response>>) | Single(response: Option<Response>) | Panicked

  // Everything outside the handler. Decoding is fixed; the answers of the node, its simulation
  // and the state of the peers may differ from one message of the batch to the next, so they
  // also depend on the position of the message. Decoders report their errors as the code does.
  datatype Backend = Backend(
    decodeBytes: Raw -> Result<seq<Bytes>, JsonError>,
    decodeList: Raw -> Result<seq<Raw>, string>,
    decodeTx: Bytes -> Result<Transaction, JsonError>,
    simulate: (nat, Transaction) -> Option<CallTree.Frame>,
    gate: nat -> Gates.Gate,
    describe: Gates.Fault -> string,
    answer: (nat, Request) -> Result<Raw, JsonError>)

  // ---- What happens to one message ----

  // The raw transaction of a message, when it has one that may be simulated.
  function TransactionOf(b: Backend, msg: Message): Result<Transaction, JsonError> {
    match b.decodeBytes(msg.params)
    case Err(e) => Err(e)
    case Ok(params) =>
      if |params| != 1 then Err(JsonError(INVALID_PARAMS, "invalid request params"))
      else match b.decodeTx(params[0])
        case Err(e) => Err(e)
        case Ok(tx) => if tx.deposit then Err(JsonError(INVALID_PARAMS, "cannot process deposit tx")) else Ok(tx)
  }

  function Screened(b: Backend, i: nat, msg: Message): Screening {
    if msg.name != SEND_RAW then Clear
    else match TransactionOf(b, msg)
      case Err(e) => Stopped(e)
      case Ok(tx) =>
        match b.simulate(i, tx)
        case None => Stopped(JsonError(INVALID_PARAMS, "failed tx simulation"))
        case Some(tree) =>
          match Gates.Verdict(b.gate(i), CallTree.LevelOrder([tree]))
          case Passed => Clear
          case Refused(fault) => Stopped(JsonError(INVALID_PARAMS, b.describe(fault)))
          case Panicked => Crashed
  }

  // The request that forwarding a message sends: absent params are an empty list.
  function Outgoing(b: Backend, msg: Message): Result<Request, string> {
    if |msg.params| == 0 then Ok(Request(msg.name, []))
    else match b.decodeList(msg.params)
      case Err(text) => Err(text)
      case Ok(params) => Ok(Request(msg.name, params))
  }

  // Absent params, or a list.
  predicate Listed(b: Backend, params: Raw) {
    |params| == 0 || b.decodeList(params).Ok?
  }

  // The request has the message's own method and exactly the elements of its params, in order.
  predicate Carries(b: Backend, msg: Message, request: Request) {
    && request.name == msg.name
    && (|msg.params| == 0 ==> request.params == [])
    && (|msg.params| > 0 ==> b.decodeList(msg.params) == Ok(request.params))
  }

  lemma OutgoingIff(b: Backend, msg: Message, request: Request)
    ensures Outgoing(b, msg) == Ok(request) <==> Carries(b, msg, request)
    ensures Outgoing(b, msg).Ok? <==> Listed(b, msg.params)
  {
  }

  predicate Sends(b: Backend, i: nat, msg: Message) {
    Screened(b, i, msg).Clear? && Outgoing(b, msg).Ok?
  }

  function OutcomeOf(b: Backend, i: nat, msg: Message): Result<Raw, JsonError>
    requires !Screened(b, i, msg).Crashed?
  {
    match Screened(b, i, msg)
    case Stopped(e) => Err(e)
    case Clear =>
      match Outgoing(b, msg)
      case Err(text) => Err(JsonError(INVALID_PARAMS, text))
      case Ok(request) => b.answer(i, request)
  }

  // The requests sent for a list of messages, the first of them at position 0 of the batch.
  function Sent(b: Backend, msgs: seq<Message>): seq<Request> {
    if msgs == [] then []
    else
      var n := |msgs| - 1;
      if Sends(b, n, msgs[n]) then Sent(b, msgs[..n]) + [Outgoing(b, msgs[n]).value] else Sent(b, msgs[..n])
  }

  // The entries of a request body as they are decoded: a JSON null is a missing message.
  type Body = seq<Option<Message>>

  // Entry i ends the handler: it is null, or its screening panics.
  predicate Ends(b: Backend, i: nat, entry: Option<Message>) {
    entry.None? || Screened(b, i, entry.value).Crashed?
  }

  // No entry ends the handler.
  predicate Complete(b: Backend, body: Body) {
    forall i :: 0 <= i < |body| ==> !Ends(b, i, body[i])
  }

  // The messages before the first entry that ends the handler.
  function Leading(b: Backend, body: Body): (msgs: seq<Message>)
    ensures |msgs| <= |body|
    ensures forall i :: 0 <= i < |msgs| ==> body[i] == Some(msgs[i]) && !Ends(b, i, body[i])
    ensures |msgs| < |body| ==> Ends(b, |msgs|, body[|msgs|])
  {
    if body == [] then []
    else
      var n := |body| - 1;
      var front := Leading(b, body[..n]);
      if |front| < n || Ends(b, n, body[n]) then front else front + [body[n].value]
  }

  lemma LeadingNext(b: Backend, body: Body, i: nat)
    requires i < |body| && i <= |Leading(b, body)| && !Ends(b, i, body[i])
    ensures i < |Leading(b, body)| && Leading(b, body)[i] == body[i].value
  {
  }

  // ---- The handler ----

  method ForwardRPCRequest(b: Backend, i: nat, msg: Message)
    returns (outcome: Result<Raw, JsonError>, calls: seq<Request>)
    ensures Outgoing(b, msg).Err? ==> calls == [] && outcome == Err(JsonError(INVALID_PARAMS, Outgoing(b, msg).error))
    ensures Outgoing(b, msg).Ok? ==> calls == [Outgoing(b, msg).value] && outcome == b.answer(i, Outgoing(b, msg).value)
    ensures if Listed(b, msg.params) then |calls| == 1 && Carries(b, msg, calls[0]) && outcome == b.answer(i, calls[0])
            else calls == [] && outcome == Err(JsonError(INVALID_PARAMS, b.decodeList(msg.params).error))
  {
    var params := [];
    if |msg.params| > 0 {
      var list := b.decodeList(msg.params);
      if list.Err? {
        return Err(JsonError(INVALID_PARAMS, list.error)), [];
      }
      params := list.value;
    }
    var request := Request(msg.name, params);
    return b.answer(i, request), [request];
  }

  // The screening of one message, as the loop body does it.
  method Screen(b: Backend, i: nat, msg: Message) returns (screening: Screening)
    ensures screening == Screened(b, i, msg)
  {
    hide Gates.Verdict;
    hide CallTree.LevelOrder;
    hide Gates.Passes;
    hide Gates.AllParse;
    hide Gates.PanicsAt;
    if msg.name == SEND_RAW {
      var params := b.decodeBytes(msg.params);
      if params.Err? {
        return Stopped(params.error);
      }
      if |params.value| != 1 {
        return Stopped(JsonError(INVALID_PARAMS, "invalid request params"));
      }
      var tx := b.decodeTx(params.value[0]);
      if tx.Err? {
        return Stopped(tx.error);
      }
      if tx.value.deposit {
        return Stopped(JsonError(INVALID_PARAMS, "cannot process deposit tx"));
      }
      var tree := b.simulate(i, tx.value);
      if tree.None? {
        return Stopped(JsonError(INVALID_PARAMS, "failed tx simulation"));
      }
      var logs := CallTree.SimulatedLogs(tree.value);
      var outcome := Gates.CheckInteropInvariants(b.gate(i), logs);
      if outcome.Panicked? {
        return Crashed;
      }
      if outcome.Refused? {
        return Stopped(JsonError(INVALID_PARAMS, b.describe(outcome.fault)));
      }
    }
    return Clear;
  }

  lemma SentNext(b: Backend, msgs: seq<Message>, i: nat)
    requires i < |msgs|
    ensures Sent(b, msgs[..i + 1]) ==
            Sent(b, msgs[..i]) + if Sends(b, i, msgs[i]) then [Outgoing(b, msgs[i]).value] else []
  {
    hide Screened;
    hide Outgoing;
    assert msgs[..i + 1][..i] == msgs[..i];
  }

  // The slot of message i holds its own response, with its own ID.
  predicate Answers(b: Backend, body: Body, i: nat, slot: Option<Response>)
    requires i < |body|
  {
    !Ends(b, i, body[i]) && slot == Some(Response(body[i].value.id, OutcomeOf(b, i, body[i].value)))
  }

  // sent is what reaches the chain, in the order in which it does. A reply is produced exactly
  // when no entry is null and no screening panics; what was sent before stays sent.
  method Handler(b: Backend, body: Body, isBatch: bool) returns (reply: Reply, sent: seq<Request>)
    requires !isBatch ==> |body| == 1
    ensures reply.Panicked? <==> !Complete(b, body)
    ensures Complete(b, body) ==> (reply.Batch? <==> isBatch)
    ensures reply.Batch? ==> |reply.responses| == |body|
    ensures reply.Batch? ==> forall i :: 0 <= i < |body| ==> Answers(b, body, i, reply.responses[i])
    ensures reply.Single? ==> Answers(b, body, 0, reply.response)
    ensures sent == Sent(b, Leading(b, body))
  {
    hide Screened;
    hide Outgoing;
    hide Sent;
    hide Leading;
    ghost var msgs := Leading(b, body);
    var batchRes := new Option<Response>[|body|](_ => None);
    sent := [];
    assert msgs[..0] == [] && Sent(b, []) == [] by { NothingSent(b); }
    for i := 0 to |body|
      invariant i <= |msgs|
      invariant forall k :: 0 <= k < i ==> Answers(b, body, k, batchRes[k])
      invariant sent == Sent(b, msgs[..i])
    {
      if body[i].None? {
        assert Ends(b, i, body[i]);
        assert i == |msgs| && msgs[..i] == msgs;
        return Panicked, sent;
      }
      var msg := body[i].value;
      var screening := Screen(b, i, msg);
      if screening.Crashed? {
        assert Ends(b, i, body[i]);
        assert i == |msgs| && msgs[..i] == msgs;
        return Panicked, sent;
      }
      LeadingNext(b, body, i);
      SentNext(b, msgs, i);
      if screening.Stopped? {
        batchRes[i] := Some(Response(msg.id, Err(screening.error)));
        continue;
      }
      var outcome, calls := ForwardRPCRequest(b, i, msg);
      sent := sent + calls;
      batchRes[i] := Some(Response(msg.id, outcome));
    }
    assert msgs[..|body|] == msgs;
    if isBatch {
      reply := Batch(batchRes[..]);
    } else {
      reply := Single(batchRes[0]);
    }
  }

  lemma NothingSent(b: Backend)
    ensures Sent(b, []) == []
  {
  }

  function Present(msgs: seq<Message>): (body: Body)
    ensures |body| == |msgs|
    ensures forall i :: 0 <= i < |msgs| ==> body[i] == Some(msgs[i])
  {
    if msgs == [] then [] else Present(msgs[..|msgs| - 1]) + [Some(msgs[|msgs| - 1])]
  }

  // The first entry that ends the handler cuts a batch: the entries before it are handled, the
  // ones after it are not, whatever they are, and nothing is answered.
  lemma EndCutsBatch(b: Backend, msgs: seq<Message>, entry: Option<Message>, rest: Body)
    requires Complete(b, Present(msgs)) && Ends(b, |msgs|, entry)
    ensures !Complete(b, Present(msgs) + [entry] + rest)
    ensures Leading(b, Present(msgs) + [entry] + rest) == msgs
  {
    hide Ends;
    hide Leading;
    var body := Present(msgs) + [entry] + rest;
    var leading := Leading(b, body);
    assert body[|msgs|] == entry;
    assert forall i :: 0 <= i < |msgs| ==> body[i] == Present(msgs)[i];
    forall i | 0 <= i < |msgs| ensures leading[i] == msgs[i] {
      assert body[i] == Present(msgs)[i];
    }
  }

  // The shortest failing batch of two: one message whose screening does not panic, and a null.
  // The message is forwarded if it passes, and its caller is never answered.
  lemma OneThenNull(b: Backend, m: Message)
    requires !Screened(b, 0, m).Crashed?
    ensures !Complete(b, [Some(m), None])
    ensures Sent(b, Leading(b, [Some(m), None])) == if Sends(b, 0, m) then [Outgoing(b, m).value] else []
  {
    hide Screened;
    hide Outgoing;
    EndCutsBatch(b, [m], None, []);
    assert Present([m]) + [None] + [] == [Some(m), None];
    assert [m][..0] == [];
  }

  // ---- When the screening panics ----

  // Exactly for a raw transaction that decodes and simulates, all of whose executing messages
  // parse, and which, in level order, holds a log with the selector, one more topic and no data
  // behind messages that are all allowed.
  lemma CrashesIff(b: Backend, i: nat, msg: Message)
    ensures Screened(b, i, msg).Crashed? <==>
      && msg.name == SEND_RAW
      && TransactionOf(b, msg).Ok?
      && var tree := b.simulate(i, TransactionOf(b, msg).value);
      && tree.Some?
      && var logs := CallTree.LevelOrder([tree.value]);
      && Gates.AllParse(b.gate(i), logs)
      && exists k :: Gates.PanicsAt(b.gate(i), logs, k)
  {
    hide Gates.Verdict;
    hide Gates.AllParse;
    hide Gates.PanicsAt;
    hide CallTree.LevelOrder;
    if msg.name == SEND_RAW && TransactionOf(b, msg).Ok? {
      var tree := b.simulate(i, TransactionOf(b, msg).value);
      if tree.Some? {
        Gates.PanicsIff(b.gate(i), CallTree.LevelOrder([tree.value]));
      }
    }
  }

  // One such log, made by any contract, is enough, without any null: the messages before the
  // transaction are handled, it and the messages after it are not, and nobody is answered.
  lemma BlankLogCutsBatch(b: Backend, msgs: seq<Message>, m: Message, log: CallTree.Log, rest: Body)
    requires Complete(b, Present(msgs)) && m.name == SEND_RAW && TransactionOf(b, m).Ok?
    requires b.simulate(|msgs|, TransactionOf(b, m).value) == Some(CallTree.Frame([log], []))
    requires |log.topics| == 2 && log.topics[0] == b.gate(|msgs|).selector && log.data == []
    ensures !Complete(b, Present(msgs) + [Some(m)] + rest)
    ensures Leading(b, Present(msgs) + [Some(m)] + rest) == msgs
  {
    var gate := b.gate(|msgs|);
    OneLog(log);
    assert [log][..0] == [];
    assert Gates.PanicsAt(gate, [log], 0);
    assert Gates.AllParse(gate, [log]);
    hide Gates.PanicsAt;
    hide Gates.AllParse;
    hide CallTree.LevelOrder;
    CrashesIff(b, |msgs|, m);
    EndCutsBatch(b, msgs, Some(m), rest);
  }

  lemma OneLog(log: CallTree.Log)
    ensures CallTree.LevelOrder([CallTree.Frame([log], [])]) == [log]
  {
    var fs := [CallTree.Frame([log], [])];
    assert fs[1..] == [];
    assert CallTree.DirectLogs(fs) == [log];
    assert CallTree.NextLevel(fs) == [];
  }

  // ---- What reaches the chain ----

  // A message is forwarded exactly when its params are a list and, for a raw transaction, it is
  // one well-formed transaction, no deposit, whose simulation succeeds and whose executing
  // messages, anywhere in the call tree, are all allowed by the gate.
  lemma SendsIff(b: Backend, i: nat, msg: Message)
    ensures Sends(b, i, msg) <==>
      && Listed(b, msg.params)
      && (msg.name == SEND_RAW ==>
           && b.decodeBytes(msg.params).Ok?
           && |b.decodeBytes(msg.params).value| == 1
           && b.decodeTx(b.decodeBytes(msg.params).value[0]).Ok?
           && var tx := b.decodeTx(b.decodeBytes(msg.params).value[0]).value;
           && !tx.deposit
           && b.simulate(i, tx).Some?
           && Gates.Passes(b.gate(i), CallTree.PreOrder(b.simulate(i, tx).value)))
  {
    hide Gates.Verdict;
    hide Gates.Passes;
    hide CallTree.LevelOrder;
    hide CallTree.PreOrder;
    if msg.name == SEND_RAW && TransactionOf(b, msg).Ok? {
      var tree := b.simulate(i, TransactionOf(b, msg).value);
      if tree.Some? {
        Gates.TreePasses(b.gate(i), tree.value);
      }
    }
  }

  // The positions of the messages that are forwarded.
  function Kept(b: Backend, msgs: seq<Message>): seq<nat> {
    if msgs == [] then []
    else
      var n := |msgs| - 1;
      if Sends(b, n, msgs[n]) then Kept(b, msgs[..n]) + [n] else Kept(b, msgs[..n])
  }

  predicate Ascending(s: seq<nat>) {
    forall i, j :: 0 <= i < j < |s| ==> s[i] < s[j]
  }

  // What is sent is the in-order subsequence of the batch that passes, nothing twice.
  lemma {:induction false} SentIsSubsequence(b: Backend, msgs: seq<Message>)
    ensures Ascending(Kept(b, msgs))
    ensures forall i: nat :: i in Kept(b, msgs) <==> i < |msgs| && Sends(b, i, msgs[i])
    ensures |Sent(b, msgs)| == |Kept(b, msgs)|
    ensures forall k :: 0 <= k < |Sent(b, msgs)| ==>
      Kept(b, msgs)[k] < |msgs| && Outgoing(b, msgs[Kept(b, msgs)[k]]) == Ok(Sent(b, msgs)[k])
  {
    hide Outgoing;
    hide Screened;
    if msgs != [] {
      var n := |msgs| - 1;
      SentIsSubsequence(b, msgs[..n]);
      var front := Kept(b, msgs[..n]);
      forall k | 0 <= k < |front| ensures front[k] < n {
        assert front[k] in front;
      }
    }
  }

  // Each request sent is that of its own message: its method and its params, nothing else.
  lemma SentCarries(b: Backend, msgs: seq<Message>, k: nat)
    requires k < |Sent(b, msgs)|
    ensures k < |Kept(b, msgs)| && Kept(b, msgs)[k] < |msgs|
    ensures Carries(b, msgs[Kept(b, msgs)[k]], Sent(b, msgs)[k])
  {
    SentIsSubsequence(b, msgs);
    hide Kept;
    hide Sent;
    OutgoingIff(b, msgs[Kept(b, msgs)[k]], Sent(b, msgs)[k]);
  }

  // With which error the screening stops a message, check by check.
  lemma StoppedIff(b: Backend, i: nat, msg: Message, e: JsonError)
    ensures Screened(b, i, msg) == Stopped(e) <==>
      && msg.name == SEND_RAW
      && match b.decodeBytes(msg.params)
         case Err(error) => e == error
         case Ok(params) =>
           if |params| != 1 then e == JsonError(INVALID_PARAMS, "invalid request params")
           else match b.decodeTx(params[0])
             case Err(error) => e == error
             case Ok(tx) =>
               if tx.deposit then e == JsonError(INVALID_PARAMS, "cannot process deposit tx")
               else match b.simulate(i, tx)
                 case None => e == JsonError(INVALID_PARAMS, "failed tx simulation")
                 case Some(tree) =>
                   exists fault :: Refuses(b, i, tree, fault) && e == JsonError(INVALID_PARAMS, b.describe(fault))
  {
    hide CallTree.LevelOrder;
    if msg.name == SEND_RAW && TransactionOf(b, msg).Ok? {
      var tree := b.simulate(i, TransactionOf(b, msg).value);
      if tree.Some? {
        forall fault ensures Refuses(b, i, tree.value, fault) <==>
          Gates.Verdict(b.gate(i), CallTree.LevelOrder([tree.value])) == Gates.Refused(fault) {
          RefusesIff(b, i, tree.value, fault);
        }
        hide Gates.Verdict;
      }
    }
  }

  // Some log does not parse, or this is the fault of the first executing message that does not hold.
  ghost predicate Refuses(b: Backend, i: nat, tree: CallTree.Frame, fault: Gates.Fault) {
    var logs := CallTree.LevelOrder([tree]);
    if Gates.AllParse(b.gate(i), logs) then exists k :: Gates.StopsAt(b.gate(i), logs, k, Gates.Refused(fault))
    else fault == Gates.Undecodable
  }

  lemma RefusesIff(b: Backend, i: nat, tree: CallTree.Frame, fault: Gates.Fault)
    ensures Refuses(b, i, tree, fault) <==>
            Gates.Verdict(b.gate(i), CallTree.LevelOrder([tree])) == Gates.Refused(fault)
  {
    hide Gates.AllParse;
    hide Gates.StopsAt;
    hide Gates.Verdict;
    Gates.RefusedIff(b.gate(i), CallTree.LevelOrder([tree]), fault);
  }

  // A message that is screened without a panic and not forwarded is answered with an error.
  lemma UnsentFails(b: Backend, i: nat, msg: Message)
    requires !Screened(b, i, msg).Crashed?
    ensures !Sends(b, i, msg) ==> OutcomeOf(b, i, msg).Err?
    ensures Sends(b, i, msg) ==>
      exists request :: Carries(b, msg, request) && OutcomeOf(b, i, msg) == b.answer(i, request)
    ensures Screened(b, i, msg).Clear? && !Listed(b, msg.params) ==>
      OutcomeOf(b, i, msg) == Err(JsonError(INVALID_PARAMS, b.decodeList(msg.params).error))
  {
    hide Screened;
    if Sends(b, i, msg) {
      assert Carries(b, msg, Outgoing(b, msg).value);
    }
  }

  // Screening does not touch the rest of a batch: without the messages that are stopped, the
  // same requests would have been sent. Positions shift, so this needs a backend that answers
  // alike at every position.
  ghost predicate Steady(b: Backend) {
    && (forall i, j, tx :: b.simulate(i, tx) == b.simulate(j, tx))
    && (forall i, j :: b.gate(i) == b.gate(j))
  }

  function Passing(b: Backend, msgs: seq<Message>): seq<Message> {
    if msgs == [] then []
    else
      var n := |msgs| - 1;
      if Sends(b, n, msgs[n]) then Passing(b, msgs[..n]) + [msgs[n]] else Passing(b, msgs[..n])
  }

  lemma {:induction false} StoppedLeaveNoTrace(b: Backend, msgs: seq<Message>)
    requires Steady(b)
    ensures Sent(b, Passing(b, msgs)) == Sent(b, msgs)
  {
    hide Outgoing;
    if msgs != [] {
      var n := |msgs| - 1;
      StoppedLeaveNoTrace(b, msgs[..n]);
      if Sends(b, n, msgs[n]) {
        var front := Passing(b, msgs[..n]);
        SteadySends(b, n, |front|, msgs[n]);
        assert (front + [msgs[n]])[..|front|] == front;
      }
    }
  }

  lemma SteadySends(b: Backend, i: nat, j: nat, msg: Message)
    requires Steady(b)
    ensures Sends(b, i, msg) <==> Sends(b, j, msg)
  {
    hide Gates.Verdict;
    hide CallTree.LevelOrder;
    assert b.gate(i) == b.gate(j);
    if msg.name == SEND_RAW && TransactionOf(b, msg).Ok? {
      assert b.simulate(i, TransactionOf(b, msg).value) == b.simulate(j, TransactionOf(b, msg).value);
    }
  }
}
