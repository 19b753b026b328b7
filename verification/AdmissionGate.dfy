// The admission gate: a simulated transaction reaches its chain only if every executing
// message in its logs refers to an initiating message that exists on the chain it names.
module AdmissionGate {
  import opened Wrappers
  import opened CallTree
  import opened Interop

  datatype ExecutingMessage = ExecutingMessage(msgHash: Word, id: Identifier)

  // A log as a node reports it. Indexes within a block stay below 2^63, so that the conversion
  // of an index to a signed 64-bit number is exact.
  datatype Placed = Placed(block: nat, index: nat, log: Log)

  // A peer chain as its node answers: the header times of its blocks, its logs, and whether
  // its log filter answers at all.
  datatype Peer = Peer(times: seq<U64>, logs: seq<Placed>, filterAnswers: bool)

  // What the gate consults. Keccak, the event selector and the ABI decoding of a log that has
  // data are parameters.
  // now is the time of the latest block of the chain the transaction is sent to.
  datatype Gate = Gate(
    peers: map<U64, Peer>,
    delay: U64,
    now: Option<U64>,
    selector: Word,
    decode: Log -> Option<ExecutingMessage>,
    keccak: seq<Byte> -> Word)

  datatype Fault =
    | Undecodable
    | NoChain(chainId: nat)
    | NoBlock
    | TimestampMismatch
    | FilterFailed
    | NotFound
    | Ambiguous(count: nat)
    | PayloadMismatch
    | NoHeader
    | TooEarly

  // The binding's parser skips the decoding of empty data: a log with the event's one indexed
  // topic and no data comes back without an error, but the numbers of its identifier are nil.
  datatype Parse = Failed | Blank | Parsed(message: ExecutingMessage)

  // How a check ends. Reading the chain id of a blank identifier is a nil dereference.
  datatype Outcome = Passed | Refused(fault: Fault) | Panicked

  // ---- The payload of a log ----

  function TopicBytes(topics: seq<Word>): seq<Byte> {
    if topics == [] then [] else TopicBytes(topics[..|topics| - 1]) + topics[|topics| - 1]
  }

  function Payload(log: Log): seq<Byte> {
    TopicBytes(log.topics) + log.data
  }

  method ExecutingMessagePayloadBytes(log: Log) returns (msg: seq<Byte>)
    ensures LaidOut(log, msg) && msg == Payload(log)
  {
    PayloadLayout(log);
    msg := [];
    for i := 0 to |log.topics|
      invariant msg == TopicBytes(log.topics[..i])
    {
      assert log.topics[..i + 1][..i] == log.topics[..i];
      msg := msg + log.topics[i];
    }
    assert log.topics[..|log.topics|] == log.topics;
    msg := msg + log.data;
  }

  lemma {:induction false} TopicBytesLength(topics: seq<Word>)
    ensures |TopicBytes(topics)| == 32 * |topics|
  {
    if topics != [] {
      TopicBytesLength(topics[..|topics| - 1]);
    }
  }

  lemma {:induction false} TopicBytesInjective(a: seq<Word>, b: seq<Word>)
    requires |a| == |b| && TopicBytes(a) == TopicBytes(b)
    ensures a == b
  {
    if a != [] {
      var n := |a| - 1;
      TopicBytesLength(a[..n]);
      TopicBytesLength(b[..n]);
      assert TopicBytes(a)[..32 * n] == TopicBytes(a[..n]);
      assert TopicBytes(b)[..32 * n] == TopicBytes(b[..n]);
      assert TopicBytes(a)[32 * n..] == a[n];
      assert TopicBytes(b)[32 * n..] == b[n];
      TopicBytesInjective(a[..n], b[..n]);
      assert a == a[..n] + [a[n]];
      assert b == b[..n] + [b[n]];
    }
  }

  lemma {:induction false} TopicBytesAt(topics: seq<Word>, k: nat)
    requires k < |topics|
    ensures |TopicBytes(topics)| == 32 * |topics|
    ensures TopicBytes(topics)[32 * k..32 * k + 32] == topics[k]
  {
    var n := |topics| - 1;
    TopicBytesLength(topics);
    TopicBytesLength(topics[..n]);
    if k < n {
      TopicBytesAt(topics[..n], k);
      assert TopicBytes(topics)[..32 * n] == TopicBytes(topics[..n]);
    }
  }

  // The payload, byte by byte: each topic in its place, first to last, then the data.
  ghost predicate LaidOut(log: Log, bytes: seq<Byte>) {
    && |bytes| == 32 * |log.topics| + |log.data|
    && (forall k :: 0 <= k < |log.topics| ==> bytes[32 * k..32 * k + 32] == log.topics[k])
    && bytes[32 * |log.topics|..] == log.data
  }

  lemma PayloadLayout(log: Log)
    ensures LaidOut(log, Payload(log))
  {
    var n := |log.topics|;
    TopicBytesLength(log.topics);
    assert Payload(log)[..32 * n] == TopicBytes(log.topics);
    forall k | 0 <= k < n ensures Payload(log)[32 * k..32 * k + 32] == log.topics[k] {
      TopicBytesAt(log.topics, k);
      assert Payload(log)[32 * k..32 * k + 32] == TopicBytes(log.topics)[32 * k..32 * k + 32];
    }
  }

  // Nothing else is laid out so.
  lemma LayoutDetermines(log: Log, bytes: seq<Byte>)
    requires LaidOut(log, bytes)
    ensures bytes == Payload(log)
  {
    PayloadLayout(log);
    var p := Payload(log);
    forall i | 0 <= i < 32 * |log.topics| ensures bytes[i] == p[i] {
      var k := i / 32;
      assert bytes[32 * k..32 * k + 32] == log.topics[k] == p[32 * k..32 * k + 32];
      assert bytes[32 * k..32 * k + 32][i - 32 * k] == p[32 * k..32 * k + 32][i - 32 * k];
    }
    forall i | 32 * |log.topics| <= i < |p| ensures bytes[i] == p[i] {
      var m := 32 * |log.topics|;
      assert bytes[m..][i - m] == p[m..][i - m];
    }
  }

  // The payload determines topics and data exactly when the number of topics is known.
  lemma PayloadDetermines(a: Log, b: Log)
    requires Payload(a) == Payload(b)
    ensures |a.topics| == |b.topics| <==> a.topics == b.topics && a.data == b.data
  {
    if |a.topics| == |b.topics| {
      TopicBytesLength(a.topics);
      TopicBytesLength(b.topics);
      var n := |TopicBytes(a.topics)|;
      assert Payload(a)[..n] == TopicBytes(a.topics);
      assert Payload(b)[..n] == TopicBytes(b.topics);
      assert Payload(a)[n..] == a.data;
      assert Payload(b)[n..] == b.data;
      TopicBytesInjective(a.topics, b.topics);
    }
  }

  // Without it, a topic and 32 bytes of data are indistinguishable.
  lemma PayloadForgetsTopicCount(address: Address, w: Word)
    ensures Payload(Log(address, [w], [])) == Payload(Log(address, [], w))
  {
    assert [w][..0] == [];
  }

  predicate IsExecutingMessageLog(gate: Gate, log: Log) {
    |log.topics| > 0 && log.topics[0] == gate.selector
  }

  // ---- The rule ----

  predicate AtPlace(p: Placed, id: Identifier) {
    p.block == id.blockNumber && p.log.address == id.origin && p.index == id.logIndex
  }

  // The logs at the place that an identifier names.
  function LogsAt(logs: seq<Placed>, id: Identifier): seq<Placed> {
    if logs == [] then []
    else
      var n := |logs| - 1;
      if AtPlace(logs[n], id) then LogsAt(logs[..n], id) + [logs[n]] else LogsAt(logs[..n], id)
  }

  // Exactly one log lies at the place, at position i.
  ghost predicate Sole(logs: seq<Placed>, id: Identifier, i: nat) {
    && i < |logs|
    && AtPlace(logs[i], id)
    && forall j :: 0 <= j < |logs| && j != i ==> !AtPlace(logs[j], id)
  }

  // ---- The rule, apart from the code ----

  // The predeploy whose logs are the executing messages of a transaction.
  const CROSS_L2_INBOX: Address := 0x4200_0000_0000_0000_0000_0000_0000_0000_0000_0022

  predicate FromInbox(gate: Gate, log: Log) {
    log.address == CROSS_L2_INBOX && IsExecutingMessageLog(gate, log)
  }

  // The interop specification's messaging invariants, without message expiry, for a message
  // executed in a block of the given time: the identifier names a block of the chain with that
  // id, by its timestamp, and the one log at its place carries the payload; and nothing is
  // executed before it was initiated.
  ghost predicate Rule(gate: Gate, m: ExecutingMessage, time: nat) {
    && m.id.chainId in gate.peers
    && var peer := gate.peers[m.id.chainId];
    && m.id.blockNumber < |peer.times|
    && m.id.timestamp == peer.times[m.id.blockNumber]
    && (exists i: nat :: Sole(peer.logs, m.id, i) && gate.keccak(Payload(peer.logs[i].log)) == m.msgHash)
    && m.id.timestamp <= time
  }

  // The configured delay, on top of the specification: as measured by the latest block of the
  // executing chain.
  predicate Due(gate: Gate, m: ExecutingMessage) {
    gate.delay != 0 ==> gate.now.Some? && m.id.timestamp + gate.delay <= gate.now.value
  }

  predicate Reachable(gate: Gate, m: ExecutingMessage) {
    m.id.chainId in gate.peers ==> gate.peers[m.id.chainId].filterAnswers
  }

  // ---- What the code looks at on the peer ----

  // The peer has the named block with that timestamp, and its filter finds exactly one log at the
  // named place, whose payload hashes to the message's hash.
  predicate Initiated(gate: Gate, peer: Peer, m: ExecutingMessage) {
    && m.id.blockNumber < |peer.times|
    && m.id.timestamp == peer.times[m.id.blockNumber]
    && peer.filterAnswers
    && |LogsAt(peer.logs, m.id)| == 1
    && gate.keccak(Payload(LogsAt(peer.logs, m.id)[0].log)) == m.msgHash
  }

  // ---- The code: chain ids are cut to 64 bits and times are added modulo 2^64 ----

  predicate Elapsed(gate: Gate, time: U64) {
    gate.delay != 0 ==> gate.now.Some? && gate.now.value >= (time + gate.delay) % TWO64
  }

  predicate Holds(gate: Gate, m: ExecutingMessage) {
    var key := m.id.chainId % TWO64;
    && key in gate.peers
    && Initiated(gate, gate.peers[key], m)
    && Elapsed(gate, gate.peers[key].times[m.id.blockNumber])
  }

  // Whether the sums and chain ids of one message stay within 64 bits.
  predicate InRange(gate: Gate, m: ExecutingMessage) {
    m.id.chainId < TWO64 && (gate.delay != 0 ==> m.id.timestamp + gate.delay < TWO64)
  }

  // Whether the wrapped sum and the true sum give the same answer at a header time.
  predicate SameAnswer(now: U64, time: U64, delay: U64) {
    now >= (time + delay) % TWO64 <==> now >= time + delay
  }

  // The delay check is right for every header time exactly when the due time fits 64 bits.
  lemma DelayExactIff(time: U64, delay: U64)
    ensures (forall now: U64 :: SameAnswer(now, time, delay)) <==> time + delay < TWO64
  {
    if time + delay < TWO64 {
      assert (time + delay) % TWO64 == time + delay;
    } else {
      var last: U64 := TWO64 - 1;
      assert !SameAnswer(last, time, delay);
    }
  }

  lemma {:induction false} SamePlace(logs: seq<Placed>, a: Identifier, b: Identifier)
    requires a.origin == b.origin && a.blockNumber == b.blockNumber && a.logIndex == b.logIndex
    ensures LogsAt(logs, a) == LogsAt(logs, b)
  {
    if logs != [] {
      SamePlace(logs[..|logs| - 1], a, b);
    }
  }

  lemma {:induction false} LogsAtSound(logs: seq<Placed>, id: Identifier)
    ensures forall k :: 0 <= k < |LogsAt(logs, id)| ==> LogsAt(logs, id)[k] in logs && AtPlace(LogsAt(logs, id)[k], id)
    ensures LogsAt(logs, id) == [] <==> forall i :: 0 <= i < |logs| ==> !AtPlace(logs[i], id)
  {
    if logs != [] {
      LogsAtSound(logs[..|logs| - 1], id);
    }
  }

  lemma {:induction false} SoleIsFound(logs: seq<Placed>, id: Identifier, i: nat)
    requires Sole(logs, id, i)
    ensures LogsAt(logs, id) == [logs[i]]
  {
    var n := |logs| - 1;
    if i == n {
      LogsAtSound(logs[..n], id);
    } else {
      SoleIsFound(logs[..n], id, i);
    }
  }

  lemma {:induction false} FoundIsSole(logs: seq<Placed>, id: Identifier) returns (i: nat)
    requires |LogsAt(logs, id)| == 1
    ensures Sole(logs, id, i)
  {
    var n := |logs| - 1;
    if AtPlace(logs[n], id) {
      LogsAtSound(logs[..n], id);
      i := n;
    } else {
      i := FoundIsSole(logs[..n], id);
    }
  }

  lemma InitiatedIffSole(gate: Gate, peer: Peer, m: ExecutingMessage)
    ensures Initiated(gate, peer, m) <==>
      && m.id.blockNumber < |peer.times|
      && m.id.timestamp == peer.times[m.id.blockNumber]
      && peer.filterAnswers
      && exists i: nat :: Sole(peer.logs, m.id, i) && gate.keccak(Payload(peer.logs[i].log)) == m.msgHash
  {
    hide Payload;
    if |LogsAt(peer.logs, m.id)| == 1 {
      var i := FoundIsSole(peer.logs, m.id);
      SoleIsFound(peer.logs, m.id, i);
    }
    forall i: nat | Sole(peer.logs, m.id, i) ensures LogsAt(peer.logs, m.id) == [peer.logs[i]] {
      SoleIsFound(peer.logs, m.id, i);
    }
  }

  // ---- The exact difference, message by message ----

  // Every message that meets the rule and is due, on a peer that answers, passes. The code lets
  // in exactly these others: those whose chain id or due time leaves 64 bits, and those executed
  // in a block earlier than the initiating one.
  lemma HoldsIffRule(gate: Gate, m: ExecutingMessage, time: nat)
    ensures Rule(gate, m, time) && Due(gate, m) && Reachable(gate, m) <==>
            Holds(gate, m) && InRange(gate, m) && m.id.timestamp <= time
  {
    hide LogsAt;
    hide Payload;
    hide Sole;
    hide Initiated;
    if m.id.chainId in gate.peers {
      InitiatedIffSole(gate, gate.peers[m.id.chainId], m);
    }
    if m.id.chainId < TWO64 {
      assert m.id.chainId % TWO64 == m.id.chainId;
    }
    if gate.delay != 0 && m.id.timestamp + gate.delay < TWO64 {
      assert (m.id.timestamp + gate.delay) % TWO64 == m.id.timestamp + gate.delay;
    }
    if Holds(gate, m) {
      var key := m.id.chainId % TWO64;
      InitiatedIffSole(gate, gate.peers[key], m);
    }
  }

  // With a delay, or whenever the latest block is not earlier than the initiating one, the order
  // of the two blocks is right of itself.
  lemma DueIsOrdered(gate: Gate, m: ExecutingMessage, time: nat)
    requires Due(gate, m) && gate.delay != 0 && gate.now.value <= time
    ensures m.id.timestamp <= time
  {
  }

  // Without a delay nothing compares the two clocks: whatever passes still passes in a block
  // that is earlier than the initiating one, against the rule.
  lemma ExecutedBeforeInitiated(gate: Gate, m: ExecutingMessage, time: nat)
    requires Rule(gate, m, m.id.timestamp) && Reachable(gate, m) && gate.delay == 0
    ensures Holds(gate, m)
    ensures Rule(gate, m, time) <==> m.id.timestamp <= time
  {
    HoldsIffRule(gate, m, m.id.timestamp);
  }

  // A concrete message outside the range: chain 901 answers for chain id 901 + 2^64.
  lemma TruncatedChainId(gate: Gate, m: ExecutingMessage, time: nat)
    requires m.id.chainId == 901 && Rule(gate, m, time) && Due(gate, m) && Reachable(gate, m)
    ensures var far := m.(id := m.id.(chainId := 901 + TWO64)); Holds(gate, far) && !Rule(gate, far, time)
  {
    hide LogsAt;
    hide Payload;
    var far := m.(id := m.id.(chainId := 901 + TWO64));
    assert (901 + TWO64) % TWO64 == 901;
    HoldsIffRule(gate, m, time);
    SamePlace(gate.peers[901].logs, m.id, far.id);
  }

  // ---- The order in which the code finds fault ----

  function FaultOf(gate: Gate, m: ExecutingMessage): Option<Fault> {
    var key := m.id.chainId % TWO64;
    if key !in gate.peers then Some(NoChain(m.id.chainId))
    else
      var peer := gate.peers[key];
      if m.id.blockNumber >= |peer.times| then Some(NoBlock)
      else if m.id.timestamp != peer.times[m.id.blockNumber] then Some(TimestampMismatch)
      else if !peer.filterAnswers then Some(FilterFailed)
      else
        var found := LogsAt(peer.logs, m.id);
        if |found| == 0 then Some(NotFound)
        else if |found| > 1 then Some(Ambiguous(|found|))
        else if gate.keccak(Payload(found[0].log)) != m.msgHash then Some(PayloadMismatch)
        else if gate.delay == 0 then None
        else if gate.now.None? then Some(NoHeader)
        else if !Elapsed(gate, peer.times[m.id.blockNumber]) then Some(TooEarly)
        else None
  }

  lemma FaultlessIffHolds(gate: Gate, m: ExecutingMessage)
    ensures FaultOf(gate, m).None? <==> Holds(gate, m)
  {
  }

  lemma {:induction false} TwoAtPlace(logs: seq<Placed>, id: Identifier)
    ensures |LogsAt(logs, id)| > 1 <==>
            exists i, j :: 0 <= i < j < |logs| && AtPlace(logs[i], id) && AtPlace(logs[j], id)
  {
    if logs != [] {
      var n := |logs| - 1;
      TwoAtPlace(logs[..n], id);
      LogsAtSound(logs[..n], id);
      assert forall i :: 0 <= i < n ==> logs[..n][i] == logs[i];
      if i, j :| 0 <= i < j < |logs| && AtPlace(logs[i], id) && AtPlace(logs[j], id) && j < n {
        assert AtPlace(logs[..n][i], id) && AtPlace(logs[..n][j], id);
      }
    }
  }

  // The one log at the named place, at position i, has the payload or not.
  ghost predicate Carries(gate: Gate, logs: seq<Placed>, m: ExecutingMessage, i: nat, right: bool) {
    Sole(logs, m.id, i) && (gate.keccak(Payload(logs[i].log)) == m.msgHash <==> right)
  }

  // The fault of a message whose block is the named one, by the logs at its place.
  ghost predicate FoundFault(gate: Gate, logs: seq<Placed>, m: ExecutingMessage, fault: Option<Fault>) {
    && (fault == Some(NotFound) <==> forall i :: 0 <= i < |logs| ==> !AtPlace(logs[i], m.id))
    && ((fault.Some? && fault.value.Ambiguous?) <==>
         exists i, j :: 0 <= i < j < |logs| && AtPlace(logs[i], m.id) && AtPlace(logs[j], m.id))
    && (fault == Some(PayloadMismatch) <==> exists i: nat :: Carries(gate, logs, m, i, false))
    && (fault == Some(NoHeader) <==>
         (exists i: nat :: Carries(gate, logs, m, i, true)) && gate.delay != 0 && gate.now.None?)
    && (fault == Some(TooEarly) <==>
         (exists i: nat :: Carries(gate, logs, m, i, true)) && gate.delay != 0 && gate.now.Some?
         && gate.now.value < (m.id.timestamp + gate.delay) % TWO64)
  }

  // Which fault is found, check by check: each one exactly when all before it hold and its own
  // does not.
  lemma FaultIff(gate: Gate, m: ExecutingMessage)
    ensures var (key, fault) := (m.id.chainId % TWO64, FaultOf(gate, m));
            && (fault == Some(NoChain(m.id.chainId)) <==> key !in gate.peers)
            && (key in gate.peers ==>
                 var peer := gate.peers[key];
                 && (fault == Some(NoBlock) <==> m.id.blockNumber >= |peer.times|)
                 && (m.id.blockNumber < |peer.times| ==>
                      && (fault == Some(TimestampMismatch) <==> m.id.timestamp != peer.times[m.id.blockNumber])
                      && (m.id.timestamp == peer.times[m.id.blockNumber] ==>
                           && (fault == Some(FilterFailed) <==> !peer.filterAnswers)
                           && (peer.filterAnswers ==> FoundFault(gate, peer.logs, m, fault)))))
  {
    hide Payload;
    hide Sole;
    hide LogsAt;
    hide AtPlace;
    var key := m.id.chainId % TWO64;
    if key in gate.peers {
      FoundAtPlace(gate, gate.peers[key].logs, m);
      hide Carries;
    }
  }

  // What the logs found at the place say.
  lemma FoundAtPlace(gate: Gate, logs: seq<Placed>, m: ExecutingMessage)
    ensures |LogsAt(logs, m.id)| == 0 <==> forall i :: 0 <= i < |logs| ==> !AtPlace(logs[i], m.id)
    ensures |LogsAt(logs, m.id)| > 1 <==>
            exists i, j :: 0 <= i < j < |logs| && AtPlace(logs[i], m.id) && AtPlace(logs[j], m.id)
    ensures |LogsAt(logs, m.id)| == 1 && gate.keccak(Payload(LogsAt(logs, m.id)[0].log)) == m.msgHash <==>
            exists i: nat :: Carries(gate, logs, m, i, true)
    ensures |LogsAt(logs, m.id)| == 1 && gate.keccak(Payload(LogsAt(logs, m.id)[0].log)) != m.msgHash <==>
            exists i: nat :: Carries(gate, logs, m, i, false)
  {
    hide Payload;
    LogsAtSound(logs, m.id);
    TwoAtPlace(logs, m.id);
    forall i: nat | Sole(logs, m.id, i) ensures LogsAt(logs, m.id) == [logs[i]] {
      SoleIsFound(logs, m.id, i);
    }
    if |LogsAt(logs, m.id)| == 1 {
      var i := FoundIsSole(logs, m.id);
      hide LogsAt;
      assert Carries(gate, logs, m, i, gate.keccak(Payload(logs[i].log)) == m.msgHash);
    }
  }

  function ParseExecutingMessage(gate: Gate, log: Log): Parse {
    if log.data == [] then if |log.topics| == 2 then Blank else Failed
    else match gate.decode(log) case None => Failed case Some(m) => Parsed(m)
  }

  // What the parser makes of the executing message logs, in order.
  function Parses(gate: Gate, logs: seq<Log>): seq<Parse> {
    if logs == [] then []
    else
      var n := |logs| - 1;
      if IsExecutingMessageLog(gate, logs[n]) then Parses(gate, logs[..n]) + [ParseExecutingMessage(gate, logs[n])]
      else Parses(gate, logs[..n])
  }

  function OutcomeOf(gate: Gate, p: Parse): Outcome {
    match p
    case Failed => Refused(Undecodable)
    case Blank => Panicked
    case Parsed(m) => match FaultOf(gate, m) case None => Passed case Some(fault) => Refused(fault)
  }

  // How the first message that does not pass ends the check.
  function FirstStop(gate: Gate, ps: seq<Parse>): Outcome {
    if ps == [] then Passed
    else
      var n := |ps| - 1;
      match FirstStop(gate, ps[..n])
      case Passed => OutcomeOf(gate, ps[n])
      case stop => stop
  }

  // All logs are parsed before the first message is looked at.
  function Verdict(gate: Gate, logs: seq<Log>): Outcome {
    if Failed in Parses(gate, logs) then Refused(Undecodable) else FirstStop(gate, Parses(gate, logs))
  }

  // An executing message log that the gate lets through.
  predicate Allowed(gate: Gate, log: Log) {
    && ParseExecutingMessage(gate, log).Parsed?
    && Holds(gate, ParseExecutingMessage(gate, log).message)
  }

  predicate Passes(gate: Gate, logs: seq<Log>) {
    forall log :: log in logs && IsExecutingMessageLog(gate, log) ==> Allowed(gate, log)
  }

  lemma {:induction false} ParsesMeaning(gate: Gate, logs: seq<Log>)
    ensures forall p :: p in Parses(gate, logs) <==>
      exists log :: log in logs && IsExecutingMessageLog(gate, log) && ParseExecutingMessage(gate, log) == p
  {
    hide ParseExecutingMessage;
    if logs != [] {
      var n := |logs| - 1;
      ParsesMeaning(gate, logs[..n]);
      assert forall log :: log in logs <==> log in logs[..n] || log == logs[n];
    }
  }

  lemma AllowedIff(gate: Gate, log: Log)
    ensures Allowed(gate, log) <==> OutcomeOf(gate, ParseExecutingMessage(gate, log)).Passed?
  {
    hide FaultOf;
    hide Holds;
    var p := ParseExecutingMessage(gate, log);
    if p.Parsed? {
      FaultlessIffHolds(gate, p.message);
    }
  }

  lemma {:induction false} FirstStopPasses(gate: Gate, logs: seq<Log>)
    ensures FirstStop(gate, Parses(gate, logs)).Passed? <==> Passes(gate, logs)
  {
    hide Allowed;
    hide OutcomeOf;
    hide ParseExecutingMessage;
    hide IsExecutingMessageLog;
    if logs != [] {
      var n := |logs| - 1;
      FirstStopPasses(gate, logs[..n]);
      AllowedIff(gate, logs[n]);
      assert forall log :: log in logs <==> log in logs[..n] || log == logs[n];
      var front := Parses(gate, logs[..n]);
      assert (front + [ParseExecutingMessage(gate, logs[n])])[..|front|] == front;
    }
  }

  // The verdict is to pass exactly when every executing message log is allowed.
  lemma PassesIff(gate: Gate, logs: seq<Log>)
    ensures Verdict(gate, logs).Passed? <==> Passes(gate, logs)
  {
    hide Holds;
    hide OutcomeOf;
    hide FirstStop;
    hide Parses;
    hide ParseExecutingMessage;
    FirstStopPasses(gate, logs);
    ParsesMeaning(gate, logs);
  }

  // ---- When the check panics ----

  predicate AllParse(gate: Gate, logs: seq<Log>) {
    forall log :: log in logs && IsExecutingMessageLog(gate, log) ==> !ParseExecutingMessage(gate, log).Failed?
  }

  // A log with the selector, one more topic and no data, which any contract can emit, behind
  // logs that all pass.
  predicate PanicsAt(gate: Gate, logs: seq<Log>, i: nat) {
    && i < |logs|
    && IsExecutingMessageLog(gate, logs[i])
    && |logs[i].topics| == 2
    && logs[i].data == []
    && Passes(gate, logs[..i])
  }

  // Message log i is the first that does not pass, with this outcome.
  ghost predicate StopsAt(gate: Gate, logs: seq<Log>, i: nat, stop: Outcome) {
    && i < |logs|
    && IsExecutingMessageLog(gate, logs[i])
    && OutcomeOf(gate, ParseExecutingMessage(gate, logs[i])) == stop
    && Passes(gate, logs[..i])
  }

  lemma {:induction false} FirstStopIff(gate: Gate, logs: seq<Log>, stop: Outcome)
    requires !stop.Passed?
    ensures FirstStop(gate, Parses(gate, logs)) == stop <==> exists i :: StopsAt(gate, logs, i, stop)
  {
    hide Passes;
    hide OutcomeOf;
    hide ParseExecutingMessage;
    hide IsExecutingMessageLog;
    if logs != [] {
      var n := |logs| - 1;
      var (front, last) := (Parses(gate, logs[..n]), ParseExecutingMessage(gate, logs[n]));
      FirstStopIff(gate, logs[..n], stop);
      FirstStopPasses(gate, logs[..n]);
      assert (front + [last])[..|front|] == front;
      forall i: nat | i < n ensures StopsAt(gate, logs, i, stop) <==> StopsAt(gate, logs[..n], i, stop) {
        assert logs[..n][..i] == logs[..i];
      }
      if i: nat :| i < n && StopsAt(gate, logs, i, stop) {
        assert StopsAt(gate, logs[..n], i, stop);
      }
      assert StopsAt(gate, logs, n, stop) <==>
        IsExecutingMessageLog(gate, logs[n]) && OutcomeOf(gate, last) == stop && Passes(gate, logs[..n]);
    }
  }

  lemma BlankIff(gate: Gate, logs: seq<Log>, i: nat)
    ensures PanicsAt(gate, logs, i) <==> StopsAt(gate, logs, i, Panicked)
  {
    hide Passes;
    hide FaultOf;
  }

  // The check panics exactly when every executing message log parses and the first one that is
  // not allowed is blank.
  lemma PanicsIff(gate: Gate, logs: seq<Log>)
    ensures Verdict(gate, logs).Panicked? <==> AllParse(gate, logs) && exists i :: PanicsAt(gate, logs, i)
  {
    hide OutcomeOf;
    hide FirstStop;
    hide Parses;
    hide ParseExecutingMessage;
    hide PanicsAt;
    hide StopsAt;
    FirstStopIff(gate, logs, Panicked);
    forall i: nat ensures PanicsAt(gate, logs, i) <==> StopsAt(gate, logs, i, Panicked) {
      BlankIff(gate, logs, i);
    }
    ParsesMeaning(gate, logs);
  }

  // It refuses a transaction as undecodable exactly when some executing message log does not
  // parse; otherwise with the fault of the first message that does not hold.
  lemma RefusedIff(gate: Gate, logs: seq<Log>, fault: Fault)
    ensures Verdict(gate, logs) == Refused(Undecodable) <==> !AllParse(gate, logs)
    ensures AllParse(gate, logs) ==>
      (Verdict(gate, logs) == Refused(fault) <==> exists i :: StopsAt(gate, logs, i, Refused(fault)))
  {
    hide OutcomeOf;
    hide FirstStop;
    hide Parses;
    hide ParseExecutingMessage;
    hide StopsAt;
    FirstStopIff(gate, logs, Refused(fault));
    FirstStopIff(gate, logs, Refused(Undecodable));
    ParsesMeaning(gate, logs);
    if AllParse(gate, logs) {
      if i :| StopsAt(gate, logs, i, Refused(Undecodable)) {
        NotUndecodable(gate, logs, i);
      }
    }
  }

  lemma NotUndecodable(gate: Gate, logs: seq<Log>, i: nat)
    requires StopsAt(gate, logs, i, Refused(Undecodable))
    ensures !AllParse(gate, logs)
  {
    hide Passes;
  }

  // ---- Which logs are looked at ----

  // Only logs whose first topic is the selector count, and all of them do.
  lemma SelectorDecides(gate: Gate, logs: seq<Log>)
    ensures Verdict(gate, logs).Passed? <==>
            forall log :: log in logs && |log.topics| > 0 && log.topics[0] == gate.selector ==> Allowed(gate, log)
  {
    hide Allowed;
    hide Verdict;
    PassesIff(gate, logs);
  }

  // A transaction without a log that starts with the selector passes, whatever the peers hold.
  lemma NothingToCheck(gate: Gate, result: Frame)
    requires forall log :: log in PreOrder(result) ==> log.topics == [] || log.topics[0] != gate.selector
    ensures Verdict(gate, LevelOrder([result])) == Passed
  {
    hide Verdict;
    hide LevelOrder;
    hide PreOrder;
    TreePasses(gate, result);
  }

  // Passing depends only on which logs there are.
  lemma PassesAnyOrder(gate: Gate, a: seq<Log>, b: seq<Log>)
    requires multiset(a) == multiset(b)
    ensures Verdict(gate, a).Passed? <==> Verdict(gate, b).Passed?
  {
    hide Holds;
    hide Verdict;
    PassesIff(gate, a);
    PassesIff(gate, b);
    assert forall log :: log in a <==> log in multiset(a);
    assert forall log :: log in b <==> log in multiset(b);
  }

  // A transaction passes exactly when every executing message log anywhere in its call tree
  // is allowed, wherever in the tree it was made.
  lemma TreePasses(gate: Gate, result: Frame)
    ensures Verdict(gate, LevelOrder([result])).Passed? <==> Passes(gate, PreOrder(result))
  {
    hide Verdict;
    hide Passes;
    hide LevelOrder;
    hide PreOrder;
    LevelOrderPermutes([result]);
    PreOrdersOne(result);
    PassesAnyOrder(gate, LevelOrder([result]), PreOrder(result));
    PassesIff(gate, PreOrder(result));
  }

  // An executing message of the inbox that meets the rule and is due.
  ghost predicate Lawful(gate: Gate, log: Log, time: nat) {
    var p := ParseExecutingMessage(gate, log);
    p.Parsed? && Rule(gate, p.message, time) && Due(gate, p.message) && Reachable(gate, p.message)
  }

  // What the code leaves unchecked in a log that it passes.
  predicate InRangeAndOrder(gate: Gate, log: Log, time: nat) {
    var p := ParseExecutingMessage(gate, log);
    p.Parsed? ==> InRange(gate, p.message) && p.message.id.timestamp <= time
  }

  // A log with the selector of an executing message that is not the inbox's.
  predicate LookAlike(gate: Gate, log: Log) {
    IsExecutingMessageLog(gate, log) && log.address != CROSS_L2_INBOX
  }

  ghost predicate AllLawful(gate: Gate, logs: seq<Log>, time: nat) {
    forall log :: log in logs && FromInbox(gate, log) ==> Lawful(gate, log, time)
  }

  predicate AllInRangeAndOrder(gate: Gate, logs: seq<Log>, time: nat) {
    forall log :: log in logs && FromInbox(gate, log) ==> InRangeAndOrder(gate, log, time)
  }

  predicate LookAlikesPass(gate: Gate, logs: seq<Log>) {
    forall log :: log in logs && LookAlike(gate, log) ==> Allowed(gate, log)
  }

  lemma LawfulIff(gate: Gate, log: Log, time: nat)
    ensures Lawful(gate, log, time) <==> Allowed(gate, log) && InRangeAndOrder(gate, log, time)
  {
    hide Rule;
    hide Due;
    hide Holds;
    hide InRange;
    hide ParseExecutingMessage;
    var p := ParseExecutingMessage(gate, log);
    if p.Parsed? {
      HoldsIffRule(gate, p.message, time);
    }
  }

  // The admission theorem, for a transaction executed in a block of the given time, on peers that
  // answer. The gate differs from the interop rule in exactly three ways: it also holds the
  // look-alikes of other contracts to its checks, its chain ids and sums wrap at 64 bits, and
  // without a delay it does not compare the times of the two blocks.
  lemma AdmissionExact(gate: Gate, result: Frame, time: nat)
    ensures AllLawful(gate, PreOrder(result), time) && LookAlikesPass(gate, PreOrder(result)) <==>
            Verdict(gate, LevelOrder([result])).Passed? && AllInRangeAndOrder(gate, PreOrder(result), time)
  {
    hide Verdict;
    hide LevelOrder;
    hide PreOrder;
    hide IsExecutingMessageLog;
    hide Lawful;
    hide Allowed;
    hide InRangeAndOrder;
    TreePasses(gate, result);
    forall log ensures Lawful(gate, log, time) <==> Allowed(gate, log) && InRangeAndOrder(gate, log, time) {
      LawfulIff(gate, log, time);
    }
    assert forall log :: IsExecutingMessageLog(gate, log) <==> FromInbox(gate, log) || LookAlike(gate, log);
  }

  // A look-alike that does not parse stops a transaction without any executing message, and one
  // that parses to a blank identifier makes the check panic.
  lemma LookAlikeStops(gate: Gate, log: Log, time: nat)
    requires LookAlike(gate, log) && !ParseExecutingMessage(gate, log).Parsed?
    ensures AllLawful(gate, [log], time)
    ensures Verdict(gate, [log]) ==
            if |log.topics| == 2 && log.data == [] then Panicked else Refused(Undecodable)
  {
    assert [log][..0] == [];
    var p := ParseExecutingMessage(gate, log);
    assert Parses(gate, [log]) == [p];
    assert [p][..0] == [];
    assert FirstStop(gate, [p]) == OutcomeOf(gate, p);
  }

  lemma {:induction false} FailedPrefix(gate: Gate, logs: seq<Log>, i: nat)
    requires i <= |logs| && Failed in Parses(gate, logs[..i])
    ensures Failed in Parses(gate, logs)
    decreases |logs|
  {
    if i < |logs| {
      assert logs[..|logs| - 1][..i] == logs[..i];
      FailedPrefix(gate, logs[..|logs| - 1], i);
    } else {
      assert logs[..i] == logs;
    }
  }

  lemma {:induction false} FirstStopPrefix(gate: Gate, ps: seq<Parse>, i: nat)
    requires i <= |ps| && !FirstStop(gate, ps[..i]).Passed?
    ensures FirstStop(gate, ps) == FirstStop(gate, ps[..i])
    decreases |ps|
  {
    if i < |ps| {
      assert ps[..|ps| - 1][..i] == ps[..i];
      FirstStopPrefix(gate, ps[..|ps| - 1], i);
    } else {
      assert ps[..i] == ps;
    }
  }

  // ---- The node's log filter: one block, one address ----

  function FilterLogs(logs: seq<Placed>, block: nat, origin: Address): seq<Placed> {
    if logs == [] then []
    else
      var n := |logs| - 1;
      if logs[n].block == block && logs[n].log.address == origin
      then FilterLogs(logs[..n], block, origin) + [logs[n]]
      else FilterLogs(logs[..n], block, origin)
  }

  function AtIndex(logs: seq<Placed>, index: nat): seq<Placed> {
    if logs == [] then []
    else
      var n := |logs| - 1;
      if logs[n].index == index then AtIndex(logs[..n], index) + [logs[n]] else AtIndex(logs[..n], index)
  }

  lemma {:induction false} FilterThenIndex(logs: seq<Placed>, id: Identifier)
    ensures AtIndex(FilterLogs(logs, id.blockNumber, id.origin), id.logIndex) == LogsAt(logs, id)
  {
    if logs != [] {
      var n := |logs| - 1;
      FilterThenIndex(logs[..n], id);
      var front := FilterLogs(logs[..n], id.blockNumber, id.origin);
      assert (front + [logs[n]])[..|front|] == front;
    }
  }

  // ---- The check itself ----

  method CheckMessage(gate: Gate, m: ExecutingMessage) returns (fault: Option<Fault>)
    ensures fault == FaultOf(gate, m)
  {
    var id := m.id;
    if id.chainId % TWO64 !in gate.peers {
      return Some(NoChain(id.chainId));
    }
    var sourceChain := gate.peers[id.chainId % TWO64];
    if id.blockNumber >= |sourceChain.times| {
      return Some(NoBlock);
    }
    var time := sourceChain.times[id.blockNumber];
    if id.timestamp != time {
      return Some(TimestampMismatch);
    }
    if !sourceChain.filterAnswers {
      return Some(FilterFailed);
    }
    var logs := FilterLogs(sourceChain.logs, id.blockNumber, id.origin);
    var initiating := [];
    for i := 0 to |logs|
      invariant initiating == AtIndex(logs[..i], id.logIndex)
    {
      assert logs[..i + 1][..i] == logs[..i];
      if logs[i].index == id.logIndex {
        initiating := initiating + [logs[i]];
      }
    }
    assert logs[..|logs|] == logs;
    FilterThenIndex(sourceChain.logs, id);
    if |initiating| == 0 {
      return Some(NotFound);
    }
    if |initiating| > 1 {
      return Some(Ambiguous(|initiating|));
    }
    var payload := ExecutingMessagePayloadBytes(initiating[0].log);
    if m.msgHash != gate.keccak(payload) {
      return Some(PayloadMismatch);
    }
    if gate.delay != 0 {
      if gate.now.None? {
        return Some(NoHeader);
      }
      if gate.now.value < (time + gate.delay) % TWO64 {
        return Some(TooEarly);
      }
    }
    return None;
  }

  method CheckInteropInvariants(gate: Gate, logs: seq<Log>) returns (outcome: Outcome)
    ensures outcome.Passed? <==> Passes(gate, logs)
    ensures outcome.Panicked? <==> AllParse(gate, logs) && exists i :: PanicsAt(gate, logs, i)
    ensures outcome == Verdict(gate, logs)
  {
    hide FaultOf;
    hide Holds;
    hide Passes;
    hide AllParse;
    hide PanicsAt;
    PassesIff(gate, logs);
    PanicsIff(gate, logs);
    var executing: seq<Parse> := [];
    for i := 0 to |logs|
      invariant Parses(gate, logs[..i]) == executing && Failed !in executing
    {
      assert logs[..i + 1][..i] == logs[..i];
      if IsExecutingMessageLog(gate, logs[i]) {
        var parse := ParseExecutingMessage(gate, logs[i]);
        if parse.Failed? {
          FailedPrefix(gate, logs, i + 1);
          return Refused(Undecodable);
        }
        executing := executing + [parse];
      }
    }
    assert logs[..|logs|] == logs;
    if |executing| >= 1 {
      for i := 0 to |executing|
        invariant FirstStop(gate, executing[..i]).Passed?
      {
        assert executing[..i + 1][..i] == executing[..i];
        if executing[i].Blank? {
          FirstStopPrefix(gate, executing, i + 1);
          return Panicked;
        }
        var fault := CheckMessage(gate, executing[i].message);
        if fault.Some? {
          FirstStopPrefix(gate, executing, i + 1);
          return Refused(fault.value);
        }
      }
      assert executing[..|executing|] == executing;
    }
    return Passed;
  }
}
