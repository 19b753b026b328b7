// The life of a cross-domain message as the indexer sees it: what is stored under a message
// hash is a fold of the events with that hash.
module MessageLifecycle {
  import opened Interop
  import opened Wrappers

  type Hash = nat

  const NO_HASH: Hash := 0

  datatype Message = Message(destination: nat, source: nat, nonce: nat, sender: Address, target: Address,
                             payload: seq<nat>)

  datatype Log = Log(address: Address, topics: seq<Hash>, data: seq<nat>, blockNumber: nat, index: nat, txHash: Hash)

  datatype State = Sent | Relayed | FailedRelay

  datatype Lifecycle = Lifecycle(sentTxHash: Hash, failedTxHashes: seq<Hash>, relayedTxHash: Hash) {
    function WithFailedTxHash(hash: Hash): Lifecycle {
      Lifecycle(sentTxHash, failedTxHashes + [hash], relayedTxHash)
    }

    function WithRelayedTxHash(hash: Hash): Lifecycle {
      Lifecycle(sentTxHash, failedTxHashes, hash)
    }

    function Status(): State {
      if relayedTxHash != NO_HASH then Relayed
      else if |failedTxHashes| > 0 then FailedRelay
      else Sent
    }
  }

  // The contents of a store entry.
  datatype Record = Record(message: Message, identifier: Option<Identifier>, log: Option<Log>, lifecycle: Lifecycle)

  // A decoded log of the messenger.
  datatype Event =
    | SentEvent(hash: Hash, message: Message, identifier: Identifier, log: Log)
    | RelayedEvent(hash: Hash, txHash: Hash)
    | FailedEvent(hash: Hash, txHash: Hash)

  // A lifecycle update refuses a message that is already relayed, and builds a record without
  // identifier and log.
  function Update(r: Option<Record>, next: Lifecycle -> Lifecycle): Option<Record> {
    if r.None? || r.value.lifecycle.relayedTxHash != NO_HASH then None
    else Some(Record(r.value.message, None, None, next(r.value.lifecycle)))
  }

  // The new record under the event's hash, or None if the event is refused.
  function Effect(r: Option<Record>, e: Event): Option<Record> {
    match e
    case SentEvent(_, message, identifier, log) =>
      Some(Record(message, Some(identifier), Some(log), Lifecycle(log.txHash, [], NO_HASH)))
    case RelayedEvent(_, txHash) => Update(r, (l: Lifecycle) => l.WithRelayedTxHash(txHash))
    case FailedEvent(_, txHash) => Update(r, (l: Lifecycle) => l.WithFailedTxHash(txHash))
  }

  type Contents = map<Hash, Record>

  function Lookup(m: Contents, hash: Hash): Option<Record> {
    if hash in m then Some(m[hash]) else None
  }

  // One event on the whole store: only the record under its hash can change.
  function Apply(m: Contents, e: Event): Contents {
    match Effect(Lookup(m, e.hash), e)
    case None => m
    case Some(r) => m[e.hash := r]
  }

  function Fold(m: Contents, events: seq<Event>): Contents {
    if events == [] then m else Apply(Fold(m, events[..|events| - 1]), events[|events| - 1])
  }

  // ---- The fold of one hash ----

  function With(events: seq<Event>, hash: Hash): seq<Event> {
    if events == [] then []
    else
      var n := |events| - 1;
      if events[n].hash == hash then With(events[..n], hash) + [events[n]] else With(events[..n], hash)
  }

  function RecordOf(events: seq<Event>): Option<Record> {
    if events == [] then None
    else
      var before := RecordOf(events[..|events| - 1]);
      match Effect(before, events[|events| - 1])
      case None => before
      case Some(r) => Some(r)
  }

  // What the store holds under a hash is the fold of the events with that hash alone.
  lemma {:induction false} FoldByHash(events: seq<Event>, hash: Hash)
    ensures Lookup(Fold(map[], events), hash) == RecordOf(With(events, hash))
  {
    hide Effect;
    if events != [] {
      var n := |events| - 1;
      FoldByHash(events[..n], hash);
      if events[n].hash == hash {
        var front := With(events[..n], hash);
        assert (front + [events[n]])[..|front|] == front;
      }
    }
  }

  // Histories that agree on the order of events with equal hashes give the same store.
  lemma EqualPerHash(a: seq<Event>, b: seq<Event>)
    requires forall hash :: With(a, hash) == With(b, hash)
    ensures Fold(map[], a) == Fold(map[], b)
  {
    var m, n := Fold(map[], a), Fold(map[], b);
    forall hash ensures Lookup(m, hash) == Lookup(n, hash) {
      FoldByHash(a, hash);
      FoldByHash(b, hash);
      assert With(a, hash) == With(b, hash);
    }
    assert forall hash :: hash in m <==> Lookup(m, hash).Some?;
    assert forall hash :: hash in n <==> Lookup(n, hash).Some?;
    assert forall hash :: hash in m ==> m[hash] == Lookup(m, hash).value;
    assert forall hash :: hash in n ==> n[hash] == Lookup(n, hash).value;
    assert m.Keys == n.Keys;
  }

  // ---- One event stream per chain ----

  // An event together with the chain whose goroutine handles it.
  datatype Handled = Handled(chain: nat, event: Event)

  function Events(history: seq<Handled>): seq<Event> {
    if history == [] then [] else Events(history[..|history| - 1]) + [history[|history| - 1].event]
  }

  // The events of one chain, in the order in which its goroutine handled them.
  function Stream(history: seq<Handled>, chain: nat): seq<Event> {
    if history == [] then []
    else
      var n := |history| - 1;
      if history[n].chain == chain then Stream(history[..n], chain) + [history[n].event]
      else Stream(history[..n], chain)
  }

  // Two interleavings of the same streams.
  ghost predicate SameStreams(a: seq<Handled>, b: seq<Handled>) {
    forall chain :: Stream(a, chain) == Stream(b, chain)
  }

  // All events with this hash come from one chain.
  predicate FromChain(history: seq<Handled>, hash: Hash, chain: nat) {
    forall i :: 0 <= i < |history| && history[i].event.hash == hash ==> history[i].chain == chain
  }

  // All events with one hash come from one chain, whatever the hash.
  predicate OneChainPerHash(history: seq<Handled>, home: Hash -> nat) {
    forall i :: 0 <= i < |history| ==> history[i].chain == home(history[i].event.hash)
  }

  lemma WithAppend(events: seq<Event>, e: Event, hash: Hash)
    ensures With(events + [e], hash) == if e.hash == hash then With(events, hash) + [e] else With(events, hash)
  {
    assert (events + [e])[..|events|] == events;
  }

  lemma {:induction false} WithinStream(history: seq<Handled>, hash: Hash, chain: nat)
    requires FromChain(history, hash, chain)
    ensures With(Events(history), hash) == With(Stream(history, chain), hash)
  {
    if history != [] {
      var n := |history| - 1;
      WithinStream(history[..n], hash, chain);
      WithAppend(Events(history[..n]), history[n].event, hash);
      WithAppend(Stream(history[..n], chain), history[n].event, hash);
    }
  }

  // If every message's events come from one chain, the interleaving of the goroutines does not
  // matter.
  lemma InterleavingIrrelevant(a: seq<Handled>, b: seq<Handled>, home: Hash -> nat)
    requires SameStreams(a, b) && OneChainPerHash(a, home) && OneChainPerHash(b, home)
    ensures Fold(map[], Events(a)) == Fold(map[], Events(b))
  {
    hide With;
    hide Stream;
    hide Events;
    hide Fold;
    forall hash ensures With(Events(a), hash) == With(Events(b), hash) {
      WithinStream(a, hash, home(hash));
      WithinStream(b, hash, home(hash));
      assert Stream(a, home(hash)) == Stream(b, home(hash));
    }
    EqualPerHash(Events(a), Events(b));
  }

  // ---- A message sent on one chain and relayed on another ----

  // Sends come from the hash's source chain, relays and failures from its destination, which
  // may be the same chain.
  predicate TwoChains(history: seq<Handled>, source: Hash -> nat, destination: Hash -> nat) {
    forall i :: 0 <= i < |history| ==>
      var h := history[i].event.hash;
      history[i].chain == if history[i].event.SentEvent? then source(h) else destination(h)
  }

  predicate NoneRelayed(events: seq<Event>, hash: Hash) {
    forall i :: 0 <= i < |events| && events[i].hash == hash ==> events[i].SentEvent?
  }

  // No relay of the message is handled before a send of it.
  predicate Causal(history: seq<Handled>, hash: Hash) {
    history == [] ||
    var n := |history| - 1;
    && Causal(history[..n], hash)
    && (history[n].event.hash == hash && history[n].event.SentEvent? ==> NoneRelayed(Events(history[..n]), hash))
  }

  // The order of a message's events is settled: one goroutine handles them all, or no relay of
  // it is handled before a send of it.
  predicate Ordered(history: seq<Handled>, source: Hash -> nat, destination: Hash -> nat, hash: Hash) {
    source(hash) == destination(hash) || Causal(history, hash)
  }

  // The events of a message, with the sends first where another chain relays it.
  function InOrder(history: seq<Handled>, source: Hash -> nat, destination: Hash -> nat, hash: Hash): seq<Event> {
    if source(hash) == destination(hash) then With(Stream(history, source(hash)), hash)
    else With(Stream(history, source(hash)), hash) + With(Stream(history, destination(hash)), hash)
  }

  lemma {:induction false} EventsAt(history: seq<Handled>)
    ensures |Events(history)| == |history|
    ensures forall i :: 0 <= i < |history| ==> Events(history)[i] == history[i].event
  {
    if history != [] {
      EventsAt(history[..|history| - 1]);
    }
  }

  lemma {:induction false} NoRelayStream(history: seq<Handled>, source: Hash -> nat, destination: Hash -> nat,
                                         hash: Hash)
    requires TwoChains(history, source, destination) && source(hash) != destination(hash)
    requires NoneRelayed(Events(history), hash)
    ensures With(Stream(history, destination(hash)), hash) == []
  {
    if history != [] {
      var n := |history| - 1;
      EventsAt(history);
      EventsAt(history[..n]);
      NoRelayStream(history[..n], source, destination, hash);
      WithAppend(Stream(history[..n], destination(hash)), history[n].event, hash);
    }
  }

  lemma {:induction false} CausalSplit(history: seq<Handled>, source: Hash -> nat, destination: Hash -> nat, hash: Hash)
    requires TwoChains(history, source, destination) && Causal(history, hash) && source(hash) != destination(hash)
    ensures With(Events(history), hash) ==
            With(Stream(history, source(hash)), hash) + With(Stream(history, destination(hash)), hash)
  {
    if history != [] {
      hide With;
      hide Stream;
      hide Events;
      hide NoneRelayed;
      var n := |history| - 1;
      CausalSplit(history[..n], source, destination, hash);
      assert history == history[..n] + [history[n]];
      CausalStep(history[..n], history[n], source(hash), destination(hash), hash);
      if history[n].event.hash == hash && history[n].event.SentEvent? {
        NoRelayStream(history[..n], source, destination, hash);
      }
    }
  }

  // What one more event adds to the store's view of a hash and to the two streams.
  lemma CausalStep(front: seq<Handled>, last: Handled, source: nat, destination: nat, hash: Hash)
    requires source != destination
    ensures var history := front + [last];
            var mine := if last.event.hash == hash then [last.event] else [];
            && With(Events(history), hash) == With(Events(front), hash) + mine
            && With(Stream(history, source), hash) ==
                 With(Stream(front, source), hash) + (if last.chain == source then mine else [])
            && With(Stream(history, destination), hash) ==
                 With(Stream(front, destination), hash) + (if last.chain == destination then mine else [])
  {
    hide With;
    var history := front + [last];
    assert history[..|front|] == front;
    WithAppend(Events(front), last.event, hash);
    WithAppend(Stream(front, source), last.event, hash);
    WithAppend(Stream(front, destination), last.event, hash);
  }

  lemma OrderedSplit(history: seq<Handled>, source: Hash -> nat, destination: Hash -> nat, hash: Hash)
    requires TwoChains(history, source, destination) && Ordered(history, source, destination, hash)
    ensures With(Events(history), hash) == InOrder(history, source, destination, hash)
  {
    if source(hash) == destination(hash) {
      WithinStream(history, hash, source(hash));
    } else {
      CausalSplit(history, source, destination, hash);
    }
  }

  lemma SameOrder(a: seq<Handled>, b: seq<Handled>, source: Hash -> nat, destination: Hash -> nat, hash: Hash)
    requires SameStreams(a, b)
    ensures InOrder(a, source, destination, hash) == InOrder(b, source, destination, hash)
  {
    assert Stream(a, source(hash)) == Stream(b, source(hash));
    assert Stream(a, destination(hash)) == Stream(b, destination(hash));
  }

  ghost predicate AllOrdered(history: seq<Handled>, source: Hash -> nat, destination: Hash -> nat) {
    forall hash :: Ordered(history, source, destination, hash)
  }

  // If every message relayed on another chain has its send handled before its relays, the
  // interleaving of the goroutines does not matter, although two of them touch such a message.
  lemma CausalInterleavings(a: seq<Handled>, b: seq<Handled>, source: Hash -> nat, destination: Hash -> nat)
    requires SameStreams(a, b)
    requires TwoChains(a, source, destination) && TwoChains(b, source, destination)
    requires AllOrdered(a, source, destination) && AllOrdered(b, source, destination)
    ensures Fold(map[], Events(a)) == Fold(map[], Events(b))
  {
    hide With;
    hide Fold;
    hide Ordered;
    hide InOrder;
    hide TwoChains;
    hide SameStreams;
    forall hash ensures With(Events(a), hash) == With(Events(b), hash) {
      assert Ordered(a, source, destination, hash) && Ordered(b, source, destination, hash);
      OrderedSplit(a, source, destination, hash);
      OrderedSplit(b, source, destination, hash);
      SameOrder(a, b, source, destination, hash);
    }
    EqualPerHash(Events(a), Events(b));
  }

  // ---- What the fold means ----

  // The position of the first relay with a transaction hash; the length if there is none.
  function FirstRelay(events: seq<Event>): (k: nat)
    ensures k <= |events|
  {
    if events == [] || (events[0].RelayedEvent? && events[0].txHash != NO_HASH) then 0 else 1 + FirstRelay(events[1..])
  }

  function Failures(events: seq<Event>): seq<Hash> {
    if events == [] then []
    else if events[0].FailedEvent? then [events[0].txHash] + Failures(events[1..])
    else Failures(events[1..])
  }

  predicate NoSend(events: seq<Event>) {
    forall i :: 0 <= i < |events| ==> !events[i].SentEvent?
  }

  lemma {:induction false} FirstRelayAppend(events: seq<Event>, e: Event)
    ensures FirstRelay(events + [e]) ==
            if FirstRelay(events) < |events| then FirstRelay(events)
            else if e.RelayedEvent? && e.txHash != NO_HASH then |events|
            else |events| + 1
  {
    if events != [] {
      assert (events + [e])[1..] == events[1..] + [e];
      FirstRelayAppend(events[1..], e);
    } else {
      assert ([e])[1..] == [];
    }
  }

  lemma {:induction false} FailuresAppend(events: seq<Event>, e: Event)
    ensures Failures(events + [e]) == Failures(events) + if e.FailedEvent? then [e.txHash] else []
  {
    if events != [] {
      assert (events + [e])[1..] == events[1..] + [e];
      FailuresAppend(events[1..], e);
    } else {
      assert ([e])[1..] == [];
    }
  }

  // The first relay after a send, and the failures before it.
  function Summary(sent: Event, rest: seq<Event>): Lifecycle
    requires sent.SentEvent?
  {
    var k := FirstRelay(rest);
    Lifecycle(sent.log.txHash, Failures(rest[..k]),
              if k < |rest| && rest[k].RelayedEvent? then rest[k].txHash else NO_HASH)
  }

  lemma {:induction false} FirstRelayIsRelay(events: seq<Event>)
    ensures var k := FirstRelay(events);
            k < |events| ==> events[k].RelayedEvent? && events[k].txHash != NO_HASH
  {
    if events != [] {
      FirstRelayIsRelay(events[1..]);
    }
  }

  // Adding one event to a summary is one lifecycle update.
  lemma SummaryStep(sent: Event, rest: seq<Event>, e: Event)
    requires sent.SentEvent? && !e.SentEvent?
    ensures Summary(sent, rest + [e]) ==
            var l := Summary(sent, rest);
            if l.relayedTxHash != NO_HASH then l
            else if e.RelayedEvent? then l.WithRelayedTxHash(e.txHash)
            else l.WithFailedTxHash(e.txHash)
  {
    var k := FirstRelay(rest);
    FirstRelayAppend(rest, e);
    FirstRelayIsRelay(rest);
    if k < |rest| {
      assert (rest + [e])[..k] == rest[..k];
    } else {
      assert rest[..k] == rest;
      FailuresAppend(rest, e);
      assert (rest + [e])[..|rest|] == rest;
      assert (rest + [e])[..|rest| + 1] == rest + [e];
    }
  }

  // After its last send, a message keeps its content whatever follows; its failed transactions
  // are listed in order up to the first relay, which stays. The record keeps the identifier and
  // the log of the send exactly until the first relay or failure.
  lemma {:induction false} RecordMeaning(before: seq<Event>, sent: Event, rest: seq<Event>)
    requires sent.SentEvent? && NoSend(rest)
    ensures RecordOf(before + [sent] + rest) ==
            Some(Record(sent.message,
                        if rest == [] then Some(sent.identifier) else None,
                        if rest == [] then Some(sent.log) else None,
                        Summary(sent, rest)))
    decreases |rest|
  {
    var es := before + [sent] + rest;
    if rest == [] {
      assert es == before + [sent];
      assert es[..|es| - 1] == before;
    } else {
      var n := |rest| - 1;
      assert es[..|es| - 1] == before + [sent] + rest[..n];
      assert rest == rest[..n] + [rest[n]];
      RecordMeaning(before, sent, rest[..n]);
      SummaryStep(sent, rest[..n], rest[n]);
      FirstEffect(sent, rest);
    }
  }

  // Right after a send nothing has been relayed, so the first update is never refused.
  lemma FirstEffect(sent: Event, rest: seq<Event>)
    requires sent.SentEvent? && |rest| > 0
    ensures Summary(sent, rest[..0]).relayedTxHash == NO_HASH
  {
  }

  lemma {:induction false} NothingBeforeSend(events: seq<Event>)
    requires NoSend(events)
    ensures RecordOf(events) == None
  {
    if events != [] {
      NothingBeforeSend(events[..|events| - 1]);
    }
  }

  // A relayed message stays as it is until it is sent again.
  lemma {:induction false} RelayedIsAbsorbing(events: seq<Event>, later: seq<Event>)
    requires RecordOf(events).Some? && RecordOf(events).value.lifecycle.Status() == Relayed && NoSend(later)
    ensures RecordOf(events + later) == RecordOf(events)
    decreases |later|
  {
    if later == [] {
      assert events + later == events;
    } else {
      var n := |later| - 1;
      assert (events + later)[..|events + later| - 1] == events + later[..n];
      RelayedIsAbsorbing(events, later[..n]);
    }
  }

  // ---- When a relay is recorded ----

  lemma {:induction false} FirstRelayFinds(events: seq<Event>)
    ensures FirstRelay(events) < |events| <==>
            exists i :: 0 <= i < |events| && events[i].RelayedEvent? && events[i].txHash != NO_HASH
  {
    if events != [] && FirstRelay(events) != 0 {
      FirstRelayFinds(events[1..]);
      assert forall i :: 1 <= i < |events| ==> events[i] == events[1..][i - 1];
    }
  }

  // Whatever came before a message's last send, it is recorded as relayed exactly when some
  // relay of it, with a transaction hash, is handled after that send.
  lemma RelayedIff(before: seq<Event>, sent: Event, rest: seq<Event>)
    requires sent.SentEvent? && NoSend(rest)
    ensures var r := RecordOf(before + [sent] + rest);
            r.Some? && (r.value.lifecycle.Status() == Relayed <==>
              exists i :: 0 <= i < |rest| && rest[i].RelayedEvent? && rest[i].txHash != NO_HASH)
  {
    RecordMeaning(before, sent, rest);
    FirstRelayFinds(rest);
    FirstRelayIsRelay(rest);
  }

  lemma {:induction false} WithConcat(a: seq<Event>, b: seq<Event>, hash: Hash)
    ensures With(a + b, hash) == With(a, hash) + With(b, hash)
  {
    if b == [] {
      assert a + b == a;
    } else {
      var n := |b| - 1;
      assert (a + b)[..|a + b| - 1] == a + b[..n];
      WithConcat(a, b[..n], hash);
    }
  }

  lemma {:induction false} WithMeaning(events: seq<Event>, hash: Hash)
    ensures forall e :: e in With(events, hash) <==> e in events && e.hash == hash
  {
    if events != [] {
      var n := |events| - 1;
      WithMeaning(events[..n], hash);
      assert forall e :: e in events <==> e in events[..n] || e == events[n];
    }
  }

  // Position i holds the last send of the message.
  predicate LastSend(events: seq<Event>, hash: Hash, i: nat) {
    && i < |events| && events[i].hash == hash && events[i].SentEvent?
    && forall k :: i < k < |events| && events[k].hash == hash ==> !events[k].SentEvent?
  }

  // A relay of the message, with a transaction hash, at position j.
  predicate RelayAt(events: seq<Event>, hash: Hash, j: nat) {
    j < |events| && events[j].hash == hash && events[j].RelayedEvent? && events[j].txHash != NO_HASH
  }

  // What follows the last send of a message, and when it holds a relay.
  lemma AfterLastSend(events: seq<Event>, hash: Hash, i: nat)
    requires LastSend(events, hash, i)
    ensures var rest := With(events[i + 1..], hash);
            && NoSend(rest)
            && ((exists k :: 0 <= k < |rest| && rest[k].RelayedEvent? && rest[k].txHash != NO_HASH) <==>
                exists j :: i < j && RelayAt(events, hash, j))
  {
    hide With;
    var after := events[i + 1..];
    WithMeaning(after, hash);
    var rest := With(after, hash);
    forall k | 0 <= k < |rest| ensures !rest[k].SentEvent? {
      assert rest[k] in after;
    }
    if j :| i < j && RelayAt(events, hash, j) {
      assert after[j - i - 1] == events[j];
      assert events[j] in rest;
    }
    if k :| 0 <= k < |rest| && rest[k].RelayedEvent? && rest[k].txHash != NO_HASH {
      assert rest[k] in after;
      var m :| 0 <= m < |after| && after[m] == rest[k];
      assert RelayAt(events, hash, i + 1 + m);
    }
  }

  // In the whole store: a message is recorded as relayed exactly when a relay of it is handled
  // after its last send. Relays that overtake the send are lost.
  lemma RaceIff(events: seq<Event>, hash: Hash, i: nat)
    requires LastSend(events, hash, i)
    ensures var r := Lookup(Fold(map[], events), hash);
            r.Some? && (r.value.lifecycle.Status() == Relayed <==> exists j :: i < j && RelayAt(events, hash, j))
  {
    AfterLastSend(events, hash, i);
    hide With;
    hide Fold;
    hide RecordOf;
    hide RelayAt;
    FoldByHash(events, hash);
    var (before, sent, after) := (events[..i], events[i], events[i + 1..]);
    assert events == before + [sent] + after;
    WithConcat(before + [sent], after, hash);
    WithAppend(before, sent, hash);
    RelayedIff(With(before, hash), sent, With(after, hash));
  }

  // ---- When the interleaving matters ----

  // Relays and failures of different transactions.
  predicate DistinctTxs(events: seq<Event>) {
    && NoSend(events)
    && (forall i :: 0 <= i < |events| ==> events[i].txHash != NO_HASH)
    && (forall i, j :: 0 <= i < j < |events| ==> events[i].txHash != events[j].txHash)
  }

  lemma {:induction false} FailuresFrom(events: seq<Event>, tx: Hash)
    requires tx in Failures(events)
    ensures exists i :: 0 <= i < |events| && events[i].FailedEvent? && events[i].txHash == tx
  {
    if events[0].FailedEvent? && tx == events[0].txHash {
    } else {
      FailuresFrom(events[1..], tx);
      var i :| 0 <= i < |events[1..]| && events[1..][i].FailedEvent? && events[1..][i].txHash == tx;
      assert events[i + 1].FailedEvent?;
    }
  }

  // Losing a relay or failure shows in the lifecycle.
  lemma LossShows(sent: Event, lost: seq<Event>, kept: seq<Event>)
    requires sent.SentEvent? && lost != [] && DistinctTxs(lost + kept)
    ensures Summary(sent, kept) != Summary(sent, lost + kept)
  {
    var all := lost + kept;
    var e := all[0];
    FirstRelayIsRelay(kept);
    forall i | 0 <= i < |kept| ensures !kept[i].SentEvent? && kept[i].txHash != e.txHash {
      assert kept[i] == all[|lost| + i];
    }
    if e.RelayedEvent? {
      assert FirstRelay(all) == 0;
      assert Summary(sent, all).relayedTxHash == e.txHash;
    } else {
      var k := FirstRelay(all);
      assert k >= 1 && all[..k][0] == e;
      assert e.txHash in Failures(all[..k]);
      if e.txHash in Failures(kept[..FirstRelay(kept)]) {
        FailuresFrom(kept[..FirstRelay(kept)], e.txHash);
        assert false;
      }
    }
  }

  lemma {:induction false} RelayStreamEmptyIff(history: seq<Handled>, source: Hash -> nat, destination: Hash -> nat,
                                               hash: Hash)
    requires TwoChains(history, source, destination) && source(hash) != destination(hash)
    ensures NoneRelayed(Events(history), hash) <==> With(Stream(history, destination(hash)), hash) == []
  {
    if history != [] {
      var n := |history| - 1;
      EventsAt(history);
      EventsAt(history[..n]);
      RelayStreamEmptyIff(history[..n], source, destination, hash);
      WithAppend(Stream(history[..n], destination(hash)), history[n].event, hash);
      assert history == history[..n] + [history[n]];
      if NoneRelayed(Events(history[..n]), hash) && !(history[n].event.hash == hash && !history[n].event.SentEvent?) {
        assert NoneRelayed(Events(history), hash);
      }
      if NoneRelayed(Events(history), hash) {
        assert NoneRelayed(Events(history[..n]), hash);
        assert Events(history)[n] == history[n].event;
      }
    }
  }

  // lost and kept split the message's events at its send, if it is sent: together they are the
  // destination's stream, and the message is causal if nothing comes before the send.
  predicate SplitsAt(history: seq<Handled>, source: nat, destination: nat, hash: Hash, lost: seq<Event>,
                     kept: seq<Event>) {
    var sends := With(Stream(history, source), hash);
    && With(Events(history), hash) == lost + sends + kept
    && With(Stream(history, destination), hash) == lost + kept
    && (sends == [] ==> kept == [] && Causal(history, hash))
    && (sends != [] ==> (Causal(history, hash) <==> lost == []))
  }

  lemma CausalAppend(front: seq<Handled>, last: Handled, hash: Hash)
    ensures Causal(front + [last], hash) <==>
            Causal(front, hash) && (last.event.hash == hash && last.event.SentEvent? ==>
                                    NoneRelayed(Events(front), hash))
  {
    assert (front + [last])[..|front|] == front;
  }

  lemma SplitStep(front: seq<Handled>, last: Handled, source: nat, destination: nat, hash: Hash, lost: seq<Event>,
                  kept: seq<Event>)
    returns (lost': seq<Event>, kept': seq<Event>)
    requires SplitsAt(front, source, destination, hash, lost, kept) && source != destination
    requires last.event.hash == hash ==> last.chain == if last.event.SentEvent? then source else destination
    requires |With(Stream(front + [last], source), hash)| <= 1
    requires NoneRelayed(Events(front), hash) <==> With(Stream(front, destination), hash) == []
    ensures SplitsAt(front + [last], source, destination, hash, lost', kept')
  {
    hide With;
    hide Stream;
    hide Events;
    hide NoneRelayed;
    hide Causal;
    CausalStep(front, last, source, destination, hash);
    CausalAppend(front, last, hash);
    var e := last.event;
    var (all, sends) := (With(Events(front), hash), With(Stream(front, source), hash));
    lost', kept' := lost, kept;
    if e.hash != hash {
    } else if e.SentEvent? {
      assert sends == [] && all == lost;
    } else if sends == [] {
      assert all + [e] == lost + [e];
      lost' := lost + [e];
    } else {
      assert all + [e] == lost + sends + (kept + [e]);
      kept' := kept + [e];
    }
  }

  lemma {:induction false} SplitAtSend(history: seq<Handled>, source: Hash -> nat, destination: Hash -> nat, hash: Hash)
    returns (lost: seq<Event>, kept: seq<Event>)
    requires TwoChains(history, source, destination) && source(hash) != destination(hash)
    requires |With(Stream(history, source(hash)), hash)| <= 1
    ensures SplitsAt(history, source(hash), destination(hash), hash, lost, kept)
  {
    if history == [] {
      lost, kept := [], [];
    } else {
      hide With;
      hide Stream;
      hide Events;
      hide NoneRelayed;
      hide Causal;
      hide SplitsAt;
      var n := |history| - 1;
      var (front, last) := (history[..n], history[n]);
      assert history == front + [last];
      CausalStep(front, last, source(hash), destination(hash), hash);
      assert TwoChains(front, source, destination);
      assert last.event.hash == hash ==>
        last.chain == if last.event.SentEvent? then source(hash) else destination(hash);
      hide TwoChains;
      lost, kept := SplitAtSend(front, source, destination, hash);
      RelayStreamEmptyIff(front, source, destination, hash);
      lost, kept := SplitStep(front, last, source(hash), destination(hash), hash, lost, kept);
    }
  }

  lemma {:induction false} SourceSends(history: seq<Handled>, source: Hash -> nat, destination: Hash -> nat, hash: Hash)
    requires TwoChains(history, source, destination) && source(hash) != destination(hash)
    ensures forall i :: 0 <= i < |With(Stream(history, source(hash)), hash)| ==>
              With(Stream(history, source(hash)), hash)[i].SentEvent?
  {
    if history != [] {
      var n := |history| - 1;
      SourceSends(history[..n], source, destination, hash);
      assert history == history[..n] + [history[n]];
      CausalStep(history[..n], history[n], source(hash), destination(hash), hash);
    }
  }

  // The message is sent at most once, and its relays and failures are different transactions.
  predicate SentOnce(history: seq<Handled>, source: Hash -> nat, destination: Hash -> nat, hash: Hash) {
    && |With(Stream(history, source(hash)), hash)| <= 1
    && DistinctTxs(With(Stream(history, destination(hash)), hash))
  }

  // A message sent once and relayed on another chain, whose relays and failures are different
  // transactions, is stored as if its send had been handled first exactly when it was handled
  // before all of them.
  lemma CrossChainRecordIff(history: seq<Handled>, source: Hash -> nat, destination: Hash -> nat, hash: Hash)
    requires TwoChains(history, source, destination) && source(hash) != destination(hash)
    requires SentOnce(history, source, destination, hash)
    ensures RecordOf(With(Events(history), hash)) == RecordOf(InOrder(history, source, destination, hash))
            <==> Causal(history, hash)
  {
    hide With;
    hide Stream;
    hide Events;
    hide RecordOf;
    hide Causal;
    hide TwoChains;
    hide Summary;
    SourceSends(history, source, destination, hash);
    var lost, kept := SplitAtSend(history, source, destination, hash);
    var sends := With(Stream(history, source(hash)), hash);
    if sends == [] {
      assert lost + [] + kept == [] + (lost + kept);
    } else {
      var sent := sends[0];
      assert sends == [sent];
      assert [] + [sent] + (lost + kept) == sends + (lost + kept);
      assert NoSend(kept) by {
        forall i | 0 <= i < |kept| ensures !kept[i].SentEvent? {
          assert kept[i] == (lost + kept)[|lost| + i];
        }
      }
      RecordMeaning(lost, sent, kept);
      RecordMeaning([], sent, lost + kept);
      if lost != [] {
        LossShows(sent, lost, kept);
      } else {
        assert lost + kept == kept;
      }
    }
  }

  // A message relayed on its own chain is always stored in the order of its events; any other
  // message, sent once and relayed by different transactions, exactly when its send was handled
  // before all of its relays.
  lemma CausalRecordIff(history: seq<Handled>, source: Hash -> nat, destination: Hash -> nat, hash: Hash)
    requires TwoChains(history, source, destination)
    requires source(hash) != destination(hash) ==> SentOnce(history, source, destination, hash)
    ensures Lookup(Fold(map[], Events(history)), hash) == RecordOf(InOrder(history, source, destination, hash))
            <==> Ordered(history, source, destination, hash)
  {
    FoldByHash(Events(history), hash);
    hide RecordOf;
    hide Causal;
    hide TwoChains;
    hide SentOnce;
    hide InOrder;
    if source(hash) == destination(hash) {
      OrderedSplit(history, source, destination, hash);
    } else {
      CrossChainRecordIff(history, source, destination, hash);
    }
  }

  lemma OrderedIfEqual(a: seq<Handled>, b: seq<Handled>, source: Hash -> nat, destination: Hash -> nat, hash: Hash)
    requires SameStreams(a, b) && Fold(map[], Events(a)) == Fold(map[], Events(b))
    requires TwoChains(a, source, destination) && TwoChains(b, source, destination)
    requires Ordered(a, source, destination, hash)
    requires source(hash) != destination(hash) ==> SentOnce(b, source, destination, hash)
    ensures Ordered(b, source, destination, hash)
  {
    assert Stream(a, source(hash)) == Stream(b, source(hash));
    assert Stream(a, destination(hash)) == Stream(b, destination(hash));
    assert source(hash) != destination(hash) ==> SentOnce(a, source, destination, hash);
    hide *;
    SameOrder(a, b, source, destination, hash);
    CausalRecordIff(a, source, destination, hash);
    CausalRecordIff(b, source, destination, hash);
  }

  // Of the interleavings of the same streams, exactly those that handle every send before its
  // relays on another chain give the store that such an interleaving gives. Messages relayed on
  // another chain are sent once and relayed by different transactions; messages relayed on
  // their own chain are arbitrary.
  lemma CausalStoreIff(a: seq<Handled>, b: seq<Handled>, source: Hash -> nat, destination: Hash -> nat)
    requires SameStreams(a, b)
    requires TwoChains(a, source, destination) && TwoChains(b, source, destination)
    requires AllOrdered(a, source, destination)
    requires forall hash :: source(hash) != destination(hash) ==> SentOnce(b, source, destination, hash)
    ensures Fold(map[], Events(a)) == Fold(map[], Events(b)) <==> AllOrdered(b, source, destination)
  {
    hide SentOnce;
    hide TwoChains;
    hide SameStreams;
    hide Ordered;
    if Fold(map[], Events(a)) == Fold(map[], Events(b)) {
      forall hash ensures Ordered(b, source, destination, hash) {
        assert Ordered(a, source, destination, hash);
        assert source(hash) != destination(hash) ==> SentOnce(b, source, destination, hash);
        OrderedIfEqual(a, b, source, destination, hash);
      }
    } else if AllOrdered(b, source, destination) {
      CausalInterleavings(a, b, source, destination);
    }
  }
}
