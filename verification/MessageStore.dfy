// The mutable message store and the indexer that feeds it, one locked operation at a time.
module MessageStore {
  import opened Interop
  import opened MessageLifecycle
  import opened Wrappers

  // An entry is handed out by reference; its fields could be written but never are.
  class Entry {
    var message: Message
    var identifier: Option<Identifier>
    var log: Option<Log>
    var lifecycle: Lifecycle

    constructor (message: Message, identifier: Option<Identifier>, log: Option<Log>, lifecycle: Lifecycle)
      ensures Value() == Record(message, identifier, log, lifecycle)
    {
      this.message, this.identifier, this.log, this.lifecycle := message, identifier, log, lifecycle;
    }

    function Value(): Record reads this {
      Record(message, identifier, log, lifecycle)
    }
  }

  class L2ToL2MessageStore {
    var entryByHash: map<Hash, Entry>

    constructor ()
      ensures entryByHash == map[] && Values() == map[]
    {
      entryByHash := map[];
    }

    ghost function Values(): Contents reads this, entryByHash.Values {
      map hash | hash in entryByHash :: entryByHash[hash].Value()
    }

    method Set(msgHash: Hash, entry: Entry)
      modifies this
      ensures entryByHash == old(entryByHash)[msgHash := entry]
      ensures Values() == old(Values())[msgHash := old(entry.Value())]
    {
      entryByHash := entryByHash[msgHash := entry];
    }

    method Get(msgHash: Hash) returns (entry: Option<Entry>)
      ensures entry == if msgHash in entryByHash then Some(entryByHash[msgHash]) else None
      ensures entry.Some? ==> Lookup(Values(), msgHash) == Some(entry.value.Value())
    {
      if msgHash !in entryByHash {
        return None;
      }
      return Some(entryByHash[msgHash]);
    }

    // Only this object is written: entries handed out before keep their fields. The new entry
    // has neither identifier nor log.
    method UpdateLifecycle(msgHash: Hash, updater: Lifecycle -> Option<Lifecycle>) returns (entry: Option<Entry>)
      modifies this
      ensures entry.Some? <==> msgHash in old(entryByHash) && updater(old(entryByHash[msgHash].lifecycle)).Some?
      ensures entry.None? ==> entryByHash == old(entryByHash) && Values() == old(Values())
      ensures entry.Some? ==>
        && fresh(entry.value)
        && entryByHash == old(entryByHash)[msgHash := entry.value]
        && entry.value.Value() == Record(old(entryByHash[msgHash].message), None, None,
                                         updater(old(entryByHash[msgHash].lifecycle)).value)
        && Values() == old(Values())[msgHash := entry.value.Value()]
    {
      if msgHash !in entryByHash {
        return None;
      }
      var current := entryByHash[msgHash];
      var newLifecycle := updater(current.lifecycle);
      if newLifecycle.None? {
        return None;
      }
      var newEntry := new Entry(current.message, None, None, newLifecycle.value);
      entryByHash := entryByHash[msgHash := newEntry];
      return Some(newEntry);
    }
  }

  datatype Header = Header(number: nat, time: nat)

  // ABI decoding, hashing and event selectors are parameters. Chain ids, block times and log
  // indexes stay below 2^63, so that their signed conversions are exact.
  datatype Codec = Codec(
    sentMessage: Hash, relayedMessage: Hash, failedRelayedMessage: Hash,
    decode: (Log, Identifier) -> Option<Message>,
    hash: Message -> Option<Hash>)

  datatype Error = NoHeader | Undecodable | Unhashable | Refused | UnexpectedEvent

  // The topics on which entries are published.
  datatype Key =
    | SentMessageFromSource(chain: nat)
    | SentMessageToDestination(chain: nat)
    | RelayedMessageToDestination(chain: nat)
    | FailedRelayedMessageToDestination(chain: nat)

  function IdentifierOf(chainId: nat, log: Log, header: Header): Identifier {
    Identifier(log.address, header.number, log.index, header.time, chainId)
  }

  // What a log of the messenger says; header is the node's answer for the log's block.
  function Decode(codec: Codec, chainId: nat, log: Log, header: Option<Header>): Result<Event, Error>
    requires |log.topics| == 4
  {
    if log.topics[0] == codec.sentMessage then
      if header.None? then Err(NoHeader)
      else
        var id := IdentifierOf(chainId, log, header.value);
        match codec.decode(log, id)
        case None => Err(Undecodable)
        case Some(message) =>
          match codec.hash(message)
          case None => Err(Unhashable)
          case Some(hash) => Ok(SentEvent(hash, message, id, log))
    else if log.topics[0] == codec.relayedMessage then Ok(RelayedEvent(log.topics[3], log.txHash))
    else if log.topics[0] == codec.failedRelayedMessage then Ok(FailedEvent(log.topics[3], log.txHash))
    else Err(UnexpectedEvent)
  }

  // The topics that hear of an event that took effect, with the new record.
  function Announce(e: Event, r: Record): seq<(Key, Record)> {
    match e
    case SentEvent(_, _, _, _) =>
      [(SentMessageFromSource(r.message.source), r), (SentMessageToDestination(r.message.destination), r)]
    case RelayedEvent(_, _) => [(RelayedMessageToDestination(r.message.destination), r)]
    case FailedEvent(_, _) => [(FailedRelayedMessageToDestination(r.message.destination), r)]
  }

  // What processing one log publishes, given the store before it.
  function Published(codec: Codec, m: Contents, chainId: nat, log: Log, header: Option<Header>): seq<(Key, Record)>
    requires |log.topics| == 4
  {
    match Decode(codec, chainId, log, header)
    case Err(_) => []
    case Ok(e) =>
      match Effect(Lookup(m, e.hash), e)
      case None => []
      case Some(r) => Announce(e, r)
  }

  // ---- What one log leaves, selector by selector ----

  // The store m becomes m', news is published and error is reported.
  datatype Trace = Trace(before: Contents, after: Contents, news: seq<(Key, Record)>, error: Option<Error>)

  predicate Unchanged(t: Trace, error: Error) {
    t.after == t.before && t.news == [] && t.error == Some(error)
  }

  // A stored message that is not relayed yet.
  predicate Open(m: Contents, hash: Hash) {
    hash in m && m[hash].lifecycle.relayedTxHash == NO_HASH
  }

  // A new record holds the message, its place and its log; both chains hear of it.
  predicate SentLogged(codec: Codec, chainId: nat, log: Log, header: Option<Header>, t: Trace) {
    if header.None? then Unchanged(t, NoHeader)
    else
      var h := header.value;
      var id := Identifier(log.address, h.number, log.index, h.time, chainId);
      match codec.decode(log, id)
      case None => Unchanged(t, Undecodable)
      case Some(message) =>
        match codec.hash(message)
        case None => Unchanged(t, Unhashable)
        case Some(hash) =>
          var r := Record(message, Some(id), Some(log), Lifecycle(log.txHash, [], NO_HASH));
          && t.after == t.before[hash := r] && r.lifecycle.Status() == Sent
          && t.news == [(SentMessageFromSource(message.source), r), (SentMessageToDestination(message.destination), r)]
          && t.error == None
  }

  // The relaying transaction is recorded, the failed ones stay as they are, and the destination
  // hears of a relay. A message that is unknown or already relayed is refused.
  predicate RelayLogged(log: Log, t: Trace)
    requires |log.topics| == 4
  {
    var hash := log.topics[3];
    if !Open(t.before, hash) then Unchanged(t, Refused)
    else
      var r := t.before[hash];
      var r' := Record(r.message, None, None,
                       Lifecycle(r.lifecycle.sentTxHash, r.lifecycle.failedTxHashes, log.txHash));
      && t.after == t.before[hash := r'] && (log.txHash != NO_HASH ==> r'.lifecycle.Status() == Relayed)
      && t.news == [(RelayedMessageToDestination(r.message.destination), r')] && t.error == None
  }

  // The failed transaction is appended, the message stays unrelayed, and the destination hears of
  // a failed relay.
  predicate FailureLogged(log: Log, t: Trace)
    requires |log.topics| == 4
  {
    var hash := log.topics[3];
    if !Open(t.before, hash) then Unchanged(t, Refused)
    else
      var r := t.before[hash];
      var r' := Record(r.message, None, None,
                       Lifecycle(r.lifecycle.sentTxHash, r.lifecycle.failedTxHashes + [log.txHash], NO_HASH));
      && t.after == t.before[hash := r'] && r'.lifecycle.Status() == FailedRelay
      && t.news == [(FailedRelayedMessageToDestination(r.message.destination), r')] && t.error == None
  }

  predicate Logged(codec: Codec, chainId: nat, log: Log, header: Option<Header>, t: Trace)
    requires |log.topics| == 4
  {
    && (log.topics[0] == codec.sentMessage ==> SentLogged(codec, chainId, log, header, t))
    && (log.topics[0] == codec.relayedMessage ==> RelayLogged(log, t))
    && (log.topics[0] == codec.failedRelayedMessage ==> FailureLogged(log, t))
    && (log.topics[0] !in {codec.sentMessage, codec.relayedMessage, codec.failedRelayedMessage} ==>
         Unchanged(t, UnexpectedEvent))
  }

  // The three events are told apart by their selectors.
  predicate Separate(codec: Codec) {
    && codec.sentMessage != codec.relayedMessage && codec.sentMessage != codec.failedRelayedMessage
    && codec.relayedMessage != codec.failedRelayedMessage
  }

  // What the specification of one log makes of a store.
  function TraceOf(codec: Codec, m: Contents, chainId: nat, log: Log, header: Option<Header>): Trace
    requires |log.topics| == 4
  {
    var news := Published(codec, m, chainId, log, header);
    match Decode(codec, chainId, log, header)
    case Err(e) => Trace(m, m, news, Some(e))
    case Ok(e) =>
      Trace(m, MessageLifecycle.Apply(m, e), news, if Effect(Lookup(m, e.hash), e).None? then Some(Refused) else None)
  }

  // Every log has the effect of its own selector.
  lemma LoggedByKind(codec: Codec, m: Contents, chainId: nat, log: Log, header: Option<Header>)
    requires |log.topics| == 4 && Separate(codec)
    ensures Logged(codec, chainId, log, header, TraceOf(codec, m, chainId, log, header))
  {
  }

  // A log as a chain's goroutine receives it, with the node's answer for its block.
  datatype Delivery = Delivery(chainId: nat, log: Log, header: Option<Header>)

  predicate WellFormed(history: seq<Delivery>) {
    forall i :: 0 <= i < |history| ==> |history[i].log.topics| == 4
  }

  // The events of a history, without the logs that cannot be used.
  function EventsOf(codec: Codec, history: seq<Delivery>): seq<Handled>
    requires WellFormed(history)
  {
    if history == [] then []
    else
      var n := |history| - 1;
      var d := history[n];
      match Decode(codec, d.chainId, d.log, d.header)
      case Err(_) => EventsOf(codec, history[..n])
      case Ok(e) => EventsOf(codec, history[..n]) + [Handled(d.chainId, e)]
  }

  lemma EventsOfStep(codec: Codec, history: seq<Delivery>, i: nat)
    requires WellFormed(history) && i < |history|
    ensures var d := history[i];
            var m := Fold(map[], Events(EventsOf(codec, history[..i])));
            Fold(map[], Events(EventsOf(codec, history[..i + 1]))) ==
              match Decode(codec, d.chainId, d.log, d.header)
              case Err(_) => m
              case Ok(e) => MessageLifecycle.Apply(m, e)
  {
    hide MessageLifecycle.Apply;
    hide Decode;
    var d := history[i];
    assert history[..i + 1][..i] == history[..i];
    match Decode(codec, d.chainId, d.log, d.header)
    case Err(_) =>
    case Ok(e) =>
      var front := EventsOf(codec, history[..i]);
      assert (front + [Handled(d.chainId, e)])[..|front|] == front;
      assert (Events(front) + [e])[..|Events(front)|] == Events(front);
  }

  lemma NothingYet(codec: Codec)
    ensures Fold(map[], Events(EventsOf(codec, []))) == map[]
  {
  }

  class L2ToL2MessageIndexer {
    const codec: Codec
    const store: L2ToL2MessageStore
    var published: seq<(Key, Record)>

    constructor (codec: Codec)
      ensures this.codec == codec && fresh(store) && store.Values() == map[] && published == []
    {
      this.codec := codec;
      store := new L2ToL2MessageStore();
      published := [];
    }

    method HandleSentEvent(log: Log, identifier: Identifier) returns (entry: Result<Entry, Error>)
      modifies store
      ensures match codec.decode(log, identifier)
              case None => entry == Err(Undecodable) && store.Values() == old(store.Values())
              case Some(message) =>
                match codec.hash(message)
                case None => entry == Err(Unhashable) && store.Values() == old(store.Values())
                case Some(hash) =>
                  var e := SentEvent(hash, message, identifier, log);
                  && entry.Ok? && fresh(entry.value)
                  && Effect(Lookup(old(store.Values()), hash), e) == Some(entry.value.Value())
                  && store.Values() == MessageLifecycle.Apply(old(store.Values()), e)
    {
      var msg := codec.decode(log, identifier);
      if msg.None? { return Err(Undecodable); }
      var msgHash := codec.hash(msg.value);
      if msgHash.None? { return Err(Unhashable); }
      var lifecycle := Lifecycle(log.txHash, [], NO_HASH);
      var newEntry := new Entry(msg.value, Some(identifier), Some(log), lifecycle);
      store.Set(msgHash.value, newEntry);
      return Ok(newEntry);
    }

    method HandleRelayedEvent(log: Log) returns (entry: Option<Entry>)
      requires |log.topics| == 4
      modifies store
      ensures var e := RelayedEvent(log.topics[3], log.txHash);
              && store.Values() == MessageLifecycle.Apply(old(store.Values()), e)
              && match Effect(Lookup(old(store.Values()), e.hash), e)
                 case None => entry.None?
                 case Some(r) => entry.Some? && fresh(entry.value) && entry.value.Value() == r
    {
      entry := store.UpdateLifecycle(log.topics[3],
        (l: Lifecycle) => if l.relayedTxHash != NO_HASH then None else Some(l.WithRelayedTxHash(log.txHash)));
    }

    method HandleFailedRelayedEvent(log: Log) returns (entry: Option<Entry>)
      requires |log.topics| == 4
      modifies store
      ensures var e := FailedEvent(log.topics[3], log.txHash);
              if log.topics[0] != codec.failedRelayedMessage then entry.None? && store.Values() == old(store.Values())
              else
                && store.Values() == MessageLifecycle.Apply(old(store.Values()), e)
                && match Effect(Lookup(old(store.Values()), e.hash), e)
                   case None => entry.None?
                   case Some(r) => entry.Some? && fresh(entry.value) && entry.value.Value() == r
    {
      if log.topics[0] != codec.failedRelayedMessage {
        return None;
      }
      entry := store.UpdateLifecycle(log.topics[3],
        (l: Lifecycle) => if l.relayedTxHash != NO_HASH then None else Some(l.WithFailedTxHash(log.txHash)));
    }

    // One log: at most one record changes, and exactly the effective events are published. Only
    // the store and the list of publications are written, no entry that exists already.
    method ProcessEventLog(chainId: nat, log: Log, header: Option<Header>) returns (error: Option<Error>)
      requires |log.topics| == 4
      modifies this, store
      ensures published == old(published) + Published(codec, old(store.Values()), chainId, log, header)
      ensures match Decode(codec, chainId, log, header)
              case Err(e) => error == Some(e) && store.Values() == old(store.Values())
              case Ok(event) =>
                && store.Values() == MessageLifecycle.Apply(old(store.Values()), event)
                && error == if Effect(Lookup(old(store.Values()), event.hash), event).None? then Some(Refused) else None
      ensures old(published) <= published
      ensures Separate(codec) ==>
        Logged(codec, chainId, log, header,
               Trace(old(store.Values()), store.Values(), published[|old(published)|..], error))
    {
      hide Logged;
      if Separate(codec) {
        LoggedByKind(codec, store.Values(), chainId, log, header);
      }
      if log.topics[0] == codec.sentMessage {
        if header.None? {
          return Some(NoHeader);
        }
        var entry := HandleSentEvent(log, IdentifierOf(chainId, log, header.value));
        if entry.Err? {
          return Some(entry.error);
        }
        Publish(SentMessageFromSource(entry.value.message.source), entry.value);
        Publish(SentMessageToDestination(entry.value.message.destination), entry.value);
      } else if log.topics[0] == codec.relayedMessage {
        var entry := HandleRelayedEvent(log);
        if entry.None? {
          return Some(Refused);
        }
        Publish(RelayedMessageToDestination(entry.value.message.destination), entry.value);
      } else if log.topics[0] == codec.failedRelayedMessage {
        var entry := HandleFailedRelayedEvent(log);
        if entry.None? {
          return Some(Refused);
        }
        Publish(FailedRelayedMessageToDestination(entry.value.message.destination), entry.value);
      } else {
        return Some(UnexpectedEvent);
      }
      return None;
    }

    // The goroutines' loops: under the lock their logs are processed one after another, in some
    // interleaving. A log that fails is reported and skipped.
    method ConsumeLogs(history: seq<Delivery>)
      requires WellFormed(history) && store.Values() == map[]
      modifies this, store
      ensures store.Values() == Fold(map[], Events(EventsOf(codec, history)))
    {
      hide Decode;
      hide EventsOf;
      hide Effect;
      assert history[..0] == [];
      NothingYet(codec);
      for i := 0 to |history|
        invariant store.Values() == Fold(map[], Events(EventsOf(codec, history[..i])))
      {
        EventsOfStep(codec, history, i);
        var error := ProcessEventLog(history[i].chainId, history[i].log, history[i].header);
      }
      assert history[..|history|] == history;
    }

    method Publish(key: Key, entry: Entry)
      modifies this
      ensures published == old(published) + [(key, entry.Value())]
    {
      published := published + [(key, entry.Value())];
    }
  }
}
