// The gate, given the chains on which TicTacToe runs as its peers, enforces exactly the
// admission that the protocol relies on.
module AdmissionLink {
  import opened Interop
  import CallTree
  import Gates = AdmissionGate
  import TicTacToeContract
  import Worlds = TicTacToeWorld

  type Event = TicTacToeContract.Event

  // How an event is laid out in topics and data; the address of the log is set apart.
  type Layout = Event -> CallTree.Log

  function PayloadHash(gate: Gates.Gate, layout: Layout, event: Event): CallTree.Word {
    (gate.keccak)(Gates.Payload(layout(event)))
  }

  // The presented data collides with no other event in the logs.
  ghost predicate NoCollision(gate: Gates.Gate, layout: Layout, logs: seq<Worlds.Entry>, data: Event) {
    forall i :: 0 <= i < |logs| && PayloadHash(gate, layout, logs[i].event) == PayloadHash(gate, layout, data) ==>
      logs[i].event == data
  }

  function PlacedOf(layout: Layout, e: Worlds.Entry): Gates.Placed {
    Gates.Placed(e.block, e.index, layout(e.event).(address := e.origin))
  }

  function PlacedLogs(layout: Layout, logs: seq<Worlds.Entry>): (r: seq<Gates.Placed>)
    ensures |r| == |logs|
    ensures forall i :: 0 <= i < |logs| ==> r[i] == PlacedOf(layout, logs[i])
  {
    if logs == [] then [] else PlacedLogs(layout, logs[..|logs| - 1]) + [PlacedOf(layout, logs[|logs| - 1])]
  }

  // The peer's node knows every sealed block, and answers.
  predicate Serves(peer: Gates.Peer, layout: Layout, c: Worlds.Chain) {
    && peer.times == c.times
    && peer.logs == PlacedLogs(layout, c.logs)
    && peer.filterAnswers
  }

  // The gate's peers are the chains of the world, and it imposes no delay.
  predicate Watches(gate: Gates.Gate, layout: Layout, w: Worlds.World) {
    && gate.delay == 0
    && (forall c :: c in gate.peers ==> c in w)
    && (forall c :: c in w ==> c in gate.peers && Serves(gate.peers[c], layout, w[c]))
  }

  // At most one log lies at a place.
  lemma PlacesDiffer(c: Worlds.Chain, i: nat, j: nat)
    requires c.Shaped() && i < |c.logs| && j < |c.logs| && i != j
    ensures c.logs[i].block != c.logs[j].block || c.logs[i].index != c.logs[j].index
  {
    if i < j {
      assert c.logs[i].block < c.logs[j].block
          || (c.logs[i].block == c.logs[j].block && c.logs[i].index < c.logs[j].index);
    } else {
      assert c.logs[j].block < c.logs[i].block
          || (c.logs[j].block == c.logs[i].block && c.logs[j].index < c.logs[i].index);
    }
  }

  lemma SoleEntry(c: Worlds.Chain, layout: Layout, id: Identifier, i: nat)
    requires c.Shaped() && i < |c.logs|
    requires c.logs[i].block == id.blockNumber && c.logs[i].index == id.logIndex && c.logs[i].origin == id.origin
    ensures Gates.Sole(PlacedLogs(layout, c.logs), id, i)
  {
    forall j | 0 <= j < |c.logs| && j != i
      ensures !Gates.AtPlace(PlacedLogs(layout, c.logs)[j], id)
    {
      PlacesDiffer(c, i, j);
    }
  }

  lemma PayloadIgnoresAddress(log: CallTree.Log, address: Address)
    ensures Gates.Payload(log.(address := address)) == Gates.Payload(log)
  {
  }

  // On one chain: the gate finds the initiating message exactly when some log carries the data.
  lemma InitiatedIff(gate: Gates.Gate, layout: Layout, c: Worlds.Chain, peer: Gates.Peer, id: Identifier, data: Event)
    requires c.Shaped() && NoCollision(gate, layout, c.logs, data) && Serves(peer, layout, c)
    ensures Gates.Initiated(gate, peer, Gates.ExecutingMessage(PayloadHash(gate, layout, data), id)) <==>
            id.blockNumber < |c.times| && id.timestamp == c.times[id.blockNumber] &&
            exists i :: 0 <= i < |c.logs| && Worlds.At(c.logs[i], id, data)
  {
    var m := Gates.ExecutingMessage(PayloadHash(gate, layout, data), id);
    if i :| 0 <= i < |c.logs| && Worlds.At(c.logs[i], id, data) {
      SoleEntry(c, layout, id, i);
      Gates.SoleIsFound(peer.logs, id, i);
      PayloadIgnoresAddress(layout(data), c.logs[i].origin);
    } else if Gates.Initiated(gate, peer, m) {
      var i := Gates.FoundIsSole(peer.logs, id);
      Gates.SoleIsFound(peer.logs, id, i);
      PayloadIgnoresAddress(layout(c.logs[i].event), c.logs[i].origin);
      assert PayloadHash(gate, layout, c.logs[i].event) == PayloadHash(gate, layout, data);
      assert Worlds.At(c.logs[i], id, data);
    }
  }

  // For the executing message that the contract emits for (id, data), the gate admits exactly
  // what the protocol model admits, for every chain id below 2^64; and the interop rule holds in
  // a block of the given time exactly when, moreover, that block is not the earlier one.
  lemma GateIsAdmission(gate: Gates.Gate, layout: Layout, w: Worlds.World, id: Identifier, data: Event, time: nat)
    requires Watches(gate, layout, w)
    requires forall c :: c in w ==> w[c].Shaped() && NoCollision(gate, layout, w[c].logs, data)
    ensures var m := Gates.ExecutingMessage(PayloadHash(gate, layout, data), id);
            && (id.chainId < TWO64 ==> (Gates.Holds(gate, m) <==> Worlds.Admitted(w, id, data)))
            && (Gates.Rule(gate, m, time) <==> Worlds.Admitted(w, id, data) && id.timestamp <= time)
  {
    hide Gates.Rule;
    hide Gates.Initiated;
    var m := Gates.ExecutingMessage(PayloadHash(gate, layout, data), id);
    if id.chainId < TWO64 {
      assert id.chainId % TWO64 == id.chainId;
    }
    Gates.HoldsIffRule(gate, m, time);
    RuleOrdered(gate, m, time);
    if id.chainId in w {
      InitiatedIff(gate, layout, w[id.chainId], gate.peers[id.chainId], id, data);
    }
  }

  lemma RuleOrdered(gate: Gates.Gate, m: Gates.ExecutingMessage, time: nat)
    ensures Gates.Rule(gate, m, time) ==> m.id.timestamp <= time && m.id.chainId in gate.peers
  {
  }
}
