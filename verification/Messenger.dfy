// The cross-domain messenger, seen from one contract that lives at the same address on every
// chain: a message is relayed at most once, on the chain it names, and the receiver learns its
// true sender and source.
module Messenger {
  import opened Interop

  // The messenger's predeploy address, from which every relayed call comes.
  const MESSENGER: Address := 0x4200_0000_0000_0000_0000_0000_0000_0000_0000_0023

  datatype Packet<T> = Packet(sender: Address, source: nat, destination: nat, payload: T)

  datatype CallbackError = CallerNotL2ToL2CrossDomainMessenger | InvalidCrossDomainSender

  // All messages to the contract in the order they were sent, and which were relayed.
  datatype Mailbox<T> = Mailbox(sent: seq<Packet<T>>, relayed: set<nat>) {
    predicate Pending(i: nat) {
      i < |sent| && i !in relayed
    }

    function Send(p: Packet<T>): Mailbox<T> {
      this.(sent := sent + [p])
    }

    function Relay(i: nat): Mailbox<T> {
      this.(relayed := relayed + {i})
    }

    // Only messages that exist have been relayed.
    predicate Valid() {
      forall i :: i in relayed ==> i < |sent|
    }
  }
}
