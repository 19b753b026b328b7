// CrossChainPingPong: one ball, handed from chain to chain by messages.
module PingPong {
  import opened Interop
  import opened Messenger
  import opened Wrappers

  datatype Ball = Ball(rallyCount: nat, lastHitterChainId: nat, lastHitterAddress: Address) {
    predicate Present() { lastHitterAddress != ZERO }
  }

  const NO_BALL := Ball(0, 0, ZERO)

  datatype Event =
    | BallSent(fromChainId: nat, toChainId: nat, ball: Ball)
    | BallReceived(fromChainId: nat, toChainId: nat, ball: Ball)

  datatype Error = BallNotPresent | InvalidDestination | Panic | Callback(error: CallbackError)

  // ---- The contract's calls as functions of the stored ball ----

  function Deployed(chain: nat, server: nat, sender: Address): Ball {
    if chain == server then Ball(1, chain, sender) else NO_BALL
  }

  // On success: the ball that is sent away.
  function HitCall(chain: nat, ball: Ball, sender: Address, to: nat): Result<Ball, Error> {
    if !ball.Present() then Err(BallNotPresent)
    else if to == chain then Err(InvalidDestination)
    else if ball.rallyCount == UINT256_MAX then Err(Panic)
    else Ok(Ball(ball.rallyCount + 1, chain, sender))
  }

  // With which error a hit reverts, and the ball it sends otherwise.
  lemma HitReverts(chain: nat, ball: Ball, sender: Address, to: nat)
    ensures var r := HitCall(chain, ball, sender, to);
            var here := ball.lastHitterAddress != ZERO;
            && (r == Err(BallNotPresent) <==> !here)
            && (r == Err(InvalidDestination) <==> here && to == chain)
            && (r == Err(Panic) <==> here && to != chain && ball.rallyCount == UINT256_MAX)
            && (r.Ok? ==> r.value == Ball(ball.rallyCount + 1, chain, sender))
  {
  }

  // self is the contract's address; caller and domainSender are what the messenger reports.
  function ReceiveFault(self: Address, caller: Address, domainSender: Address): Option<Error> {
    if caller != MESSENGER then Some(Callback(CallerNotL2ToL2CrossDomainMessenger))
    else if domainSender != self then Some(Callback(InvalidCrossDomainSender))
    else None
  }

  class CrossChainPingPong {
    const self: Address
    const chain: nat
    var ball: Ball
    var logs: seq<Event>
    var outbox: seq<Packet<Ball>>

    constructor (self: Address, chain: nat, server: nat, sender: Address)
      ensures this.self == self && this.chain == chain
      ensures ball == Deployed(chain, server, sender) && logs == [] && outbox == []
    {
      this.self, this.chain := self, chain;
      logs, outbox := [], [];
      if chain == server {
        ball := Ball(1, chain, sender);
      } else {
        ball := NO_BALL;
      }
    }

    // A hit empties the slot and hands the messenger a ball with one more hit, by this player.
    method HitBallTo(sender: Address, to: nat) returns (error: Option<Error>)
      modifies this
      ensures match HitCall(chain, old(ball), sender, to)
              case Err(e) => error == Some(e) && ball == old(ball) && logs == old(logs) && outbox == old(outbox)
              case Ok(hit) =>
                && error.None? && ball == NO_BALL && !ball.Present()
                && logs == old(logs) + [BallSent(chain, to, hit)]
                && outbox == old(outbox) + [Packet(self, chain, to, hit)]
    {
      if ball.lastHitterAddress == ZERO { return Some(BallNotPresent); }
      if to == chain { return Some(InvalidDestination); }
      if ball.rallyCount == UINT256_MAX { return Some(Panic); }
      var newBall := Ball(ball.rallyCount + 1, chain, sender);
      ball := NO_BALL;
      outbox := outbox + [Packet(self, chain, to, newBall)];
      logs := logs + [BallSent(chain, to, newBall)];
      return None;
    }

    method ReceiveBall(caller: Address, domainSender: Address, domainSource: nat, newBall: Ball)
      returns (error: Option<Error>)
      modifies this
      ensures error == ReceiveFault(self, caller, domainSender) && outbox == old(outbox)
      ensures error == Some(Callback(CallerNotL2ToL2CrossDomainMessenger)) <==> caller != MESSENGER
      ensures error == Some(Callback(InvalidCrossDomainSender)) <==> caller == MESSENGER && domainSender != self
      ensures error.Some? ==> ball == old(ball) && logs == old(logs)
      ensures error.None? ==> ball == newBall && logs == old(logs) + [BallReceived(domainSource, chain, newBall)]
    {
      if caller != MESSENGER { return Some(Callback(CallerNotL2ToL2CrossDomainMessenger)); }
      if domainSender != self { return Some(Callback(InvalidCrossDomainSender)); }
      ball := newBall;
      logs := logs + [BallReceived(domainSource, chain, newBall)];
      return None;
    }
  }

  // ---- All chains together ----

  // The address that CREATE2 gives the contract for one server chain; only its difference from
  // other addresses matters.
  const SELF: Address := 0x914e_d38a_7c1d_4dc1_6f1e_d7f3_9bc9_8e3c_7f7c_3d11

  // The balls stored on the chains with a deployment, the messages, and the events in global order.
  datatype World = World(server: nat, balls: map<nat, Ball>, mail: Mailbox<Ball>, events: seq<Event>)

  function Fresh(server: nat): World {
    World(server, map[], Mailbox([], {}), [])
  }

  datatype Step =
    | Deploy(chain: nat, sender: Address)
    | Hit(chain: nat, sender: Address, to: nat)
    | Relay(index: nat)                             // anyone has the messenger relay a message
    | Foreign(packet: Packet<Ball>)                 // another contract addresses a message to receiveBall
    | Direct(chain: nat, caller: Address, ball: Ball) // someone calls receiveBall directly

  // A message can be relayed once, where the contract exists.
  predicate CanRelay(w: World, i: nat) {
    w.mail.Pending(i) && w.mail.sent[i].destination in w.balls
  }

  // A step that reverts, or that nobody can take, changes nothing. No account has the zero
  // address, and only the messenger calls from the messenger's address.
  function Apply(w: World, step: Step): World {
    match step
    case Deploy(chain, sender) =>
      if chain in w.balls || sender == ZERO then w
      else w.(balls := w.balls[chain := Deployed(chain, w.server, sender)])
    case Hit(chain, sender, to) =>
      if chain !in w.balls || sender == ZERO then w
      else (match HitCall(chain, w.balls[chain], sender, to)
            case Err(_) => w
            case Ok(hit) =>
              w.(balls := w.balls[chain := NO_BALL],
                 mail := w.mail.Send(Packet(SELF, chain, to, hit)),
                 events := w.events + [BallSent(chain, to, hit)]))
    case Relay(i) =>
      if !CanRelay(w, i) then w
      else
        var p := w.mail.sent[i];
        if ReceiveFault(SELF, MESSENGER, p.sender).Some? then w
        else w.(balls := w.balls[p.destination := p.payload],
                mail := w.mail.Relay(i),
                events := w.events + [BallReceived(p.source, p.destination, p.payload)])
    case Foreign(packet) =>
      if packet.sender == SELF then w else w.(mail := w.mail.Send(packet))
    case Direct(chain, caller, ball) =>
      if chain !in w.balls || caller == MESSENGER || ReceiveFault(SELF, caller, ZERO).Some? then w
      else w.(balls := w.balls[chain := ball])
  }

  function Run(w: World, steps: seq<Step>): World {
    if steps == [] then w else Apply(Run(w, steps[..|steps| - 1]), steps[|steps| - 1])
  }

  // ---- Where a ball can be ----

  datatype Place = OnChain(chain: nat) | InFlight(index: nat)

  // A ball lies in a chain's storage, or in a message of the game that is not yet relayed.
  predicate BallAt(w: World, p: Place) {
    match p
    case OnChain(c) => c in w.balls && w.balls[c].Present()
    case InFlight(i) => w.mail.Pending(i) && w.mail.sent[i].sender == SELF
  }

  function TheBall(w: World, p: Place): Ball
    requires BallAt(w, p)
  {
    match p case OnChain(c) => w.balls[c] case InFlight(i) => w.mail.sent[i].payload
  }

  ghost predicate OnlyBallAt(w: World, p: Place) {
    BallAt(w, p) && forall q :: BallAt(w, q) ==> q == p
  }

  function Hits(events: seq<Event>): nat {
    if events == [] then 0
    else Hits(events[..|events| - 1]) + if events[|events| - 1].BallSent? then 1 else 0
  }

  // The chain from which the ball is hit next, after the events.
  function Standing(server: nat, events: seq<Event>): nat {
    if events == [] then server else events[|events| - 1].toChainId
  }

  // A rally: sends and receptions take turns; each send is from the chain that last received,
  // by a new hitter with one more hit; each reception is of what was just sent.
  predicate Rally(server: nat, events: seq<Event>) {
    events == [] ||
    var front := events[..|events| - 1];
    && Rally(server, front)
    && match events[|events| - 1]
       case BallSent(from, to, ball) =>
         && (front != [] ==> front[|front| - 1].BallReceived?)
         && from == Standing(server, front) && to != from
         && ball.rallyCount == Hits(front) + 2
         && ball.lastHitterChainId == from && ball.lastHitterAddress != ZERO
       case BallReceived(from, to, ball) =>
         front != [] && front[|front| - 1] == BallSent(from, to, ball)
  }

  // The only ball is where the last event left it.
  predicate LiesAt(w: World, p: Place) {
    && BallAt(w, p)
    && TheBall(w, p).lastHitterAddress != ZERO
    && TheBall(w, p).rallyCount == 1 + Hits(w.events) <= UINT256_MAX
    && if w.events == [] then p == OnChain(w.server) && TheBall(w, p).lastHitterChainId == w.server
       else
         var last := w.events[|w.events| - 1];
         && last.ball == TheBall(w, p)
         && match last
            case BallSent(from, to, ball) => p.InFlight? && w.mail.sent[p.index] == Packet(SELF, from, to, ball)
            case BallReceived(_, to, ball) => p == OnChain(to)
  }

  ghost predicate Inv(w: World) {
    && w.mail.Valid()
    && Rally(w.server, w.events)
    && if w.server in w.balls then exists p :: OnlyBallAt(w, p) && LiesAt(w, p)
       else w.events == [] && forall q :: !BallAt(w, q)
  }

  lemma ExtendRally(server: nat, events: seq<Event>, e: Event)
    ensures Hits(events + [e]) == Hits(events) + if e.BallSent? then 1 else 0
    ensures (events + [e])[..|events|] == events
    ensures Standing(server, events + [e]) == e.toChainId
  {
    assert (events + [e])[..|events|] == events;
  }

  lemma HitKeeps(w: World, step: Step)
    requires Inv(w) && step.Hit?
    ensures Inv(Apply(w, step))
  {
    var w' := Apply(w, step);
    if w' != w {
      var hit := HitCall(step.chain, w.balls[step.chain], step.sender, step.to).value;
      assert BallAt(w, OnChain(step.chain));
      var p :| OnlyBallAt(w, p) && LiesAt(w, p);
      var e := BallSent(step.chain, step.to, hit);
      ExtendRally(w.server, w.events, e);
      var q := InFlight(|w.mail.sent|);
      forall r | BallAt(w', r) ensures r == q {
        if r != q {
          assert BallAt(w, r);
        }
      }
      assert OnlyBallAt(w', q) && LiesAt(w', q);
    }
  }

  lemma RelayKeeps(w: World, step: Step)
    requires Inv(w) && step.Relay?
    ensures Inv(Apply(w, step))
  {
    var w' := Apply(w, step);
    if w' != w {
      var packet := w.mail.sent[step.index];
      assert BallAt(w, InFlight(step.index));
      var p :| OnlyBallAt(w, p) && LiesAt(w, p);
      var e := BallReceived(packet.source, packet.destination, packet.payload);
      ExtendRally(w.server, w.events, e);
      var q := OnChain(packet.destination);
      forall r | BallAt(w', r) ensures r == q {
        if r != q {
          assert BallAt(w, r);
        }
      }
      assert OnlyBallAt(w', q) && LiesAt(w', q);
    }
  }

  lemma DeployKeeps(w: World, step: Step)
    requires Inv(w) && step.Deploy?
    ensures Inv(Apply(w, step))
  {
    var w' := Apply(w, step);
    if w' != w {
      if step.chain == w.server {
        var q := OnChain(w.server);
        forall r | BallAt(w', r) ensures r == q {
          if r != q {
            assert BallAt(w, r);
          }
        }
        assert OnlyBallAt(w', q) && LiesAt(w', q);
      } else {
        SameBalls(w, w');
      }
    }
  }

  // Nothing the ball depends on has changed.
  lemma SameBalls(w: World, w': World)
    requires Inv(w) && w'.mail.Valid() && w'.server == w.server && w'.events == w.events
    requires w.server in w'.balls <==> w.server in w.balls
    requires forall p :: BallAt(w', p) <==> BallAt(w, p)
    requires forall p :: BallAt(w, p) ==> TheBall(w', p) == TheBall(w, p)
    requires forall i :: 0 <= i < |w.mail.sent| ==> i < |w'.mail.sent| && w'.mail.sent[i] == w.mail.sent[i]
    ensures Inv(w')
  {
    if w.server in w.balls {
      var p :| OnlyBallAt(w, p) && LiesAt(w, p);
      assert OnlyBallAt(w', p) && LiesAt(w', p);
    }
  }

  lemma InvStep(w: World, step: Step)
    requires Inv(w)
    ensures Inv(Apply(w, step))
  {
    match step
    case Deploy(_, _) => DeployKeeps(w, step);
    case Hit(_, _, _) => HitKeeps(w, step);
    case Relay(_) => RelayKeeps(w, step);
    case Foreign(_) => SameBalls(w, Apply(w, step));
    case Direct(_, _, _) =>
  }

  lemma {:induction false} RunInv(server: nat, steps: seq<Step>)
    ensures Inv(Run(Fresh(server), steps)) && Run(Fresh(server), steps).server == server
  {
    if steps != [] {
      RunInv(server, steps[..|steps| - 1]);
      InvStep(Run(Fresh(server), steps[..|steps| - 1]), steps[|steps| - 1]);
    }
  }

  // ---- Main results ----

  // In every run: no ball before the server deployment, exactly one ever after, and its rally
  // count is one more than the number of hits.
  lemma SingleBall(server: nat, steps: seq<Step>)
    ensures var w := Run(Fresh(server), steps);
            if server in w.balls then
              exists p :: OnlyBallAt(w, p) && TheBall(w, p).rallyCount == 1 + Hits(w.events) <= UINT256_MAX
            else
              forall p :: !BallAt(w, p)
  {
    RunInv(server, steps);
    var w := Run(Fresh(server), steps);
    if server in w.balls {
      var p :| OnlyBallAt(w, p) && LiesAt(w, p);
      assert OnlyBallAt(w, p) && TheBall(w, p).rallyCount == 1 + Hits(w.events) <= UINT256_MAX;
    }
  }

  lemma ServedStep(w: World, step: Step, sender: Address)
    requires w.server in w.balls && (w.events == [] ==> w.balls[w.server] == Ball(1, w.server, sender))
    ensures var w' := Apply(w, step);
            && w'.server == w.server && w.server in w'.balls && w.events <= w'.events
            && (w'.events == [] ==> w'.balls[w.server] == Ball(1, w.server, sender))
  {
  }

  lemma {:induction false} ServedStays(w: World, steps: seq<Step>, sender: Address)
    requires w.server in w.balls && (w.events == [] ==> w.balls[w.server] == Ball(1, w.server, sender))
    ensures var w' := Run(w, steps);
            && w'.server == w.server && w.server in w'.balls
            && (w'.events == [] ==> w'.balls[w.server] == Ball(1, w.server, sender))
  {
    hide Apply;
    if steps != [] {
      ServedStays(w, steps[..|steps| - 1], sender);
      ServedStep(Run(w, steps[..|steps| - 1]), steps[|steps| - 1], sender);
    }
  }

  // The first ball: whoever deploys on the server chain serves it there, with one hit, and until
  // it is hit for the first time it stays as it was served, whatever else happens.
  lemma FirstBall(server: nat, before: seq<Step>, sender: Address, later: seq<Step>)
    requires server !in Run(Fresh(server), before).balls && sender != ZERO
    ensures var w := Run(Apply(Run(Fresh(server), before), Deploy(server, sender)), later);
            server in w.balls && (w.events == [] ==> w.balls[server] == Ball(1, server, sender))
  {
    RunInv(server, before);
    ServedStays(Apply(Run(Fresh(server), before), Deploy(server, sender)), later, sender);
  }

  // The events of all chains in global order are one rally.
  lemma EventsAreARally(server: nat, steps: seq<Step>)
    ensures Rally(server, Run(Fresh(server), steps).events)
  {
    RunInv(server, steps);
  }

  // A reception never overwrites a ball: whatever message is relayed, the destination is empty.
  lemma ReceiveNeverOverwrites(server: nat, steps: seq<Step>, i: nat)
    requires var w := Run(Fresh(server), steps); CanRelay(w, i) && w.mail.sent[i].sender == SELF
    ensures var w := Run(Fresh(server), steps);
            && !w.balls[w.mail.sent[i].destination].Present()
            && Apply(w, Relay(i)).balls[w.mail.sent[i].destination] == w.mail.sent[i].payload
            && w.mail.sent[i].payload.Present()
  {
    RunInv(server, steps);
    var w := Run(Fresh(server), steps);
    assert BallAt(w, InFlight(i));
    var p :| OnlyBallAt(w, p) && LiesAt(w, p);
    assert !BallAt(w, OnChain(w.mail.sent[i].destination));
  }

  // The k-th ball sent carries rally count k + 2 counting from 0, whoever plays.
  lemma {:induction false} RallyCounts(server: nat, events: seq<Event>, k: nat)
    requires Rally(server, events) && k < |events|
    ensures events[k].BallSent? <==> k % 2 == 0
    ensures Hits(events) == (|events| + 1) / 2
    ensures events[k].ball.rallyCount == k / 2 + 2
  {
    var n := |events| - 1;
    if n > 0 {
      RallyCounts(server, events[..n], if k < n then k else n - 1);
      RallyCounts(server, events[..n], n - 1);
    }
  }

  // A hit and the relay of its message, on a world where the ball lies on chain c.
  lemma HitThenRelay(w: World, c: nat, sender: Address, to: nat)
    requires w.mail.Valid() && sender != ZERO && to != c && to in w.balls
    requires BallAt(w, OnChain(c)) && w.balls[c].rallyCount < UINT256_MAX
    ensures var u := Apply(Apply(w, Hit(c, sender, to)), Relay(|w.mail.sent|));
            to in u.balls && u.balls[to] == Ball(w.balls[c].rallyCount + 1, c, sender)
  {
  }

  // Whoever is on the ball's chain can always hit it on, until the counter is full; and a hit
  // to a chain with the contract can be received.
  lemma BallCanMove(server: nat, steps: seq<Step>, c: nat, sender: Address, to: nat)
    requires sender != ZERO
    requires var w := Run(Fresh(server), steps);
             BallAt(w, OnChain(c)) && to != c && to in w.balls && 1 + Hits(w.events) < UINT256_MAX
    ensures var w := Run(Fresh(server), steps);
            var u := Apply(Apply(w, Hit(c, sender, to)), Relay(|w.mail.sent|));
            OnlyBallAt(u, OnChain(to)) && u.balls[to] == Ball(2 + Hits(w.events), c, sender)
  {
    hide Run;
    hide Apply;
    hide Rally;
    hide Hits;
    RunInv(server, steps);
    var w := Run(Fresh(server), steps);
    var p :| OnlyBallAt(w, p) && LiesAt(w, p);
    HitThenRelay(w, c, sender, to);
    var v := Apply(w, Hit(c, sender, to));
    InvStep(w, Hit(c, sender, to));
    var u := Apply(v, Relay(|w.mail.sent|));
    InvStep(v, Relay(|w.mail.sent|));
    assert BallAt(u, OnChain(to));
  }
}
