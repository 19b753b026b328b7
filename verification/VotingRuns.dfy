// The voting contract on any number of chains, under arbitrary callers and any interleaving
// of messages.
module VotingRuns {
  import opened Interop
  import opened Messenger
  import opened Voting
  import opened Wrappers

  // The address of the contract; only its difference from other addresses matters.
  const SELF: Address := 0x0fd4_b1f0_1ae5_a0d0_9e3f_72a1_2b43_1c1f_5e1a_77c2

  // A castVote call: the chain it was made on, and the vote of its caller.
  datatype Cast = Cast(chain: nat, vote: Vote)

  // now is the block time of the governance chain. casts records every castVote call that did
  // not revert, counted the calls whose votes were tallied.
  datatype World = World(gov: nat, now: nat, chains: map<nat, Storage>, mail: Mailbox<Vote>,
                         casts: set<Cast>, counted: seq<Cast>)

  function Fresh(gov: nat, now: nat): World {
    World(gov, now, map[], Mailbox([], {}), {}, [])
  }

  datatype Step =
    | Deploy(chain: nat)
    | Create(chain: nat, description: string, period: nat)
    | CastVote(chain: nat, sender: Address, proposalId: nat, support: bool)
    | Relay(index: nat)                             // anyone has the messenger relay a message
    | Foreign(packet: Packet<Vote>)                 // another contract addresses a message to receiveVote
    | Direct(chain: nat, caller: Address, vote: Vote) // someone calls receiveVote directly
    | Tick(time: nat)                               // time passes on the governance chain

  function Tally(w: World, vote: Vote, source: nat): World
    requires w.gov in w.chains
  {
    match VoteCall(w.now, w.chains[w.gov], vote, source)
    case Err(_) => w
    case Ok(s) => w.(chains := w.chains[w.gov := s], counted := w.counted + [Cast(source, vote)])
  }

  function Noted(w: World, e: Cast): World {
    w.(casts := w.casts + {e})
  }

  function Apply(w: World, step: Step): World {
    match step
    case Deploy(chain) => if chain in w.chains then w else w.(chains := w.chains[chain := EMPTY])
    case Create(chain, description, period) =>
      if chain !in w.chains then w
      else (match CreateCall(chain == w.gov, w.now, w.chains[chain], description, period)
            case Err(_) => w
            case Ok(s) => w.(chains := w.chains[chain := s]))
    case CastVote(chain, sender, proposalId, support) =>
      var vote := Vote(proposalId, sender, support);
      if chain !in w.chains then w
      else if chain != w.gov then Noted(w, Cast(chain, vote)).(mail := w.mail.Send(Packet(SELF, chain, w.gov, vote)))
      else if VoteCall(w.now, w.chains[w.gov], vote, chain).Err? then w
      else Tally(Noted(w, Cast(chain, vote)), vote, chain)
    case Relay(i) =>
      if !w.mail.Pending(i) || w.mail.sent[i].destination !in w.chains then w
      else
        var p := w.mail.sent[i];
        if ReceiveFault(SELF, p.destination == w.gov, MESSENGER, p.sender).Some? then w
        else if VoteCall(w.now, w.chains[w.gov], p.payload, p.source).Err? then w
        else Tally(w, p.payload, p.source).(mail := w.mail.Relay(i))
    case Foreign(packet) =>
      if packet.sender == SELF then w else w.(mail := w.mail.Send(packet))
    case Direct(chain, caller, vote) =>
      if chain !in w.chains || caller == MESSENGER || ReceiveFault(SELF, chain == w.gov, caller, ZERO).Some? then w
      else Tally(w, vote, chain)
    case Tick(time) => if time < w.now then w else w.(now := time)
  }

  function Run(w: World, steps: seq<Step>): World {
    if steps == [] then w else Apply(Run(w, steps[..|steps| - 1]), steps[|steps| - 1])
  }

  // ---- The ledger of counted votes ----

  predicate For(e: Cast, id: nat, chain: nat, support: bool) {
    e.vote.proposalId == id && e.chain == chain && e.vote.support == support
  }

  function Count(counted: seq<Cast>, id: nat, chain: nat, support: bool): nat {
    if counted == [] then 0
    else
      var n := |counted| - 1;
      Count(counted[..n], id, chain, support) + if For(counted[n], id, chain, support) then 1 else 0
  }

  function Voters(counted: seq<Cast>, id: nat): set<Address> {
    if counted == [] then {}
    else
      var n := |counted| - 1;
      Voters(counted[..n], id) + if counted[n].vote.proposalId == id then {counted[n].vote.voter} else {}
  }

  // Nobody is counted twice on a proposal.
  predicate OnceEach(counted: seq<Cast>) {
    counted == [] ||
    var n := |counted| - 1;
    OnceEach(counted[..n]) && counted[n].vote.voter !in Voters(counted[..n], counted[n].vote.proposalId)
  }

  // The stored proposal says what the ledger says.
  ghost predicate Reflects(p: Proposal, counted: seq<Cast>, id: nat) {
    && p.hasVoted == Voters(counted, id)
    && forall c, side :: p.VotesOf(c).Share(side) == Count(counted, id, c, side)
  }

  ghost predicate LedgerOk(s: Storage, counted: seq<Cast>) {
    Conserved(s) && forall id :: Reflects(s.At(id), counted, id)
  }

  ghost predicate Inv(w: World) {
    && (forall i :: 0 <= i < |w.mail.sent| && w.mail.sent[i].sender == SELF ==>
         Cast(w.mail.sent[i].source, w.mail.sent[i].payload) in w.casts)
    && (forall c :: c in w.chains && c != w.gov ==> w.chains[c] == EMPTY)
    && (forall e :: e in w.counted ==> e in w.casts)
    && OnceEach(w.counted)
    && if w.gov in w.chains then LedgerOk(w.chains[w.gov], w.counted) else w.counted == []
  }

  lemma AppendCounted(counted: seq<Cast>, e: Cast)
    ensures forall id ::
      Voters(counted + [e], id) == Voters(counted, id) + if e.vote.proposalId == id then {e.vote.voter} else {}
    ensures forall id, c, side ::
      Count(counted + [e], id, c, side) == Count(counted, id, c, side) + if For(e, id, c, side) then 1 else 0
    ensures OnceEach(counted) && e.vote.voter !in Voters(counted, e.vote.proposalId) ==> OnceEach(counted + [e])
  {
    assert (counted + [e])[..|counted|] == counted;
  }

  lemma VoteReflected(time: nat, s: Storage, vote: Vote, source: nat, counted: seq<Cast>, id: nat)
    requires Reflects(s.At(id), counted, id) && VoteCall(time, s, vote, source).Ok?
    ensures Reflects(VoteCall(time, s, vote, source).value.At(id), counted + [Cast(source, vote)], id)
  {
    hide Voters;
    hide Count;
    AppendCounted(counted, Cast(source, vote));
  }

  lemma LedgerStep(time: nat, s: Storage, vote: Vote, source: nat, counted: seq<Cast>)
    requires LedgerOk(s, counted) && VoteCall(time, s, vote, source).Ok?
    ensures LedgerOk(VoteCall(time, s, vote, source).value, counted + [Cast(source, vote)])
  {
    hide Reflects;
    hide Conserved;
    VoteConserves(time, s, vote, source);
    forall id ensures Reflects(VoteCall(time, s, vote, source).value.At(id), counted + [Cast(source, vote)], id) {
      assert Reflects(s.At(id), counted, id);
      VoteReflected(time, s, vote, source, counted, id);
    }
  }

  lemma TallyKeeps(w: World, vote: Vote, source: nat)
    requires Inv(w) && w.gov in w.chains && Cast(source, vote) in w.casts
    ensures Inv(Tally(w, vote, source))
  {
    hide Conserved;
    hide VoteCall;
    hide Voters;
    hide Count;
    hide OnceEach;
    if VoteCall(w.now, w.chains[w.gov], vote, source).Ok? {
      LedgerStep(w.now, w.chains[w.gov], vote, source, w.counted);
      FirstTime(w.now, w.chains[w.gov], vote, source, w.counted);
      AppendCounted(w.counted, Cast(source, vote));
    }
  }

  lemma NotedKeeps(w: World, e: Cast)
    requires Inv(w)
    ensures Inv(Noted(w, e))
  {
    hide LedgerOk;
    hide OnceEach;
  }

  lemma FirstTime(time: nat, s: Storage, vote: Vote, source: nat, counted: seq<Cast>)
    requires LedgerOk(s, counted) && VoteCall(time, s, vote, source).Ok?
    ensures vote.voter !in Voters(counted, vote.proposalId)
  {
    hide Conserved;
    hide Voters;
    assert Reflects(s.At(vote.proposalId), counted, vote.proposalId);
  }

  lemma CreateReflected(governed: bool, time: nat, s: Storage, description: string, period: nat, counted: seq<Cast>)
    requires LedgerOk(s, counted) && CreateCall(governed, time, s, description, period).Ok?
    ensures LedgerOk(CreateCall(governed, time, s, description, period).value, counted)
  {
    hide Conserved;
    hide Voters;
    hide Count;
    var s' := CreateCall(governed, time, s, description, period).value;
    CreateConserves(governed, time, s, description, period);
    forall id ensures Reflects(s'.At(id), counted, id) {
      assert Reflects(s.At(id), counted, id);
    }
  }

  lemma FreshLedger()
    ensures LedgerOk(EMPTY, [])
  {
  }

  lemma InvStep(w: World, step: Step)
    requires Inv(w)
    ensures Inv(Apply(w, step))
  {
    hide VoteCall;
    hide CreateCall;
    hide LedgerOk;
    hide OnceEach;
    match step
    case Deploy(chain) => FreshLedger();
    case Create(chain, description, period) =>
      if chain in w.chains {
        if CreateCall(chain == w.gov, w.now, w.chains[chain], description, period).Ok? {
          CreateGoverned(chain == w.gov, w.now, w.chains[chain], description, period);
          CreateReflected(true, w.now, w.chains[w.gov], description, period, w.counted);
        }
      }
    case CastVote(chain, sender, proposalId, support) =>
      if chain in w.chains && chain == w.gov {
        var vote := Vote(proposalId, sender, support);
        NotedKeeps(w, Cast(chain, vote));
        TallyKeeps(Noted(w, Cast(chain, vote)), vote, chain);
      }
    case Relay(i) =>
      if w.gov in w.chains && w.mail.Pending(i) && w.mail.sent[i].sender == SELF {
        TallyKeeps(w, w.mail.sent[i].payload, w.mail.sent[i].source);
      }
    case Foreign(_) =>
    case Direct(_, _, _) =>
    case Tick(_) =>
  }

  lemma CreateGoverned(governed: bool, time: nat, s: Storage, description: string, period: nat)
    requires CreateCall(governed, time, s, description, period).Ok?
    ensures governed
  {
  }

  lemma {:induction false} RunInv(gov: nat, now: nat, steps: seq<Step>)
    ensures var w := Run(Fresh(gov, now), steps); Inv(w) && w.gov == gov
  {
    hide Inv;
    hide Apply;
    if steps == [] {
      FreshInv(gov, now);
    } else {
      RunInv(gov, now, steps[..|steps| - 1]);
      var w := Run(Fresh(gov, now), steps[..|steps| - 1]);
      InvStep(w, steps[|steps| - 1]);
      SameGov(w, steps[|steps| - 1]);
    }
  }

  lemma FreshInv(gov: nat, now: nat)
    ensures Inv(Fresh(gov, now))
  {
  }

  lemma SameGov(w: World, step: Step)
    ensures Apply(w, step).gov == w.gov
  {
    hide VoteCall;
    hide CreateCall;
  }

  // ---- Main results ----

  // In every run, every proposal's totals are the sums of its per-chain tallies and together
  // make up the number of addresses that have voted.
  lemma VotesConserved(gov: nat, now: nat, steps: seq<Step>, id: nat)
    requires gov in Run(Fresh(gov, now), steps).chains
    ensures Balanced(Run(Fresh(gov, now), steps).chains[gov].At(id))
  {
    hide Balanced;
    hide Reflects;
    RunInv(gov, now, steps);
    AtBalanced(Run(Fresh(gov, now), steps).chains[gov], id);
  }

  // In every run, each tally is the number of counted votes for it; each counted vote was cast
  // by that voter, on the chain credited, with that choice; a voter is counted once per proposal,
  // and exactly the voters counted are marked; other deployments hold nothing.
  lemma VoteProvenance(gov: nat, now: nat, steps: seq<Step>)
    ensures var w := Run(Fresh(gov, now), steps);
      && OnceEach(w.counted)
      && (forall e :: e in w.counted ==> e in w.casts)
      && (forall c :: c in w.chains && c != gov ==> w.chains[c] == EMPTY)
      && (gov in w.chains ==> forall id :: Reflects(w.chains[gov].At(id), w.counted, id))
  {
    hide Reflects;
    hide OnceEach;
    RunInv(gov, now, steps);
  }

  // The voters who cast this choice on this chain.
  function Casters(casts: set<Cast>, id: nat, chain: nat, support: bool): set<Address> {
    set e | e in casts && For(e, id, chain, support) :: e.vote.voter
  }

  // The distinct voters behind one tally.
  lemma {:induction false} CountedVoters(counted: seq<Cast>, id: nat, chain: nat, support: bool)
    returns (vs: set<Address>)
    requires OnceEach(counted)
    ensures |vs| == Count(counted, id, chain, support)
    ensures vs <= Voters(counted, id)
    ensures forall v :: v in vs ==> Cast(chain, Vote(id, v, support)) in counted
  {
    vs := {};
    if counted != [] {
      var n := |counted| - 1;
      vs := CountedVoters(counted[..n], id, chain, support);
      if For(counted[n], id, chain, support) {
        assert counted[n] == Cast(chain, Vote(id, counted[n].vote.voter, support));
        vs := vs + {counted[n].vote.voter};
      }
    }
  }

  // No stuffing: a chain is credited with at most as many votes for a side as distinct voters
  // cast that vote on that very chain.
  lemma NoStuffing(gov: nat, now: nat, steps: seq<Step>, id: nat, chain: nat, support: bool)
    requires gov in Run(Fresh(gov, now), steps).chains
    ensures var w := Run(Fresh(gov, now), steps);
            w.chains[gov].At(id).VotesOf(chain).Share(support) <= |Casters(w.casts, id, chain, support)|
  {
    var w := Run(Fresh(gov, now), steps);
    VoteProvenance(gov, now, steps);
    assert Reflects(w.chains[gov].At(id), w.counted, id);
    var vs := CountedVoters(w.counted, id, chain, support);
    var cs := Casters(w.casts, id, chain, support);
    forall v | v in vs ensures v in cs {
      assert For(Cast(chain, Vote(id, v, support)), id, chain, support);
    }
    SubsetSmaller(vs, cs);
  }

  lemma {:induction false} SubsetSmaller(a: set<Address>, b: set<Address>)
    requires a <= b
    ensures |a| <= |b|
  {
    assert b == a + (b - a);
  }

  // Nobody's vote, on any number of chains, is counted twice on one proposal.
  lemma {:induction false} OneVotePerVoter(counted: seq<Cast>, i: nat, j: nat)
    requires OnceEach(counted) && i < j < |counted|
    ensures counted[i].vote.proposalId == counted[j].vote.proposalId ==> counted[i].vote.voter != counted[j].vote.voter
    decreases |counted|
  {
    var n := |counted| - 1;
    if j == n {
      CountedIsVoter(counted[..n], i);
    } else {
      OneVotePerVoter(counted[..n], i, j);
    }
  }

  lemma {:induction false} CountedIsVoter(counted: seq<Cast>, i: nat)
    requires i < |counted|
    ensures counted[i].vote.voter in Voters(counted, counted[i].vote.proposalId)
  {
    if i < |counted| - 1 {
      CountedIsVoter(counted[..|counted| - 1], i);
    }
  }

  // ---- Freezing ----

  // A created proposal past its end.
  predicate Closed(w: World, id: nat) {
    && w.gov in w.chains
    && id < w.chains[w.gov].nextProposalId
    && w.now > w.chains[w.gov].At(id).endTime
  }

  lemma ClosedStep(w: World, step: Step, id: nat)
    requires Closed(w, id)
    ensures var w' := Apply(w, step);
            w'.gov == w.gov && Closed(w', id) && w'.chains[w.gov].At(id) == w.chains[w.gov].At(id)
  {
    hide Counted;
  }

  // Once time has passed its end, nothing of a created proposal ever changes again.
  lemma {:induction false} ClosedForGood(w: World, steps: seq<Step>, id: nat)
    requires Closed(w, id)
    ensures var w' := Run(w, steps);
            w'.gov == w.gov && Closed(w', id) && w'.chains[w.gov].At(id) == w.chains[w.gov].At(id)
  {
    hide Apply;
    if steps != [] {
      ClosedForGood(w, steps[..|steps| - 1], id);
      ClosedStep(Run(w, steps[..|steps| - 1]), steps[|steps| - 1], id);
    }
  }

  // Proposals not yet created hold nothing, unless the clock stood at zero.
  predicate Untouched(w: World) {
    && w.now > 0
    && (w.gov in w.chains ==>
         forall id :: id in w.chains[w.gov].proposals ==> id < w.chains[w.gov].nextProposalId)
  }

  lemma {:induction false} OnlyCreatedHaveVotes(gov: nat, now: nat, steps: seq<Step>)
    requires now > 0
    ensures Untouched(Run(Fresh(gov, now), steps))
  {
    hide Counted;
    if steps != [] {
      OnlyCreatedHaveVotes(gov, now, steps[..|steps| - 1]);
    }
  }

  // Proposals not yet created have an empty window: it starts and ends at time zero.
  ghost predicate Unscheduled(w: World) {
    w.gov in w.chains ==>
      forall id: nat :: id >= w.chains[w.gov].nextProposalId ==>
        w.chains[w.gov].At(id).startTime == 0 && w.chains[w.gov].At(id).endTime == 0
  }

  lemma VoteKeepsWindows(time: nat, s: Storage, vote: Vote, source: nat, id: nat)
    requires VoteCall(time, s, vote, source).Ok?
    ensures var s' := VoteCall(time, s, vote, source).value;
            && s'.nextProposalId == s.nextProposalId
            && s'.At(id).startTime == s.At(id).startTime && s'.At(id).endTime == s.At(id).endTime
  {
  }

  lemma TallyUnscheduled(w: World, vote: Vote, source: nat)
    requires Unscheduled(w) && w.gov in w.chains
    ensures Unscheduled(Tally(w, vote, source))
  {
    hide VoteCall;
    if VoteCall(w.now, w.chains[w.gov], vote, source).Ok? {
      forall id: nat {
        VoteKeepsWindows(w.now, w.chains[w.gov], vote, source, id);
      }
    }
  }

  lemma CreateUnscheduled(w: World, step: Step)
    requires Unscheduled(w) && step.Create?
    ensures Unscheduled(Apply(w, step))
  {
    var w' := Apply(w, step);
    if w' != w && w.gov in w.chains {
      forall id: nat | id >= w'.chains[w.gov].nextProposalId
        ensures w'.chains[w.gov].At(id) == w.chains[w.gov].At(id)
      {
      }
    }
  }

  lemma UnscheduledStep(w: World, step: Step)
    requires Unscheduled(w)
    ensures Unscheduled(Apply(w, step))
  {
    hide VoteCall;
    hide CreateCall;
    match step
    case Create(_, _, _) => CreateUnscheduled(w, step);
    case CastVote(chain, sender, proposalId, support) =>
      if chain in w.chains && chain == w.gov {
        var vote := Vote(proposalId, sender, support);
        TallyUnscheduled(Noted(w, Cast(chain, vote)), vote, chain);
      }
    case Relay(i) =>
      if w.gov in w.chains && w.mail.Pending(i) {
        TallyUnscheduled(w, w.mail.sent[i].payload, w.mail.sent[i].source);
      }
    case _ =>
  }

  lemma {:induction false} UncreatedUnscheduled(gov: nat, now: nat, steps: seq<Step>)
    ensures Unscheduled(Run(Fresh(gov, now), steps))
  {
    hide Apply;
    if steps != [] {
      UncreatedUnscheduled(gov, now, steps[..|steps| - 1]);
      UnscheduledStep(Run(Fresh(gov, now), steps[..|steps| - 1]), steps[|steps| - 1]);
    }
  }

  // In every reachable state and for every proposal that is not created yet: a vote on it is
  // counted exactly at time zero, for a voter not counted on it before.
  lemma UncreatedVotableIff(gov: nat, now: nat, steps: seq<Step>, vote: Vote, source: nat)
    requires var w := Run(Fresh(gov, now), steps);
             gov in w.chains && vote.proposalId >= w.chains[gov].nextProposalId
    ensures var w := Run(Fresh(gov, now), steps);
            var p := w.chains[gov].At(vote.proposalId);
            VoteCall(w.now, w.chains[gov], vote, source).Ok? <==>
              w.now == 0 && vote.voter !in p.hasVoted && !Full(p, source, vote.support)
  {
    hide Counted;
    RunInv(gov, now, steps);
    UncreatedUnscheduled(gov, now, steps);
  }

  // A vote in transit is counted on arrival exactly when its proposal's window is open and the
  // voter has not been counted; otherwise the message stays for another attempt.
  lemma RelayCountsIff(w: World, i: nat)
    requires w.mail.Pending(i) && w.mail.sent[i].sender == SELF && w.mail.sent[i].destination == w.gov
    requires w.gov in w.chains
    ensures var packet := w.mail.sent[i];
            var p := w.chains[w.gov].At(packet.payload.proposalId);
            var w' := Apply(w, Relay(i));
            if p.startTime <= w.now <= p.endTime && packet.payload.voter !in p.hasVoted &&
               !Full(p, packet.source, packet.payload.support)
            then w'.counted == w.counted + [Cast(packet.source, packet.payload)] && !w'.mail.Pending(i)
            else w' == w
  {
  }

  // ---- The window of a created proposal ----

  // Number, description and window of proposal id, on the governance chain.
  predicate Scheduled(w: World, id: nat, description: string, start: nat, end: nat) {
    && w.gov in w.chains && id < w.chains[w.gov].nextProposalId && start <= w.now
    && var p := w.chains[w.gov].At(id);
    p.id == id && p.description == description && p.startTime == start && p.endTime == end
  }

  lemma ScheduledStep(w: World, step: Step, id: nat, description: string, start: nat, end: nat)
    requires Scheduled(w, id, description, start, end)
    ensures Scheduled(Apply(w, step), id, description, start, end) && Apply(w, step).gov == w.gov
  {
    hide Full;
  }

  lemma {:induction false} ScheduledStays(w: World, steps: seq<Step>, id: nat, description: string, start: nat,
                                          end: nat)
    requires Scheduled(w, id, description, start, end)
    ensures Scheduled(Run(w, steps), id, description, start, end) && Run(w, steps).gov == w.gov
  {
    hide Apply;
    if steps != [] {
      ScheduledStays(w, steps[..|steps| - 1], id, description, start, end);
      ScheduledStep(Run(w, steps[..|steps| - 1]), steps[|steps| - 1], id, description, start, end);
    }
  }

  // In every run, whatever happens after its creation: a proposal takes votes of voters not yet
  // counted exactly as long as no more than its period has passed.
  lemma VotableUntilEnd(w: World, description: string, period: nat, later: seq<Step>, vote: Vote, source: nat)
    requires w.gov in w.chains && CreateCall(true, w.now, w.chains[w.gov], description, period).Ok?
    requires vote.proposalId == w.chains[w.gov].nextProposalId
    ensures var v := Run(Apply(w, Create(w.gov, description, period)), later);
            && v.gov == w.gov && v.gov in v.chains
            && (VoteCall(v.now, v.chains[v.gov], vote, source) == Err(ProposalNotActive) <==> v.now > w.now + period)
            && v.chains[v.gov].At(vote.proposalId).description == description
  {
    var u := Apply(w, Create(w.gov, description, period));
    CreatedWindow(true, w.now, w.chains[w.gov], description, period, w.now, vote.voter, vote.support, source);
    assert Scheduled(u, vote.proposalId, description, w.now, w.now + period);
    hide Apply;
    ScheduledStays(u, later, vote.proposalId, description, w.now, w.now + period);
    hide Run;
  }

  // ---- Every stored number fits 256 bits ----

  predicate NumbersFit(p: Proposal) {
    && p.totalVotesFor <= UINT256_MAX && p.totalVotesAgainst <= UINT256_MAX
    && p.endTime <= UINT256_MAX
    && forall c :: c in p.chainVotes ==>
         p.chainVotes[c].votesFor <= UINT256_MAX && p.chainVotes[c].votesAgainst <= UINT256_MAX
  }

  ghost predicate Fits(w: World) {
    forall c :: c in w.chains ==>
      w.chains[c].nextProposalId <= UINT256_MAX && forall id :: NumbersFit(w.chains[c].At(id))
  }

  lemma VoteFits(time: nat, s: Storage, vote: Vote, source: nat, id: nat)
    requires NumbersFit(s.At(id)) && VoteCall(time, s, vote, source).Ok?
    ensures NumbersFit(VoteCall(time, s, vote, source).value.At(id))
  {
  }

  lemma TallyFits(w: World, vote: Vote, source: nat)
    requires Fits(w) && w.gov in w.chains
    ensures Fits(Tally(w, vote, source))
  {
    hide VoteCall;
    hide NumbersFit;
    if VoteCall(w.now, w.chains[w.gov], vote, source).Ok? {
      forall id: nat ensures NumbersFit(VoteCall(w.now, w.chains[w.gov], vote, source).value.At(id)) {
        VoteFits(w.now, w.chains[w.gov], vote, source, id);
      }
      VoteKeepsWindows(w.now, w.chains[w.gov], vote, source, 0);
    }
  }

  lemma CreateFits(w: World, step: Step)
    requires Fits(w) && step.Create?
    ensures Fits(Apply(w, step))
  {
    var w' := Apply(w, step);
    if w' != w {
      var (s, s') := (w.chains[step.chain], w'.chains[step.chain]);
      forall id ensures NumbersFit(s'.At(id)) {
        assert NumbersFit(s.At(id));
      }
    }
  }

  lemma FitsStep(w: World, step: Step)
    requires Fits(w)
    ensures Fits(Apply(w, step))
  {
    hide VoteCall;
    hide CreateCall;
    match step
    case Create(_, _, _) => CreateFits(w, step);
    case CastVote(chain, sender, proposalId, support) =>
      if chain in w.chains && chain == w.gov {
        var vote := Vote(proposalId, sender, support);
        TallyFits(Noted(w, Cast(chain, vote)), vote, chain);
      }
    case Relay(i) =>
      if w.gov in w.chains && w.mail.Pending(i) {
        TallyFits(w, w.mail.sent[i].payload, w.mail.sent[i].source);
      }
    case _ =>
  }

  // In every run all proposal numbers, windows, totals and tallies fit 256 bits.
  lemma {:induction false} EverythingFits(gov: nat, now: nat, steps: seq<Step>)
    ensures Fits(Run(Fresh(gov, now), steps))
  {
    hide Apply;
    if steps != [] {
      EverythingFits(gov, now, steps[..|steps| - 1]);
      FitsStep(Run(Fresh(gov, now), steps[..|steps| - 1]), steps[|steps| - 1]);
    }
  }
}
