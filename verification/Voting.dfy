// CrossChainVoting: one deployment. Votes are cast on any chain and tallied on one.
module Voting {
  import opened Interop
  import opened Messenger
  import opened Wrappers

  datatype ChainVotes = ChainVotes(votesFor: nat, votesAgainst: nat) {
    function Share(support: bool): nat {
      if support then votesFor else votesAgainst
    }

    function Plus(support: bool): ChainVotes {
      if support then this.(votesFor := votesFor + 1) else this.(votesAgainst := votesAgainst + 1)
    }
  }

  datatype Proposal = Proposal(id: nat, description: string, startTime: nat, endTime: nat,
                               totalVotesFor: nat, totalVotesAgainst: nat,
                               chainVotes: map<nat, ChainVotes>, hasVoted: set<Address>) {
    function Total(support: bool): nat {
      if support then totalVotesFor else totalVotesAgainst
    }

    function VotesOf(chain: nat): ChainVotes {
      if chain in chainVotes then chainVotes[chain] else ChainVotes(0, 0)
    }
  }

  // What an untouched storage slot reads as.
  const NO_PROPOSAL := Proposal(0, "", 0, 0, 0, 0, map[], {})

  datatype Vote = Vote(proposalId: nat, voter: Address, support: bool)

  datatype Event =
    | ProposalCreated(proposalId: nat, description: string, startTime: nat, endTime: nat)
    | VoteSent(sourceChainId: nat, vote: Vote)
    | VoteCasted(proposalId: nat, voter: Address, support: bool)

  datatype Error =
    | NotGovernanceChain | ProposalNotActive | AlreadyVoted | Panic | Callback(error: CallbackError)

  datatype Storage = Storage(nextProposalId: nat, proposals: map<nat, Proposal>) {
    function At(id: nat): Proposal {
      if id in proposals then proposals[id] else NO_PROPOSAL
    }
  }

  const EMPTY := Storage(0, map[])

  // ---- The calls as functions of the storage ----

  function CreateCall(governed: bool, time: nat, s: Storage, description: string, period: nat): Result<Storage, Error> {
    if !governed then Err(NotGovernanceChain)
    else if s.nextProposalId == UINT256_MAX || time + period > UINT256_MAX then Err(Panic)
    else
      var id := s.nextProposalId;
      var p := s.At(id).(id := id, description := description, startTime := time, endTime := time + period);
      Ok(Storage(id + 1, s.proposals[id := p]))
  }

  predicate Full(p: Proposal, source: nat, support: bool) {
    p.Total(support) == UINT256_MAX || p.VotesOf(source).Share(support) == UINT256_MAX
  }

  function Counted(p: Proposal, voter: Address, support: bool, source: nat): Proposal {
    var q := p.(hasVoted := p.hasVoted + {voter},
                chainVotes := p.chainVotes[source := p.VotesOf(source).Plus(support)]);
    if support then q.(totalVotesFor := p.totalVotesFor + 1) else q.(totalVotesAgainst := p.totalVotesAgainst + 1)
  }

  function VoteCall(time: nat, s: Storage, vote: Vote, source: nat): Result<Storage, Error> {
    var p := s.At(vote.proposalId);
    if time < p.startTime || time > p.endTime then Err(ProposalNotActive)
    else if vote.voter in p.hasVoted then Err(AlreadyVoted)
    else if Full(p, source, vote.support) then Err(Panic)
    else Ok(s.(proposals := s.proposals[vote.proposalId := Counted(p, vote.voter, vote.support, source)]))
  }

  // self is the contract's address; caller and domainSender are what the messenger reports.
  function ReceiveFault(self: Address, governed: bool, caller: Address, domainSender: Address): Option<Error> {
    if !governed then Some(NotGovernanceChain)
    else if caller != MESSENGER then Some(Callback(CallerNotL2ToL2CrossDomainMessenger))
    else if domainSender != self then Some(Callback(InvalidCrossDomainSender))
    else None
  }

  class CrossChainVoting {
    const self: Address
    const chain: nat
    var governanceChainId: nat
    var nextProposalId: nat
    var proposals: map<nat, Proposal>
    var logs: seq<Event>
    var outbox: seq<Packet<Vote>>

    function State(): Storage reads this {
      Storage(nextProposalId, proposals)
    }

    constructor (self: Address, chain: nat, governanceChainId: nat)
      ensures this.self == self && this.chain == chain && this.governanceChainId == governanceChainId
      ensures State() == EMPTY && logs == [] && outbox == []
    {
      this.self, this.chain, this.governanceChainId := self, chain, governanceChainId;
      nextProposalId, proposals, logs, outbox := 0, map[], [], [];
    }

    method CreateProposal(time: nat, description: string, period: nat) returns (error: Option<Error>)
      modifies this
      ensures governanceChainId == old(governanceChainId) && outbox == old(outbox)
      ensures match CreateCall(chain == governanceChainId, time, old(State()), description, period)
              case Err(e) => error == Some(e) && State() == old(State()) && logs == old(logs)
              case Ok(s) =>
                && error.None? && State() == s
                && logs == old(logs) + [ProposalCreated(old(nextProposalId), description, time, time + period)]
    {
      if chain != governanceChainId { return Some(NotGovernanceChain); }
      if nextProposalId == UINT256_MAX { return Some(Panic); }
      var proposalId := nextProposalId;
      nextProposalId := nextProposalId + 1;
      var proposal := State().At(proposalId);
      proposal := proposal.(id := proposalId);
      proposal := proposal.(description := description);
      proposal := proposal.(startTime := time);
      if time + period > UINT256_MAX {
        nextProposalId := proposalId;
        return Some(Panic);
      }
      proposal := proposal.(endTime := time + period);
      proposals := proposals[proposalId := proposal];
      logs := logs + [ProposalCreated(proposalId, proposal.description, proposal.startTime, proposal.endTime)];
      return None;
    }

    // The internal tally of one vote; a revert leaves everything as it was.
    method CountVote(time: nat, vote: Vote, source: nat) returns (error: Option<Error>)
      modifies this
      ensures governanceChainId == old(governanceChainId) && outbox == old(outbox)
      ensures match VoteCall(time, old(State()), vote, source)
              case Err(e) => error == Some(e) && State() == old(State()) && logs == old(logs)
              case Ok(s) =>
                && error.None? && State() == s
                && logs == old(logs) + [VoteCasted(vote.proposalId, vote.voter, vote.support)]
    {
      var proposal := State().At(vote.proposalId);
      if time < proposal.startTime || time > proposal.endTime { return Some(ProposalNotActive); }
      if vote.voter in proposal.hasVoted { return Some(AlreadyVoted); }
      var before := proposals;
      proposal := proposal.(hasVoted := proposal.hasVoted + {vote.voter});
      proposals := proposals[vote.proposalId := proposal];
      var tally := proposal.VotesOf(source);
      if vote.support {
        if proposal.totalVotesFor == UINT256_MAX || tally.votesFor == UINT256_MAX {
          proposals := before;
          return Some(Panic);
        }
        proposal := proposal.(totalVotesFor := proposal.totalVotesFor + 1);
        proposal := proposal.(chainVotes := proposal.chainVotes[source := tally.(votesFor := tally.votesFor + 1)]);
      } else {
        if proposal.totalVotesAgainst == UINT256_MAX || tally.votesAgainst == UINT256_MAX {
          proposals := before;
          return Some(Panic);
        }
        proposal := proposal.(totalVotesAgainst := proposal.totalVotesAgainst + 1);
        proposal := proposal.(chainVotes :=
          proposal.chainVotes[source := tally.(votesAgainst := tally.votesAgainst + 1)]);
      }
      proposals := proposals[vote.proposalId := proposal];
      assert proposals == before[vote.proposalId := proposal];
      logs := logs + [VoteCasted(vote.proposalId, vote.voter, vote.support)];
      return None;
    }

    // On another chain the vote is only sent; on the governance chain it is counted at once.
    method CastVote(time: nat, sender: Address, proposalId: nat, support: bool) returns (error: Option<Error>)
      modifies this
      ensures governanceChainId == old(governanceChainId)
      ensures chain != governanceChainId ==>
        && error.None? && State() == old(State())
        && outbox == old(outbox) + [Packet(self, chain, governanceChainId, Vote(proposalId, sender, support))]
        && logs == old(logs) + [VoteSent(chain, Vote(proposalId, sender, support))]
      ensures chain == governanceChainId ==> outbox == old(outbox)
      ensures chain == governanceChainId ==>
        match VoteCall(time, old(State()), Vote(proposalId, sender, support), chain)
        case Err(e) => error == Some(e) && State() == old(State()) && logs == old(logs)
        case Ok(s) => error.None? && State() == s && logs == old(logs) + [VoteCasted(proposalId, sender, support)]
    {
      if chain != governanceChainId {
        var newVote := Vote(proposalId, sender, support);
        outbox := outbox + [Packet(self, chain, governanceChainId, newVote)];
        logs := logs + [VoteSent(chain, newVote)];
        return None;
      } else {
        error := CountVote(time, Vote(proposalId, sender, support), chain);
      }
    }

    method ReceiveVote(caller: Address, domainSender: Address, domainSource: nat, time: nat, vote: Vote)
      returns (error: Option<Error>)
      modifies this
      ensures governanceChainId == old(governanceChainId) && outbox == old(outbox)
      ensures error == Some(NotGovernanceChain) <==> chain != governanceChainId
      ensures error == Some(Callback(CallerNotL2ToL2CrossDomainMessenger)) <==>
              chain == governanceChainId && caller != MESSENGER
      ensures error == Some(Callback(InvalidCrossDomainSender)) <==>
              chain == governanceChainId && caller == MESSENGER && domainSender != self
      ensures
        var fault := ReceiveFault(self, chain == governanceChainId, caller, domainSender);
        if fault.Some? then error == fault && State() == old(State()) && logs == old(logs)
        else match VoteCall(time, old(State()), vote, domainSource)
          case Err(e) => error == Some(e) && State() == old(State()) && logs == old(logs)
          case Ok(s) =>
            error.None? && State() == s && logs == old(logs) + [VoteCasted(vote.proposalId, vote.voter, vote.support)]
    {
      if chain != governanceChainId { return Some(NotGovernanceChain); }
      if caller != MESSENGER { return Some(Callback(CallerNotL2ToL2CrossDomainMessenger)); }
      if domainSender != self { return Some(Callback(InvalidCrossDomainSender)); }
      error := CountVote(time, vote, domainSource);
    }
  }

  // ---- Conservation ----

  // The sum of one side's tallies over all chains.
  ghost function Sum(votes: map<nat, ChainVotes>, support: bool): nat
    decreases |votes|
  {
    if votes == map[] then 0
    else
      var c :| c in votes;
      assert |votes - {c}| < |votes| by { Smaller(votes, c); }
      votes[c].Share(support) + Sum(votes - {c}, support)
  }

  lemma Smaller(votes: map<nat, ChainVotes>, c: nat)
    requires c in votes
    ensures |votes - {c}| < |votes|
  {
    assert (votes - {c}).Keys == votes.Keys - {c};
    assert |votes.Keys - {c}| < |votes.Keys|;
  }

  // The order of summation is irrelevant.
  lemma {:induction false} SumPick(votes: map<nat, ChainVotes>, c: nat, support: bool)
    requires c in votes
    ensures Sum(votes, support) == votes[c].Share(support) + Sum(votes - {c}, support)
    decreases |votes|
  {
    var d :| d in votes && Sum(votes, support) == votes[d].Share(support) + Sum(votes - {d}, support);
    if d != c {
      Smaller(votes, c);
      Smaller(votes, d);
      SumPick(votes - {d}, c, support);
      SumPick(votes - {c}, d, support);
      assert votes - {d} - {c} == votes - {c} - {d};
    }
  }

  lemma SumPlus(p: Proposal, source: nat, side: bool, support: bool)
    ensures Sum(p.chainVotes[source := p.VotesOf(source).Plus(support)], side) ==
            Sum(p.chainVotes, side) + if side == support then 1 else 0
  {
    var votes := p.chainVotes[source := p.VotesOf(source).Plus(support)];
    SumPick(votes, source, side);
    assert votes - {source} == p.chainVotes - {source};
    if source in p.chainVotes {
      SumPick(p.chainVotes, source, side);
    } else {
      assert p.chainVotes - {source} == p.chainVotes;
    }
  }

  // Totals are the sums of the per-chain tallies, and together they are the number of voters.
  ghost predicate Balanced(p: Proposal) {
    && p.totalVotesFor == Sum(p.chainVotes, true)
    && p.totalVotesAgainst == Sum(p.chainVotes, false)
    && p.totalVotesFor + p.totalVotesAgainst == |p.hasVoted|
  }

  ghost predicate Conserved(s: Storage) {
    forall id :: id in s.proposals ==> Balanced(s.proposals[id])
  }

  lemma NoProposalBalanced()
    ensures Balanced(NO_PROPOSAL)
  {
  }

  lemma AtBalanced(s: Storage, id: nat)
    requires Conserved(s)
    ensures Balanced(s.At(id))
  {
    hide Balanced;
    NoProposalBalanced();
  }

  // Only the tallies and the roll matter.
  lemma SameBalance(p: Proposal, q: Proposal)
    requires Balanced(p)
    requires q == p.(id := q.id, description := q.description, startTime := q.startTime, endTime := q.endTime)
    ensures Balanced(q)
  {
    hide Sum;
  }

  lemma PutConserves(s: Storage, id: nat, p: Proposal, next: nat)
    requires Conserved(s) && Balanced(p)
    ensures Conserved(Storage(next, s.proposals[id := p]))
  {
    hide Balanced;
  }

  lemma CreateConserves(governed: bool, time: nat, s: Storage, description: string, period: nat)
    requires Conserved(s) && CreateCall(governed, time, s, description, period).Ok?
    ensures Conserved(CreateCall(governed, time, s, description, period).value)
  {
    hide Balanced;
    hide Conserved;
    var id := s.nextProposalId;
    AtBalanced(s, id);
    var p := s.At(id).(id := id, description := description, startTime := time, endTime := time + period);
    SameBalance(s.At(id), p);
    PutConserves(s, id, p, id + 1);
  }

  lemma CountedBalanced(p: Proposal, voter: Address, support: bool, source: nat)
    requires Balanced(p) && voter !in p.hasVoted
    ensures Balanced(Counted(p, voter, support, source))
  {
    hide Sum;
    SumPlus(p, source, true, support);
    SumPlus(p, source, false, support);
  }

  lemma VoteConserves(time: nat, s: Storage, vote: Vote, source: nat)
    requires Conserved(s) && VoteCall(time, s, vote, source).Ok?
    ensures Conserved(VoteCall(time, s, vote, source).value)
  {
    hide Balanced;
    hide Conserved;
    hide Counted;
    var p := s.At(vote.proposalId);
    AtBalanced(s, vote.proposalId);
    CountedBalanced(p, vote.voter, vote.support, source);
    PutConserves(s, vote.proposalId, Counted(p, vote.voter, vote.support, source), s.nextProposalId);
  }

  // When a vote is counted and when not, by the proposal's window and roll.
  lemma VoteCallIff(time: nat, s: Storage, vote: Vote, source: nat)
    ensures VoteCall(time, s, vote, source).Ok? <==>
      var p := s.At(vote.proposalId);
      && p.startTime <= time <= p.endTime && vote.voter !in p.hasVoted
      && (if vote.support then p.totalVotesFor else p.totalVotesAgainst) != UINT256_MAX
      && (source in p.chainVotes ==>
           (if vote.support then p.chainVotes[source].votesFor else p.chainVotes[source].votesAgainst) != UINT256_MAX)
    ensures var p := s.At(vote.proposalId);
      && (VoteCall(time, s, vote, source) == Err(ProposalNotActive) <==> !(p.startTime <= time <= p.endTime))
      && (VoteCall(time, s, vote, source) == Err(AlreadyVoted) <==>
           p.startTime <= time <= p.endTime && vote.voter in p.hasVoted)
    ensures VoteCall(time, s, vote, source).Ok? ==>
      var s' := VoteCall(time, s, vote, source).value;
      var p, p' := s.At(vote.proposalId), s'.At(vote.proposalId);
      && vote.voter in p'.hasVoted
      && VoteCall(time, s', vote, source) == Err(AlreadyVoted)
      && p'.hasVoted == p.hasVoted + {vote.voter}
      && p'.totalVotesFor == p.totalVotesFor + (if vote.support then 1 else 0)
      && p'.totalVotesAgainst == p.totalVotesAgainst + (if vote.support then 0 else 1)
      && (forall c :: c != source ==> p'.VotesOf(c) == p.VotesOf(c))
      && p'.VotesOf(source).votesFor == p.VotesOf(source).votesFor + (if vote.support then 1 else 0)
      && p'.VotesOf(source).votesAgainst == p.VotesOf(source).votesAgainst + (if vote.support then 0 else 1)
      && (p'.id, p'.description, p'.startTime, p'.endTime) == (p.id, p.description, p.startTime, p.endTime)
      && (forall id :: id != vote.proposalId ==> s'.At(id) == s.At(id))
      && s'.nextProposalId == s.nextProposalId
  {
  }

  // A proposal is created exactly on the governance chain while the number and the end of the
  // window fit 256 bits. It gets the next number, its own description and a window that opens
  // at once and closes after the period, both ends included; nothing else changes.
  lemma CreatedWindow(governed: bool, now: nat, s: Storage, description: string, period: nat,
                      time: nat, voter: Address, support: bool, source: nat)
    ensures CreateCall(governed, now, s, description, period).Ok? <==>
            governed && s.nextProposalId != UINT256_MAX && now + period <= UINT256_MAX
    ensures CreateCall(governed, now, s, description, period) == Err(NotGovernanceChain) <==> !governed
    ensures CreateCall(governed, now, s, description, period).Ok? ==>
      var s' := CreateCall(governed, now, s, description, period).value;
      var (id, p) := (s.nextProposalId, s'.At(s.nextProposalId));
      && s'.nextProposalId == id + 1 && p.id == id && p.description == description
      && (forall other :: other != id ==> s'.At(other) == s.At(other))
      && p.hasVoted == s.At(id).hasVoted && p.chainVotes == s.At(id).chainVotes
      && (VoteCall(time, s', Vote(id, voter, support), source) == Err(ProposalNotActive) <==>
           !(now <= time <= now + period))
  {
  }
}
