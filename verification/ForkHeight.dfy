// At which height each L2 is forked, given the L1 header the fork starts from.
module ForkHeight {
  import opened Interop
  import opened Wrappers

  const BLOCK_TIME: U64 := 2

  datatype Header = Header(number: U64, time: U64)

  datatype Error = PrecedesGenesis | NoHeader | WrongChainId

  // A chain that makes a block every blockTime seconds from its genesis on.
  datatype Schedule = Schedule(genesisNumber: nat, genesisTime: nat, blockTime: nat) {
    function TimeOf(n: nat): int {
      genesisTime + blockTime * (n - genesisNumber)
    }

    // A header of one of its blocks.
    predicate Made(h: Header) {
      h.number >= genesisNumber && h.time == TimeOf(h.number)
    }
  }

  // ---- The computation, in uint64 arithmetic ----

  function WalkBack(diff: U64): U64 {
    diff / BLOCK_TIME + if diff % 2 != 0 then 1 else 0
  }

  function Height(head: Header, l1Time: U64): U64 {
    if head.time > l1Time then (head.number - WalkBack(head.time - l1Time)) % TWO64 else head.number
  }

  // head is the node's answer for its latest block, genesisTime the registry's for the chain.
  method LatestL2HeightFromL1Header(genesisTime: U64, head: Option<Header>, l1Time: U64)
    returns (r: Result<U64, Error>)
    ensures r == Err(PrecedesGenesis) <==> l1Time < genesisTime
    ensures r == Err(NoHeader) <==> l1Time >= genesisTime && head.None?
    ensures l1Time >= genesisTime && head.Some? ==> r == Ok(Height(head.value, l1Time))
  {
    if l1Time < genesisTime {
      return Err(PrecedesGenesis);
    }
    if head.None? {
      return Err(NoHeader);
    }
    var blockNum := head.value.number;
    if head.value.time > l1Time {
      var timeDiff := head.value.time - l1Time;
      var blocksToWalkBack := timeDiff / BLOCK_TIME;
      if timeDiff % 2 != 0 {
        blocksToWalkBack := blocksToWalkBack + 1;
      }
      blockNum := (blockNum - blocksToWalkBack) % TWO64;
    }
    return Ok(blockNum);
  }

  // ---- What the height is ----

  // The latest block that exists and is no later than the L1 time.
  ghost predicate IsForkBlock(s: Schedule, head: Header, l1Time: U64, h: nat) {
    && s.genesisNumber <= h <= head.number
    && s.TimeOf(h) <= l1Time
    && forall n: nat :: s.genesisNumber <= n <= head.number && s.TimeOf(n) <= l1Time ==> n <= h
  }

  // With two-second blocks the subtraction never wraps and the height is the latest existing
  // block no later than the L1 time.
  lemma HeightIsForkBlock(s: Schedule, head: Header, l1Time: U64)
    requires s.blockTime == BLOCK_TIME && s.Made(head) && l1Time >= s.genesisTime
    ensures head.time > l1Time ==> WalkBack(head.time - l1Time) <= head.number
    ensures IsForkBlock(s, head, l1Time, Height(head, l1Time))
  {
    if head.time > l1Time {
      var back := WalkBack(head.time - l1Time);
      assert s.TimeOf(head.number) - 2 * back <= l1Time;
      assert 2 * back <= head.time - l1Time + 1;
      assert head.time - s.genesisTime == 2 * (head.number - s.genesisNumber);
      assert back <= head.number - s.genesisNumber;
      assert (head.number - back) % TWO64 == head.number - back;
      assert s.TimeOf(head.number - back + 1) > l1Time;
    }
  }

  // The computation is right for all heads and L1 times exactly when blocks are two seconds
  // apart: the constant is built in.
  lemma RightIffTwoSeconds(s: Schedule)
    requires s.blockTime > 0
    requires s.genesisNumber + 2 < TWO64 && s.genesisTime + 2 * s.blockTime < TWO64
    ensures (forall head: Header, l1Time: U64 :: s.Made(head) && l1Time >= s.genesisTime ==>
              IsForkBlock(s, head, l1Time, Height(head, l1Time)))
            <==> s.blockTime == BLOCK_TIME
  {
    if s.blockTime == BLOCK_TIME {
      forall head: Header, l1Time: U64 | s.Made(head) && l1Time >= s.genesisTime
        ensures IsForkBlock(s, head, l1Time, Height(head, l1Time))
      {
        HeightIsForkBlock(s, head, l1Time);
      }
    } else {
      var n := if s.blockTime == 1 then 2 else 1;
      var head := Header(s.genesisNumber + n, s.genesisTime + n * s.blockTime);
      var l1Time: U64 := s.genesisTime;
      assert s.Made(head);
      NotForkBlock(s, head, n);
      assert !IsForkBlock(s, head, l1Time, Height(head, l1Time));
    }
  }

  // Forking at genesis time goes wrong one block above genesis with blocks of three seconds or
  // more, and two above with one-second blocks.
  lemma NotForkBlock(s: Schedule, head: Header, n: nat)
    requires s.blockTime > 0 && s.blockTime != BLOCK_TIME && n == (if s.blockTime == 1 then 2 else 1)
    requires s.genesisTime + 2 * s.blockTime < TWO64
    requires head.number == s.genesisNumber + n && head.time == s.genesisTime + n * s.blockTime
    ensures !IsForkBlock(s, head, s.genesisTime, Height(head, s.genesisTime))
  {
    if s.blockTime == 1 {
      assert head.time - s.genesisTime == 2;
      assert Height(head, s.genesisTime) == s.genesisNumber + 1;
      assert s.TimeOf(s.genesisNumber + 1) == s.genesisTime + 1;
    } else {
      assert head.time - s.genesisTime == s.blockTime;
      assert WalkBack(head.time - s.genesisTime) >= 2;
      assert s.TimeOf(s.genesisNumber) == s.genesisTime;
      var h := head.number - WalkBack(head.time - s.genesisTime);
      if h >= 0 {
        assert h % TWO64 == h;
      } else {
        Wraps(h);
      }
    }
  }

  lemma Wraps(h: int)
    requires h < 0 < h + TWO64
    ensures h % TWO64 == h + TWO64
  {
  }

  // A later L1 header never forks at an earlier block.
  lemma Monotone(s: Schedule, head: Header, earlier: U64, later: U64)
    requires s.blockTime == BLOCK_TIME && s.Made(head) && s.genesisTime <= earlier <= later
    ensures Height(head, earlier) <= Height(head, later)
  {
    HeightIsForkBlock(s, head, earlier);
    HeightIsForkBlock(s, head, later);
  }

  // Nor does a later look at a chain that has moved on, once its head had passed the L1 time.
  lemma SettledOncePassed(s: Schedule, head: Header, next: Header, l1Time: U64)
    requires s.blockTime == BLOCK_TIME && s.Made(head) && s.Made(next) && s.genesisTime <= l1Time
    requires l1Time <= head.time <= next.time
    ensures Height(head, l1Time) == Height(next, l1Time)
  {
    HeightIsForkBlock(s, head, l1Time);
    HeightIsForkBlock(s, next, l1Time);
    var n := Height(next, l1Time);
    assert s.TimeOf(n) <= head.time;
    assert n <= head.number;
  }

  // Chains whose heads have passed the L1 time fork within less than one block time of it, and
  // so of each other.
  lemma ForksAligned(a: Schedule, headA: Header, b: Schedule, headB: Header, l1Time: U64)
    requires a.blockTime == BLOCK_TIME && a.Made(headA) && a.genesisTime <= l1Time <= headA.time
    requires b.blockTime == BLOCK_TIME && b.Made(headB) && b.genesisTime <= l1Time <= headB.time
    ensures var ta, tb := a.TimeOf(Height(headA, l1Time)), b.TimeOf(Height(headB, l1Time));
            && l1Time - BLOCK_TIME < ta <= l1Time
            && l1Time - BLOCK_TIME < tb <= l1Time
            && ta - tb < BLOCK_TIME && tb - ta < BLOCK_TIME
  {
    Close(a, headA, l1Time);
    Close(b, headB, l1Time);
  }

  lemma Close(s: Schedule, head: Header, l1Time: U64)
    requires s.blockTime == BLOCK_TIME && s.Made(head) && s.genesisTime <= l1Time <= head.time
    ensures l1Time - BLOCK_TIME < s.TimeOf(Height(head, l1Time)) <= l1Time
  {
    HeightIsForkBlock(s, head, l1Time);
    var h := Height(head, l1Time);
    if h < head.number {
      assert s.TimeOf(h + 1) > l1Time;
    }
  }

  // ---- All chains of a fork ----

  // What the registry and the node say about a chain.
  datatype L2Chain = L2Chain(chainId: U64, genesisTime: U64, reportedId: U64, head: Option<Header>)

  datatype L2Config = L2Config(chainId: U64, forkHeight: U64, dependencySet: seq<U64>)

  function Others(chains: seq<L2Chain>, chainId: U64): seq<U64> {
    if chains == [] then []
    else
      var n := |chains| - 1;
      if chains[n].chainId != chainId then Others(chains[..n], chainId) + [chains[n].chainId]
      else Others(chains[..n], chainId)
  }

  function Ids(chains: seq<L2Chain>): seq<U64> {
    if chains == [] then [] else Ids(chains[..|chains| - 1]) + [chains[|chains| - 1].chainId]
  }

  lemma {:induction false} OthersAppend(a: seq<L2Chain>, b: seq<L2Chain>, chainId: U64)
    ensures Others(a + b, chainId) == Others(a, chainId) + Others(b, chainId)
  {
    if b == [] {
      assert a + b == a;
    } else {
      var n := |b| - 1;
      assert (a + b)[..|a + b| - 1] == a + b[..n];
      OthersAppend(a, b[..n], chainId);
    }
  }

  lemma {:induction false} OthersAll(chains: seq<L2Chain>, chainId: U64)
    requires forall i :: 0 <= i < |chains| ==> chains[i].chainId != chainId
    ensures Others(chains, chainId) == Ids(chains)
  {
    if chains != [] {
      OthersAll(chains[..|chains| - 1], chainId);
    }
  }

  // The dependency set of a chain that is listed once: the ids before it and the ids after it,
  // each as often as it is listed, in the same order.
  lemma OthersInOrder(before: seq<L2Chain>, c: L2Chain, after: seq<L2Chain>)
    requires forall i :: 0 <= i < |before| ==> before[i].chainId != c.chainId
    requires forall i :: 0 <= i < |after| ==> after[i].chainId != c.chainId
    ensures Others(before + [c] + after, c.chainId) == Ids(before) + Ids(after)
  {
    OthersAppend(before + [c], after, c.chainId);
    OthersAppend(before, [c], c.chainId);
    assert [c][..0] == [];
    OthersAll(before, c.chainId);
    OthersAll(after, c.chainId);
  }

  predicate Forkable(c: L2Chain, l1Time: U64) {
    c.reportedId == c.chainId && l1Time >= c.genesisTime && c.head.Some?
  }

  // Chain i is the first that cannot be forked, for this reason.
  predicate FailsFirst(chains: seq<L2Chain>, l1Time: U64, i: nat, error: Error) {
    && i < |chains|
    && !Forkable(chains[i], l1Time)
    && (forall j :: 0 <= j < i ==> Forkable(chains[j], l1Time))
    && error == if chains[i].reportedId != chains[i].chainId then WrongChainId
                else if l1Time < chains[i].genesisTime then PrecedesGenesis
                else NoHeader
  }

  method DependencySet(chains: seq<L2Chain>, chainId: U64) returns (dependencySet: seq<U64>)
    ensures dependencySet == Others(chains, chainId)
  {
    dependencySet := [];
    for i := 0 to |chains|
      invariant dependencySet == Others(chains[..i], chainId)
    {
      assert chains[..i + 1][..i] == chains[..i];
      if chains[i].chainId != chainId {
        dependencySet := dependencySet + [chains[i].chainId];
      }
    }
    assert chains[..|chains|] == chains;
  }

  // One configuration per chain in order, or the first chain's failure.
  method ForkChains(chains: seq<L2Chain>, l1Time: U64, interop: bool) returns (configs: Result<seq<L2Config>, Error>)
    ensures configs.Ok? <==> forall i :: 0 <= i < |chains| ==> Forkable(chains[i], l1Time)
    ensures configs.Ok? ==> |configs.value| == |chains| && forall i :: 0 <= i < |chains| ==>
      configs.value[i] == L2Config(chains[i].chainId, Height(chains[i].head.value, l1Time),
                                   if interop then Others(chains, chains[i].chainId) else [])
    ensures configs.Err? ==> exists i :: FailsFirst(chains, l1Time, i, configs.error)
  {
    hide Height;
    hide Others;
    var l2Configs := [];
    for i := 0 to |chains|
      invariant |l2Configs| == i
      invariant forall k :: 0 <= k < i ==> Forkable(chains[k], l1Time)
      invariant forall k :: 0 <= k < i ==>
        l2Configs[k] == L2Config(chains[k].chainId, Height(chains[k].head.value, l1Time),
                                 if interop then Others(chains, chains[k].chainId) else [])
    {
      var c := chains[i];
      if c.reportedId != c.chainId {
        assert FailsFirst(chains, l1Time, i, WrongChainId);
        return Err(WrongChainId);
      }
      var height := LatestL2HeightFromL1Header(c.genesisTime, c.head, l1Time);
      if height.Err? {
        assert FailsFirst(chains, l1Time, i, height.error);
        return Err(height.error);
      }
      var dependencySet := [];
      if interop {
        dependencySet := DependencySet(chains, c.chainId);
      }
      l2Configs := l2Configs + [L2Config(c.chainId, height.value, dependencySet)];
    }
    return Ok(l2Configs);
  }

  // Each chain depends on every other forked chain and never on itself.
  lemma {:induction false} OthersMeaning(chains: seq<L2Chain>, chainId: U64, id: U64)
    ensures id in Others(chains, chainId) <==> id != chainId && exists i :: 0 <= i < |chains| && chains[i].chainId == id
  {
    if chains != [] {
      var n := |chains| - 1;
      OthersMeaning(chains[..n], chainId, id);
      if i :| 0 <= i < |chains| && chains[i].chainId == id {
        assert i < n ==> chains[..n][i].chainId == id;
      }
    }
  }
}
