// Collecting the logs of a simulated transaction from its call tree.
module CallTree {
  import opened Interop

  type Byte = b: nat | b < 256

  // A topic: 32 bytes.
  type Word = w: seq<Byte> | |w| == 32 witness seq(32, _ => 0)

  datatype Log = Log(address: Address, topics: seq<Word>, data: seq<Byte>)

  datatype Frame = Frame(logs: seq<Log>, calls: seq<Frame>)

  // ---- Reference orders ----

  // Logs frame by frame, each frame before its calls, calls left to right.
  function PreOrder(f: Frame): seq<Log> {
    f.logs + PreOrders(f.calls)
  }

  function PreOrders(fs: seq<Frame>): seq<Log> {
    if fs == [] then [] else PreOrder(fs[0]) + PreOrders(fs[1..])
  }

  // The logs made directly by the frames of one level, and the frames of the next level.
  function DirectLogs(fs: seq<Frame>): seq<Log> {
    if fs == [] then [] else fs[0].logs + DirectLogs(fs[1..])
  }

  function NextLevel(fs: seq<Frame>): seq<Frame> {
    if fs == [] then [] else fs[0].calls + NextLevel(fs[1..])
  }

  function Size(f: Frame): nat
    ensures Size(f) >= 1
  {
    1 + Sizes(f.calls)
  }

  function Sizes(fs: seq<Frame>): nat
    ensures fs != [] ==> Sizes(fs) >= 1
  {
    if fs == [] then 0 else Size(fs[0]) + Sizes(fs[1..])
  }

  lemma {:induction false} SizesAppend(a: seq<Frame>, b: seq<Frame>)
    ensures Sizes(a + b) == Sizes(a) + Sizes(b)
  {
    if a == [] {
      assert a + b == b;
    } else {
      assert (a + b)[1..] == a[1..] + b;
      SizesAppend(a[1..], b);
    }
  }

  lemma {:induction false} NextLevelSmaller(fs: seq<Frame>)
    ensures Sizes(NextLevel(fs)) + |fs| == Sizes(fs)
  {
    if fs != [] {
      NextLevelSmaller(fs[1..]);
      SizesAppend(fs[0].calls, NextLevel(fs[1..]));
    }
  }

  // Logs level by level.
  function LevelOrder(fs: seq<Frame>): seq<Log>
    decreases Sizes(fs)
  {
    if fs == [] then []
    else
      NextLevelSmaller(fs);
      DirectLogs(fs) + LevelOrder(NextLevel(fs))
  }

  // ---- Nothing is lost or duplicated ----

  lemma {:induction false} PreOrdersAppend(a: seq<Frame>, b: seq<Frame>)
    ensures PreOrders(a + b) == PreOrders(a) + PreOrders(b)
  {
    if a == [] {
      assert a + b == b;
    } else {
      assert (a + b)[1..] == a[1..] + b;
      PreOrdersAppend(a[1..], b);
    }
  }

  lemma {:induction false} OneLevelDown(fs: seq<Frame>)
    ensures multiset(PreOrders(fs)) == multiset(DirectLogs(fs)) + multiset(PreOrders(NextLevel(fs)))
  {
    if fs != [] {
      OneLevelDown(fs[1..]);
      PreOrdersAppend(fs[0].calls, NextLevel(fs[1..]));
    }
  }

  // The level order is a permutation of the pre-order of the whole tree.
  lemma {:induction false} LevelOrderPermutes(fs: seq<Frame>)
    ensures multiset(LevelOrder(fs)) == multiset(PreOrders(fs))
    decreases Sizes(fs)
  {
    if fs != [] {
      NextLevelSmaller(fs);
      OneLevelDown(fs);
      LevelOrderPermutes(NextLevel(fs));
    }
  }

  // ---- The order is by depth ----

  // The logs made d calls below f, calls left to right.
  function AtDepth(f: Frame, d: nat): seq<Log> {
    if d == 0 then f.logs else AtDepths(f.calls, d - 1)
  }

  function AtDepths(fs: seq<Frame>, d: nat): seq<Log> {
    if fs == [] then [] else AtDepth(fs[0], d) + AtDepths(fs[1..], d)
  }

  // The logs of the first n depths, one depth after the other.
  function Shallow(fs: seq<Frame>, n: nat): seq<Log> {
    if n == 0 then [] else Shallow(fs, n - 1) + AtDepths(fs, n - 1)
  }

  lemma {:induction false} AtDepthsAppend(a: seq<Frame>, b: seq<Frame>, d: nat)
    ensures AtDepths(a + b, d) == AtDepths(a, d) + AtDepths(b, d)
  {
    if a == [] {
      assert a + b == b;
    } else {
      assert (a + b)[1..] == a[1..] + b;
      AtDepthsAppend(a[1..], b, d);
    }
  }

  lemma {:induction false} DepthSteps(fs: seq<Frame>, d: nat)
    ensures AtDepths(fs, 0) == DirectLogs(fs)
    ensures AtDepths(fs, d + 1) == AtDepths(NextLevel(fs), d)
  {
    if fs != [] {
      DepthSteps(fs[1..], d);
      AtDepthsAppend(fs[0].calls, NextLevel(fs[1..]), d);
    }
  }

  lemma {:induction false} ShallowSteps(fs: seq<Frame>, n: nat)
    ensures Shallow(fs, n + 1) == DirectLogs(fs) + Shallow(NextLevel(fs), n)
  {
    hide AtDepths;
    if n == 0 {
      DepthSteps(fs, 0);
      assert Shallow(fs, 0) == [];
    } else {
      ShallowSteps(fs, n - 1);
      DepthSteps(fs, n - 1);
    }
  }

  // The level order lists the logs depth by depth, within a depth from left to right.
  lemma {:induction false} LevelOrderByDepth(fs: seq<Frame>, n: nat)
    requires n >= Sizes(fs)
    ensures LevelOrder(fs) == Shallow(fs, n)
    decreases n
  {
    hide Shallow;
    hide DirectLogs;
    hide NextLevel;
    hide Size;
    if fs == [] {
      NothingShallow(n);
    } else {
      NextLevelSmaller(fs);
      ShallowSteps(fs, n - 1);
      LevelOrderByDepth(NextLevel(fs), n - 1);
    }
  }

  lemma {:induction false} NothingShallow(n: nat)
    ensures Shallow([], n) == []
  {
    if n > 0 {
      NothingShallow(n - 1);
    }
  }

  // ---- The queue in the middle of a level: rest of the level, then the next one so far ----

  lemma {:induction false} NextLevelAppend(a: seq<Frame>, b: seq<Frame>)
    ensures NextLevel(a + b) == NextLevel(a) + NextLevel(b)
    ensures DirectLogs(a + b) == DirectLogs(a) + DirectLogs(b)
  {
    if a == [] {
      assert a + b == b;
    } else {
      assert (a + b)[1..] == a[1..] + b;
      NextLevelAppend(a[1..], b);
    }
  }

  // What is still to be collected when rest is left of a level and next is known of the following one.
  function Pending(rest: seq<Frame>, next: seq<Frame>): seq<Log> {
    DirectLogs(rest) + LevelOrder(next + NextLevel(rest))
  }

  lemma PendingStep(rest: seq<Frame>, next: seq<Frame>)
    requires rest != []
    ensures Pending(rest, next) == rest[0].logs + Pending(rest[1..], next + rest[0].calls)
  {
    assert next + NextLevel(rest) == next + rest[0].calls + NextLevel(rest[1..]);
  }

  lemma PendingTurn(next: seq<Frame>)
    ensures Pending([], next) == Pending(next, [])
  {
    assert next + NextLevel([]) == next;
    assert [] + NextLevel(next) == NextLevel(next);
    if next == [] {
      assert LevelOrder(next) == [];
    }
  }

  lemma PendingStart(f: Frame)
    ensures Pending([f], []) == LevelOrder([f])
  {
    PendingTurn([f]);
    assert [f] + NextLevel([]) == [f];
  }

  lemma PendingEnd()
    ensures Pending([], []) == []
  {
  }

  lemma PreOrdersOne(f: Frame)
    ensures PreOrders([f]) == PreOrder(f)
  {
    assert PreOrders([f]) == PreOrder(f) + PreOrders([f][1..]);
  }

  // One round of the loop on the queue rest + next: its front is the first frame left of the level.
  lemma QueueStep(stack: seq<Frame>, rest: seq<Frame>, next: seq<Frame>)
    requires stack == rest + next && rest != []
    ensures stack[0] == rest[0]
    ensures stack[1..] + stack[0].calls == rest[1..] + (next + rest[0].calls)
    ensures Sizes(stack[1..] + stack[0].calls) < Sizes(stack)
    ensures Pending(rest, next) == stack[0].logs + Pending(rest[1..], next + rest[0].calls)
  {
    hide LevelOrder;
    hide NextLevel;
    PendingStep(rest, next);
    SizesAppend(stack[1..], stack[0].calls);
  }

  // The aggregation loop: pop the front of the queue, take its logs, append its calls.
  method SimulatedLogs(result: Frame) returns (logs: seq<Log>)
    ensures logs == LevelOrder([result])
    ensures multiset(logs) == multiset(PreOrder(result))
  {
    hide *;
    logs := [];
    var stack := [result];
    ghost var rest, next := [result], [];
    PendingStart(result);
    assert [result] + [] == [result];
    while |stack| > 0
      invariant stack == rest + next && (rest == [] ==> next == [])
      invariant logs + Pending(rest, next) == LevelOrder([result])
      decreases Sizes(stack)
    {
      QueueStep(stack, rest, next);
      var call := stack[0];
      stack := stack[1..];
      ghost var before := logs;
      for i := 0 to |call.logs|
        invariant logs == before + call.logs[..i]
      {
        logs := logs + [call.logs[i]];
      }
      assert call.logs[..|call.logs|] == call.logs;
      stack := stack + call.calls;
      rest, next := rest[1..], next + call.calls;
      if rest == [] {
        PendingTurn(next);
        rest, next := next, [];
      }
    }
    PendingEnd();
    LevelOrderPermutes([result]);
    PreOrdersOne(result);
  }
}
