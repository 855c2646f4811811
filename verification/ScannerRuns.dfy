/** Runs of the scanner that show what requeueing costs. */
module ScannerRuns {
  import opened Common
  import opened Scanner

  ghost predicate Reachable(s: State) {
    exists states, steps :: RunTo(states, steps, s)
  }

  ghost predicate RunTo(states: seq<State>, steps: seq<Step>, s: State) {
    IsRun(states, steps) && states[|steps|] == s
  }

  lemma Start()
    ensures Reachable(Init(0))
  {
    assert RunTo([Init(0)], [], Init(0));
  }

  lemma Go(s: State, step: Step)
    requires Reachable(s) && Enabled(s, step)
    ensures Reachable(Apply(s, step))
  {
    var states, steps :| RunTo(states, steps, s);
    assert RunTo(states + [Apply(s, step)], steps + [step], Apply(s, step));
  }

  const A := Entry(1, 0, "a")
  const B := Entry(2, 0, "b")

  /** Blocks 1 and 2 hold one transaction each; both are queued. */
  const TwoQueued := Init(0).(start := Some(0), heads := [2], scanned := [1, 2], found := [A, B],
                              producer := Scanning(3, 2), queue := [A, B])

  const OneQueued := Init(0).(start := Some(0), heads := [2], scanned := [1], found := [A],
                              producer := Scanning(2, 2), queue := [A])

  lemma OneQueuedReachable()
    ensures Reachable(OneQueued)
  {
    Start();
    Go(Init(0), Observe(2, 0));
    var a := Apply(Init(0), Observe(2, 0));
    Go(a, FilterTrans(["a"]));
    assert Entries(1, ["a"]) == [A];
    var b := Apply(a, FilterTrans(["a"]));
    Go(b, Send);
    assert Apply(b, Send) == OneQueued;
  }

  lemma TwoQueuedReachable()
    ensures Reachable(TwoQueued)
  {
    OneQueuedReachable();
    Go(OneQueued, FilterTrans(["b"]));
    assert Entries(2, ["b"]) == [B];
    var d := OneQueued.(scanned := [1, 2], found := [A, B], producer := Enqueuing([B], 3, 2));
    assert d == Apply(OneQueued, FilterTrans(["b"]));
    Go(d, Send);
    assert Apply(d, Send) == TwoQueued;
  }

  /** A's receipt is late, so A is put back behind B; B is handled and block 2 stored while A, found
      in block 1, is still queued; then block 1 is stored. */
  lemma RequeueBreaksCheckpoint() returns (s: State, t: State)
    ensures Reachable(s) && s.checkpoints == [2] && A in s.found && A.block < 2 && s.queue == [A]
    ensures Reachable(t) && t.checkpoints == [2, 1]
  {
    TwoQueuedReachable();
    Go(TwoQueued, Receive);
    var a := TwoQueued.(consumer := Holding(A), queue := [B]);
    assert a == Apply(TwoQueued, Receive);
    Go(a, NoReceipt);
    Go(a.(consumer := Requeuing(A)), Requeue);
    var b := TwoQueued.(queue := [B, A]);
    assert b == Apply(a.(consumer := Requeuing(A)), Requeue);
    Go(b, Receive);
    var c := TwoQueued.(consumer := Holding(B), queue := [A]);
    assert c == Apply(b, Receive);
    Go(c, Handle(true, 2));
    s := Apply(c, Handle(true, 2));
    Go(s, Receive);
    var d := Apply(s, Receive);
    Go(d, Handle(true, 1));
    t := Apply(d, Handle(true, 1));
  }

  /** Two transactions of block 1, both queued. */
  const Pair := Init(0).(start := Some(0), heads := [1], scanned := [1], found := [A, A2],
                         producer := Scanning(2, 1), queue := [A, A2])

  const A2 := Entry(1, 1, "b")

  /** A run of steady steps whose receipts carry their block. */
  ghost predicate SteadyTo(states: seq<State>, steps: seq<Step>, s: State) {
    IsSteadyRun(states, steps) && states[|steps|] == s
  }

  lemma GoSteady(states: seq<State>, steps: seq<Step>, step: Step, t: State)
    returns (states': seq<State>, steps': seq<Step>)
    requires IsSteadyRun(states, steps) && Enabled(states[|steps|], step) && Steady(states[|steps|], step)
    requires t == Apply(states[|steps|], step)
    ensures SteadyTo(states', steps', t) && steps' == steps + [step]
  {
    states', steps' := states + [t], steps + [step];
  }

  lemma PairRun() returns (states: seq<State>, steps: seq<Step>)
    ensures SteadyTo(states, steps, Pair)
  {
    var a := Init(0).(start := Some(0), heads := [1], producer := Scanning(1, 1));
    states, steps := GoSteady([Init(0)], [], Observe(1, 0), a);
    assert Entries(1, ["a", "b"]) == [A, A2];
    var b := a.(scanned := [1], found := [A, A2], producer := Enqueuing([A, A2], 2, 1));
    states, steps := GoSteady(states, steps, FilterTrans(["a", "b"]), b);
    var c := b.(queue := [A], producer := Enqueuing([A2], 2, 1));
    states, steps := GoSteady(states, steps, Send, c);
    states, steps := GoSteady(states, steps, Send, Pair);
  }

  /** An ordinary run, without any put-back: the first of two transactions of block 1 is handled and
      block 1 stored. A restart now begins at block 2 and loses the second one. */
  lemma StoredBlockLosesRest() returns (states: seq<State>, steps: seq<Step>, s: State)
    ensures SteadyTo(states, steps, s) && s.checkpoints == [1] && s.queue == [A2]
    ensures SafeAt(s, 1) && !RestartSafe(s, 1)
  {
    states, steps := PairRun();
    var a := Pair.(queue := [A2], consumer := Holding(A));
    states, steps := GoSteady(states, steps, Receive, a);
    s := a.(consumer := Receiving, gone := [(A, Distributed)], checkpoints := [1]);
    states, steps := GoSteady(states, steps, Handle(true, 1), s);
    assert A2 in s.found && !HasLeft(s, A2);
  }

  /** `all` was found in block 1. Its first entry waits to be put back; entries 1 to n - 1 are queued. */
  function Filling(all: seq<Entry>, n: nat): State
    requires 1 <= n < |all|
  {
    State(0, 0, Some(0), [1], [1], all, Enqueuing(all[n..], 2, 1), all[1..n], Requeuing(all[0]), [], [])
  }

  lemma FillingStarts(txs: seq<string>)
    requires |txs| > 1
    ensures Reachable(Filling(Entries(1, txs), 1))
  {
    var all := Entries(1, txs);
    Start();
    Go(Init(0), Observe(1, 0));
    var a := Apply(Init(0), Observe(1, 0));
    Go(a, FilterTrans(txs));
    var b := a.(scanned := [1], found := all, producer := Enqueuing(all, 2, 1));
    assert b == Apply(a, FilterTrans(txs));
    Go(b, Send);
    var c := b.(producer := Enqueuing(all[1..], 2, 1), queue := [all[0]]);
    assert c == Apply(b, Send);
    Go(c, Receive);
    var d := c.(queue := [], consumer := Holding(all[0]));
    assert d == Apply(c, Receive);
    Go(d, NoReceipt);
    assert all[1..1] == [];
    assert Filling(all, 1) == Apply(d, NoReceipt);
  }

  lemma {:induction false} FillingReachable(txs: seq<string>, n: nat)
    requires 1 <= n < |txs| && n <= Capacity + 1
    ensures Reachable(Filling(Entries(1, txs), n))
  {
    var all := Entries(1, txs);
    if n == 1 {
      FillingStarts(txs);
    } else {
      FillingReachable(txs, n - 1);
      Go(Filling(all, n - 1), Send);
      assert all[n - 1..][1..] == all[n..];
      assert all[1..n - 1] + [all[n - 1]] == all[1..n];
      assert Filling(all, n) == Apply(Filling(all, n - 1), Send);
    }
  }

  /** The consumer puts entries back into the queue that only it drains. The state that
      `Scanner.StuckIff` describes is reached, for one, through a block with two transactions more than
      the queue holds. */
  lemma RequeueDeadlocks(txs: seq<string>) returns (s: State)
    requires |txs| >= Capacity + 2
    ensures Reachable(s) && forall step :: !Enabled(s, step)
  {
    FillingReachable(txs, Capacity + 1);
    s := Filling(Entries(1, txs), Capacity + 1);
  }

  // ---------- when a stored block can be undercut ----------

  /** A longer run with the same beginning, whose receipts carry their block. */
  ghost predicate Continues(states: seq<State>, steps: seq<Step>, states': seq<State>, steps': seq<Step>) {
    IsRun(states', steps') && TrueReceipts(states', steps') && states <= states' && steps <= steps'
  }

  /** At or after step `from`, a block lower than `b` is stored. */
  ghost predicate StoresLower(states: seq<State>, steps: seq<Step>, from: nat, b: nat)
    requires IsRun(states, steps)
  {
    exists m :: from <= m < |steps| && Stores(states[m], steps[m]) && steps[m].blockNumber < b
  }

  ghost predicate CanFall(states: seq<State>, steps: seq<Step>, b: nat) {
    exists states', steps' :: Continues(states, steps, states', steps') && StoresLower(states', steps', |steps|, b)
  }

  lemma OneMore(states: seq<State>, steps: seq<Step>, step: Step) returns (states': seq<State>, steps': seq<Step>)
    requires IsRun(states, steps) && TrueReceipts(states, steps) && Enabled(states[|steps|], step)
    requires step.Handle? ==> step.blockNumber == states[|steps|].consumer.entry.block
    ensures Continues(states, steps, states', steps')
    ensures steps' == steps + [step] && states'[|steps'|] == Apply(states[|steps|], step)
  {
    states', steps' := states + [Apply(states[|steps|], step)], steps + [step];
  }

  /** The consumer can reach the i-th queued entry and store its block. */
  lemma {:induction false} ReachEntry(states: seq<State>, steps: seq<Step>, i: nat, b: nat)
    requires IsRun(states, steps) && TrueReceipts(states, steps) && states[|steps|].consumer.Receiving?
    requires i < |states[|steps|].queue| && states[|steps|].queue[i].block < b
    ensures CanFall(states, steps, b)
    decreases i
  {
    var states1, steps1 := OneMore(states, steps, Receive);
    if i == 0 {
      var store := Handle(true, states[|steps|].queue[0].block);
      var states2, steps2 := OneMore(states1, steps1, store);
      assert Stores(states2[|steps| + 1], steps2[|steps| + 1]);
      assert Continues(states, steps, states2, steps2) && StoresLower(states2, steps2, |steps|, b);
    } else {
      var states2, steps2 := OneMore(states1, steps1, StatusFail);
      ReachEntry(states2, steps2, i - 1, b);
      var states', steps' :| Continues(states2, steps2, states', steps') && StoresLower(states', steps', |steps2|, b);
      assert Continues(states, steps, states', steps') && StoresLower(states', steps', |steps|, b);
    }
  }

  lemma {:induction false} SafeOnward(states: seq<State>, steps: seq<Step>, j: nat, m: nat, b: nat)
    requires IsRun(states, steps) && j <= m < |states|
    requires states[j].start.Some? && b < NextBlock(states[j]) && SafeAt(states[j], b)
    ensures states[m].start.Some? && b < NextBlock(states[m]) && SafeAt(states[m], b)
  {
    if j < m {
      SafeOnward(states, steps, j, m - 1, b);
      RunCovers(states, steps, m - 1);
      SafeStays(states[m - 1], steps[m - 1], b);
      NextBlockRises(states[m - 1], steps[m - 1]);
    }
  }

  lemma SafeNotUndercut(states: seq<State>, steps: seq<Step>, k: nat, m: nat)
    requires IsRun(states, steps) && k < m < |steps| && Stores(states[k], steps[k]) && Stores(states[m], steps[m])
    requires NoneBelow(states[k].queue, steps[k].blockNumber)
    ensures steps[k].blockNumber <= steps[m].blockNumber
  {
    var b := steps[k].blockNumber;
    StoreSafeIff(states, steps, k);
    HeldBeforeUnsent(states, steps, k);
    RunFindsInOrder(states, steps, k);
    SafeOnward(states, steps, k + 1, m, b);
    HeldNotBelow(states, steps, m, b);
  }

  /** Right after a block was stored, the run can go on to store a lower one if and only if an entry
      found below it is queued. */
  lemma FallIff(states: seq<State>, steps: seq<Step>)
    requires IsRun(states, steps) && TrueReceipts(states, steps) && |steps| > 0
    requires Stores(states[|steps| - 1], steps[|steps| - 1])
    ensures var n, b := |steps|, steps[|steps| - 1].blockNumber;
            CanFall(states, steps, b) <==> !NoneBelow(states[n].queue, b)
  {
    var n, b := |steps|, steps[|steps| - 1].blockNumber;
    assert states[n].queue == states[n - 1].queue && states[n].consumer.Receiving?;
    if NoneBelow(states[n].queue, b) {
      forall states': seq<State>, steps': seq<Step> | Continues(states, steps, states', steps')
        ensures !StoresLower(states', steps', n, b)
      {
        assert steps'[n - 1] == steps[n - 1] && states'[n - 1] == states[n - 1];
        forall m | n <= m < |steps'| && Stores(states'[m], steps'[m])
          ensures b <= steps'[m].blockNumber
        {
          SafeNotUndercut(states', steps', n - 1, m);
        }
      }
    } else {
      var i :| 0 <= i < |states[n].queue| && states[n].queue[i].block < b;
      ReachEntry(states, steps, i, b);
    }
  }
}
