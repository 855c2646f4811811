/** The polling scanner: a producer that walks the chain, a bounded queue, and a consumer that puts
    entries without a receipt back (scan/scan.go, `WipeBlock`). */
module Scanner {
  import opened Common

  const Capacity: nat := 1000
  const Word: nat := 0x1_0000_0000_0000_0000

  /** A transaction as found: the block it was found in, its place there, its hash. */
  datatype Entry = Entry(block: nat, place: nat, tx: string)

  datatype Fate = DroppedAsFailed | Rejected | Distributed

  datatype ProducerPc =
    | Polling
    | Scanning(next: nat, head: nat)                        // about to filter block `next`
    | Enqueuing(rest: seq<Entry>, next: nat, head: nat)     // `rest` still to be sent on newTxn

  datatype ConsumerPc = Receiving | Holding(entry: Entry) | Requeuing(entry: Entry)

  datatype State = State(
    initBlock: nat,
    current: nat,                   // currentBlockNum
    start: Option<nat>,             // history: the block scanning started after
    heads: seq<nat>,                // history: heads observed
    scanned: seq<nat>,              // history: blocks passed to FilterTrans
    found: seq<Entry>,              // history: transactions found
    producer: ProducerPc,
    queue: seq<Entry>,
    consumer: ConsumerPc,
    gone: seq<(Entry, Fate)>,       // history: entries that left for good
    checkpoints: seq<nat>)          // history: values passed to SetStartBlock

  function Init(initBlock: nat): State {
    State(initBlock, 0, None, [], [], [], Polling, [], Receiving, [], [])
  }

  datatype Step =
    | Observe(head: nat, stored: nat)    // BlockNumber(), and what GetStartBlock would return
    | FilterTrans(txs: seq<string>)
    | Send
    | RoundDone
    | Receive
    | StatusFail
    | NoReceipt
    | Requeue
    | Handle(pass: bool, blockNumber: nat)

  predicate Enabled(s: State, step: Step) {
    match step
    case Observe(head, stored) => s.producer.Polling? && head < Word - 1 && stored < Word
    case FilterTrans(_) => s.producer.Scanning? && s.producer.next <= s.producer.head
    case Send => s.producer.Enqueuing? && s.producer.rest != [] && |s.queue| < Capacity
    case RoundDone => s.producer.Scanning? && s.producer.next > s.producer.head
    case Receive => s.consumer.Receiving? && s.queue != []
    case StatusFail => s.consumer.Holding?
    case NoReceipt => s.consumer.Holding?
    case Requeue => s.consumer.Requeuing? && |s.queue| < Capacity
    case Handle(_, _) => s.consumer.Holding?
  }

  /** Where scanning starts: the stored block, or the configured one if none is stored. */
  function StartFrom(stored: nat, initBlock: nat): nat {
    if stored == 0 then initBlock else stored
  }

  function ApplyObserve(s: State, head: nat, stored: nat): State {
    var t := s.(heads := s.heads + [head]);
    if head == 0 then t
    else
      var u := if s.current > 0 then t
               else t.(current := StartFrom(stored, s.initBlock), start := Some(StartFrom(stored, s.initBlock)));
      if u.current < head then u.(producer := Scanning((u.current + 1) % Word, head)) else u
  }

  function Entries(block: nat, txs: seq<string>): seq<Entry> {
    seq(|txs|, i requires 0 <= i < |txs| => Entry(block, i, txs[i]))
  }

  function ApplyFilterTrans(s: State, txs: seq<string>): State
    requires s.producer.Scanning?
  {
    var es := Entries(s.producer.next, txs);
    var t := s.(scanned := s.scanned + [s.producer.next], found := s.found + es);
    var next := (s.producer.next + 1) % Word;
    if txs == [] then t.(producer := Scanning(next, s.producer.head))
    else t.(producer := Enqueuing(es, next, s.producer.head))
  }

  function ApplySend(s: State): State
    requires s.producer.Enqueuing? && s.producer.rest != []
  {
    var rest := s.producer.rest[1..];
    s.(queue := s.queue + [s.producer.rest[0]],
       producer := if rest == [] then Scanning(s.producer.next, s.producer.head)
                   else Enqueuing(rest, s.producer.next, s.producer.head))
  }

  function Leave(s: State, fate: Fate): State
    requires s.consumer.Holding?
  {
    s.(consumer := Receiving, gone := s.gone + [(s.consumer.entry, fate)])
  }

  function Apply(s: State, step: Step): State
    requires Enabled(s, step)
  {
    match step
    case Observe(head, stored) => ApplyObserve(s, head, stored)
    case FilterTrans(txs) => ApplyFilterTrans(s, txs)
    case Send => ApplySend(s)
    case RoundDone => s.(current := s.producer.head, producer := Polling)
    case Receive => s.(consumer := Holding(s.queue[0]), queue := s.queue[1..])
    case StatusFail => Leave(s, DroppedAsFailed)
    case NoReceipt => s.(consumer := Requeuing(s.consumer.entry))
    case Requeue => s.(queue := s.queue + [s.consumer.entry], consumer := Receiving)
    case Handle(pass, blockNumber) =>
      if pass then Leave(s, Distributed).(checkpoints := s.checkpoints + [blockNumber]) else Leave(s, Rejected)
  }

  ghost predicate IsRun(states: seq<State>, steps: seq<Step>) {
    && |states| == |steps| + 1
    && states[0].initBlock < Word && states[0] == Init(states[0].initBlock)
    && forall k :: 0 <= k < |steps| ==> Enabled(states[k], steps[k]) && states[k + 1] == Apply(states[k], steps[k])
  }

  // ---------- coverage ----------

  function Range(a: nat, b: nat): seq<nat> {
    if a >= b then [] else Range(a, b - 1) + [b - 1]
  }

  function Max(a: nat, b: nat): nat {
    if a < b then b else a
  }

  function Highest(heads: seq<nat>): nat {
    if heads == [] then 0 else Max(Highest(heads[..|heads| - 1]), heads[|heads| - 1])
  }

  lemma {:induction false} RangeAt(a: nat, b: nat, i: nat)
    requires a <= b
    ensures |Range(a, b)| == b - a
    ensures i < b - a ==> Range(a, b)[i] == a + i
  {
    if a < b { RangeAt(a, b - 1, if i < b - 1 - a then i else 0); }
  }

  /** Blocks are filtered one after the other from the start; `current` is how far rounds have come. */
  ghost predicate Covered(s: State) {
    && s.initBlock < Word && s.current < Word
    && (s.start.None? ==> s.producer.Polling? && s.current == 0 && s.scanned == [] && Highest(s.heads) == 0)
    && (s.start.Some? ==>
          match s.producer
          case Polling => s.current > 0 && s.current == Max(s.start.value, Highest(s.heads))
                          && s.scanned == Range(s.start.value + 1, s.current + 1)
          case Scanning(next, head) => Midway(s, next, head)
          case Enqueuing(rest, next, head) => Midway(s, next, head))
  }

  ghost predicate Midway(s: State, next: nat, head: nat)
    requires s.start.Some?
  {
    && s.start.value <= s.current < next <= head + 1 < Word && s.current < head
    && head == Max(s.start.value, Highest(s.heads))
    && s.scanned == Range(s.start.value + 1, next)
  }

  lemma CoveredObserve(s: State, head: nat, stored: nat)
    requires Covered(s) && Enabled(s, Observe(head, stored))
    ensures Covered(Apply(s, Observe(head, stored)))
  {
    assert (s.heads + [head])[..|s.heads|] == s.heads;
  }

  lemma CoveredFilter(s: State, txs: seq<string>)
    requires Covered(s) && Enabled(s, FilterTrans(txs))
    ensures Covered(ApplyFilterTrans(s, txs))
  {
  }

  lemma CoveredKept(s: State, step: Step)
    requires Covered(s) && Enabled(s, step)
    ensures Covered(Apply(s, step))
  {
    match step
    case Observe(head, stored) => CoveredObserve(s, head, stored);
    case FilterTrans(txs) => CoveredFilter(s, txs);
    case _ =>
  }

  lemma {:induction false} RunCovers(states: seq<State>, steps: seq<Step>, k: nat)
    requires IsRun(states, steps) && k < |states|
    ensures Covered(states[k])
  {
    if k > 0 {
      RunCovers(states, steps, k - 1);
      CoveredKept(states[k - 1], steps[k - 1]);
    }
  }

  /** Between rounds, the blocks filtered are exactly start+1, start+2, ... up to the larger of start
      and the highest head seen, each once and in order, whatever the heads did. */
  lemma PollingCoverage(states: seq<State>, steps: seq<Step>, k: nat)
    requires IsRun(states, steps) && k < |states| && states[k].producer.Polling?
    ensures states[k].start.None? ==> states[k].scanned == [] && Highest(states[k].heads) == 0
    ensures states[k].start.Some? ==>
              var last := Max(states[k].start.value, Highest(states[k].heads));
              && |states[k].scanned| == last - states[k].start.value
              && forall i :: 0 <= i < |states[k].scanned| ==> states[k].scanned[i] == states[k].start.value + 1 + i
  {
    RunCovers(states, steps, k);
    var s := states[k];
    if s.start.Some? {
      RangeAt(s.start.value + 1, s.current + 1, 0);
      forall i | 0 <= i < |s.scanned|
        ensures s.scanned[i] == s.start.value + 1 + i
      {
        RangeAt(s.start.value + 1, s.current + 1, i);
      }
    }
  }

  lemma {:induction false} HighestIs(heads: seq<nat>)
    ensures forall i :: 0 <= i < |heads| ==> heads[i] <= Highest(heads)
    ensures Highest(heads) == 0 || Highest(heads) in heads
  {
    if heads != [] { HighestIs(heads[..|heads| - 1]); }
  }

  // ---------- where scanning starts ----------

  /** The first head that the node gives decides where scanning starts: after the stored block, or after
      the configured one if none is stored. */
  ghost predicate StartsAt(states: seq<State>, steps: seq<Step>, j: nat, b: nat)
    requires |states| == |steps| + 1 && j < |steps|
  {
    && steps[j].Observe? && steps[j].head > 0
    && (forall i :: 0 <= i < j && steps[i].Observe? ==> steps[i].head == 0)
    && b == if steps[j].stored > 0 then steps[j].stored else states[0].initBlock
  }

  /** Nothing is known of the start before a head was given, and the configuration never changes. */
  lemma {:induction false} BeforeStart(states: seq<State>, steps: seq<Step>, k: nat)
    requires IsRun(states, steps) && k < |states|
    requires forall i :: 0 <= i < k && steps[i].Observe? ==> steps[i].head == 0
    ensures states[k].start.None?
  {
    if k > 0 {
      BeforeStart(states, steps, k - 1);
      RunCovers(states, steps, k - 1);
    }
  }

  lemma {:induction false} SameConfig(states: seq<State>, steps: seq<Step>, k: nat)
    requires IsRun(states, steps) && k < |states|
    ensures states[k].initBlock == states[0].initBlock
  {
    if k > 0 { SameConfig(states, steps, k - 1); }
  }

  /** That start is kept for the rest of the run, and the first block filtered is the one after it. */
  lemma {:induction false} StartKept(states: seq<State>, steps: seq<Step>, j: nat, b: nat, k: nat)
    requires IsRun(states, steps) && j < k < |states| && StartsAt(states, steps, j, b)
    ensures states[k].start == Some(b)
    ensures states[k].scanned != [] ==> states[k].scanned[0] == b + 1
  {
    RunCovers(states, steps, k);
    if k == j + 1 {
      BeforeStart(states, steps, j);
      SameConfig(states, steps, j);
      RunCovers(states, steps, j);
    } else {
      StartKept(states, steps, j, b, k - 1);
      RunCovers(states, steps, k - 1);
    }
    if states[k].scanned != [] { FirstScanned(states[k]); }
  }

  lemma FirstScanned(s: State)
    requires Covered(s) && s.start.Some? && s.scanned != []
    ensures s.scanned[0] == s.start.value + 1
  {
    var end := if s.producer.Polling? then s.current + 1 else s.producer.next;
    assert s.scanned == Range(s.start.value + 1, end);
    assert end > s.start.value + 1;
    RangeAt(s.start.value + 1, end, 0);
  }

  /** The producer's loops over a sequence of observed heads, once the start block is known. */
  method Poll(start: nat, heads: seq<nat>) returns (scanned: seq<nat>, current: nat)
    requires start < Word && forall i :: 0 <= i < |heads| ==> heads[i] < Word - 1
    ensures current == Max(start, Highest(heads))
    ensures scanned == Range(start + 1, current + 1)
  {
    scanned, current := [], start;
    for r := 0 to |heads|
      invariant current == Max(start, Highest(heads[..r])) < Word
      invariant scanned == Range(start + 1, current + 1)
    {
      assert heads[..r + 1][..r] == heads[..r];
      var head := heads[r];
      if head != 0 && current < head {
        var i := (current + 1) % Word;
        while i <= head
          invariant current < i <= head + 1
          invariant scanned == Range(start + 1, i)
          decreases Word - i
        {
          scanned := scanned + [i];
          i := (i + 1) % Word;
        }
        current := head;
      }
    }
    assert heads[..|heads|] == heads;
  }

  // ---------- conservation ----------

  function Unsent(p: ProducerPc): seq<Entry> {
    if p.Enqueuing? then p.rest else []
  }

  function InHand(c: ConsumerPc): seq<Entry> {
    if c.Receiving? then [] else [c.entry]
  }

  function Left(gone: seq<(Entry, Fate)>): seq<Entry> {
    if gone == [] then [] else Left(gone[..|gone| - 1]) + [gone[|gone| - 1].0]
  }

  lemma LeftAppend(gone: seq<(Entry, Fate)>, e: Entry, f: Fate)
    ensures Left(gone + [(e, f)]) == Left(gone) + [e]
  {
    assert (gone + [(e, f)])[..|gone|] == gone;
  }

  lemma {:induction false} LeftAt(gone: seq<(Entry, Fate)>)
    ensures |Left(gone)| == |gone| && forall i :: 0 <= i < |gone| ==> Left(gone)[i] == gone[i].0
  {
    if gone != [] { LeftAt(gone[..|gone| - 1]); }
  }

  /** Every entry there is: those that left, the one in hand, those queued, those still to be sent. */
  function Whole(s: State): seq<Entry> {
    Left(s.gone) + InHand(s.consumer) + s.queue + Unsent(s.producer)
  }

  lemma WholeSend(s: State)
    requires Enabled(s, Send)
    ensures Whole(ApplySend(s)) == Whole(s)
  {
    var a, u := Left(s.gone) + InHand(s.consumer) + s.queue, s.producer.rest;
    assert u == [u[0]] + u[1..];
    assert Unsent(ApplySend(s).producer) == u[1..];
    assert Left(s.gone) + InHand(s.consumer) + (s.queue + [u[0]]) == a + [u[0]];
  }

  lemma WholeReceive(l: seq<Entry>, q: seq<Entry>, u: seq<Entry>)
    requires q != []
    ensures l + [] + q + u == l + [q[0]] + q[1..] + u
  {
  }

  lemma WholeLeave(s: State, fate: Fate)
    requires s.consumer.Holding?
    ensures Whole(Leave(s, fate)) == Whole(s)
  {
    LeftAppend(s.gone, s.consumer.entry, fate);
  }

  lemma WholeKept(s: State, step: Step)
    requires Enabled(s, step) && !step.FilterTrans? && (step.Requeue? ==> s.queue == [])
    ensures Whole(Apply(s, step)) == Whole(s)
  {
    match step
    case Send => WholeSend(s);
    case Receive => WholeReceive(Left(s.gone), s.queue, Unsent(s.producer));
    case Requeue => assert Left(s.gone) + [] + ([] + InHand(s.consumer)) == Left(s.gone) + InHand(s.consumer) + [];
    case StatusFail => WholeLeave(s, DroppedAsFailed);
    case Handle(pass, b) => WholeLeave(s, if pass then Distributed else Rejected);
    case _ =>
  }

  lemma WholeGrows(s: State, txs: seq<string>)
    requires Enabled(s, FilterTrans(txs))
    ensures Whole(Apply(s, FilterTrans(txs))) == Whole(s) + Entries(s.producer.next, txs)
  {
    assert txs == [] ==> Entries(s.producer.next, txs) == [];
  }

  /** Everything that was found is somewhere, once. */
  ghost predicate Conserved(s: State) {
    multiset(s.found) == multiset(Whole(s))
  }

  lemma Rotated<T>(l: seq<T>, e: T, q: seq<T>, u: seq<T>)
    ensures multiset(l + [e] + q + u) == multiset(l + [] + (q + [e]) + u)
  {
    assert l + [] + (q + [e]) + u == l + (q + [e]) + u;
  }

  lemma RequeueConserves(s: State)
    requires Enabled(s, Requeue)
    ensures multiset(Whole(Apply(s, Requeue))) == multiset(Whole(s))
  {
    Rotated(Left(s.gone), s.consumer.entry, s.queue, Unsent(s.producer));
  }

  lemma GrownAlike<T>(a: seq<T>, b: seq<T>, c: seq<T>)
    requires multiset(a) == multiset(b)
    ensures multiset(a + c) == multiset(b + c)
  {
  }

  lemma FilterConserves(s: State, txs: seq<string>)
    requires Conserved(s) && Enabled(s, FilterTrans(txs))
    ensures Conserved(Apply(s, FilterTrans(txs)))
  {
    WholeGrows(s, txs);
    GrownAlike(s.found, Whole(s), Entries(s.producer.next, txs));
  }

  lemma FoundKept(s: State, step: Step)
    requires Enabled(s, step) && !step.FilterTrans?
    ensures Apply(s, step).found == s.found
  {
  }

  lemma ConservedKept(s: State, step: Step)
    requires Conserved(s) && Enabled(s, step)
    ensures Conserved(Apply(s, step))
  {
    if step.FilterTrans? {
      FilterConserves(s, step.txs);
    } else {
      FoundKept(s, step);
      if step.Requeue? { RequeueConserves(s); } else { WholeKept(s, step); }
    }
  }

  lemma {:induction false} RunConserves(states: seq<State>, steps: seq<Step>, k: nat)
    requires IsRun(states, steps) && k < |states|
    ensures Conserved(states[k])
  {
    if k > 0 {
      RunConserves(states, steps, k - 1);
      ConservedKept(states[k - 1], steps[k - 1]);
    }
  }

  /** Block order, then order within the block. */
  predicate Before(a: Entry, b: Entry) {
    a.block < b.block || (a.block == b.block && a.place < b.place)
  }

  /** Entries are found in block order, no entry twice. */
  ghost predicate Sorted(found: seq<Entry>) {
    forall i, j :: 0 <= i < j < |found| ==> Before(found[i], found[j])
  }

  ghost predicate FoundInOrder(s: State) {
    && Sorted(s.found)
    && (s.found != [] ==> s.start.Some?)
    && forall i :: 0 <= i < |s.found| ==> s.found[i].block < NextBlock(s)
  }

  /** The first block not yet filtered. */
  ghost function NextBlock(s: State): nat {
    if s.producer.Polling? then s.current + 1 else s.producer.next
  }

  lemma FoundInOrderFilter(s: State, txs: seq<string>)
    requires Covered(s) && Enabled(s, FilterTrans(txs)) && FoundInOrder(s)
    ensures FoundInOrder(ApplyFilterTrans(s, txs))
  {
  }

  lemma FoundInOrderKept(s: State, step: Step)
    requires Covered(s) && Enabled(s, step) && FoundInOrder(s)
    ensures FoundInOrder(Apply(s, step))
  {
    if step.FilterTrans? {
      FoundInOrderFilter(s, step.txs);
    } else {
      FoundKept(s, step);
      NextBlockGrows(s, step);
    }
  }

  lemma NextBlockGrows(s: State, step: Step)
    requires Covered(s) && Enabled(s, step) && !step.FilterTrans?
    ensures s.start.Some? ==> Apply(s, step).start.Some? && NextBlock(s) <= NextBlock(Apply(s, step))
  {
  }

  lemma {:induction false} RunFindsInOrder(states: seq<State>, steps: seq<Step>, k: nat)
    requires IsRun(states, steps) && k < |states|
    ensures FoundInOrder(states[k])
  {
    if k > 0 {
      RunCovers(states, steps, k - 1);
      RunFindsInOrder(states, steps, k - 1);
      FoundInOrderKept(states[k - 1], steps[k - 1]);
    }
  }

  lemma {:induction false} DistinctOccursOnce<T>(s: seq<T>, x: T)
    requires Distinct(s)
    ensures multiset(s)[x] <= 1
  {
    if s != [] {
      var n := |s| - 1;
      assert s == s[..n] + [s[n]];
      DistinctOccursOnce(s[..n], x);
      if x == s[n] { assert x !in s[..n]; }
    }
  }

  lemma {:induction false} OccursOnceDistinct<T>(s: seq<T>)
    requires forall x :: multiset(s)[x] <= 1
    ensures Distinct(s)
  {
    if s != [] {
      var n := |s| - 1;
      assert s == s[..n] + [s[n]];
      forall x ensures multiset(s[..n])[x] <= 1 {
        assert multiset(s)[x] >= multiset(s[..n])[x];
      }
      OccursOnceDistinct(s[..n]);
      assert multiset(s)[s[n]] == multiset(s[..n])[s[n]] + 1;
    }
  }

  lemma WholeDistinct(states: seq<State>, steps: seq<Step>, k: nat)
    requires IsRun(states, steps) && k < |states|
    ensures Distinct(Whole(states[k]))
    ensures forall e :: e in Whole(states[k]) <==> e in states[k].found
  {
    RunConserves(states, steps, k);
    RunFindsInOrder(states, steps, k);
    var s := states[k];
    forall x
      ensures multiset(Whole(s))[x] <= 1
    {
      DistinctOccursOnce(s.found, x);
    }
    OccursOnceDistinct(Whole(s));
    forall e
      ensures e in Whole(s) <==> e in s.found
    {
      assert e in Whole(s) <==> e in multiset(Whole(s));
      assert e in s.found <==> e in multiset(s.found);
    }
  }

  /** Requeueing neither loses nor duplicates: every entry found is waiting, queued, held or gone,
      and no entry leaves twice, so none reaches ReceiptDistribution twice. */
  lemma QueueConserves(states: seq<State>, steps: seq<Step>, k: nat)
    requires IsRun(states, steps) && k < |states|
    ensures multiset(states[k].found) == multiset(Left(states[k].gone) + InHand(states[k].consumer)
                                                  + states[k].queue + Unsent(states[k].producer))
    ensures forall i, j :: 0 <= i < j < |states[k].gone| ==> states[k].gone[i].0 != states[k].gone[j].0
    ensures forall i :: 0 <= i < |states[k].gone| ==> states[k].gone[i].0 in states[k].found
  {
    RunConserves(states, steps, k);
    WholeDistinct(states, steps, k);
    var s := states[k];
    LeftAt(s.gone);
    forall i | 0 <= i < |s.gone|
      ensures Whole(s)[i] == s.gone[i].0
    {
    }
  }

  /** What a filtered block adds to `found`: its transactions, in order, with that block and their places. */
  lemma FilterFinds(s: State, txs: seq<string>)
    requires Enabled(s, FilterTrans(txs))
    ensures var t := Apply(s, FilterTrans(txs));
            && |t.scanned| == |s.scanned| + 1 && |t.found| == |s.found| + |txs| && s.found <= t.found
            && forall i :: 0 <= i < |txs| ==> t.found[|s.found| + i] == Entry(t.scanned[|s.scanned|], i, txs[i])
  {
  }

  /** The blocks of the entries that were distributed, in order of leaving. */
  ghost function DistributedBlocks(gone: seq<(Entry, Fate)>): seq<nat> {
    if gone == [] then []
    else
      var n := |gone| - 1;
      DistributedBlocks(gone[..n]) + if gone[n].1.Distributed? then [gone[n].0.block] else []
  }

  /** How an entry leaves: failed, rejected by the middleware, or distributed; only then a block is stored. */
  lemma LeavesHow(s: State, step: Step)
    requires Enabled(s, step) && s.consumer.Holding?
    ensures var t, e := Apply(s, step), s.consumer.entry;
            match step
            case StatusFail => t.gone == s.gone + [(e, DroppedAsFailed)] && t.checkpoints == s.checkpoints
            case Handle(pass, b) =>
              && t.gone == s.gone + [(e, if pass then Distributed else Rejected)]
              && t.checkpoints == s.checkpoints + if pass then [b] else []
            case NoReceipt => t.gone == s.gone && t.checkpoints == s.checkpoints && t.consumer == Requeuing(e)
            case _ => t.gone == s.gone && t.checkpoints == s.checkpoints && t.consumer == s.consumer
  {
  }

  lemma StoredKept(s: State, step: Step)
    requires Enabled(s, step) && s.checkpoints == DistributedBlocks(s.gone)
    requires step.Handle? ==> step.blockNumber == s.consumer.entry.block
    ensures Apply(s, step).checkpoints == DistributedBlocks(Apply(s, step).gone)
  {
    if step.Handle? || step.StatusFail? {
      LeavesHow(s, step);
      DistributedAppend(s.gone, Apply(s, step).gone[|s.gone|]);
    } else {
      assert Apply(s, step).gone == s.gone && Apply(s, step).checkpoints == s.checkpoints;
    }
  }

  lemma DistributedAppend(gone: seq<(Entry, Fate)>, g: (Entry, Fate))
    ensures DistributedBlocks(gone + [g]) == DistributedBlocks(gone) + if g.1.Distributed? then [g.0.block] else []
  {
    assert (gone + [g])[..|gone|] == gone;
  }

  /** Where receipts carry their block, what is stored is exactly the blocks of the entries distributed. */
  lemma {:induction false} StoredIsDistributed(states: seq<State>, steps: seq<Step>, k: nat)
    requires IsRun(states, steps) && k < |states|
    requires forall j :: 0 <= j < |steps| && steps[j].Handle? ==> steps[j].blockNumber == states[j].consumer.entry.block
    ensures states[k].checkpoints == DistributedBlocks(states[k].gone)
  {
    if k > 0 {
      StoredIsDistributed(states, steps, k - 1);
      StoredKept(states[k - 1], steps[k - 1]);
    }
  }

  // ---------- checkpoints ----------

  ghost predicate HasLeft(s: State, e: Entry) {
    exists j :: 0 <= j < |s.gone| && s.gone[j].0 == e
  }

  /** Every transaction found below block `b` has left for good. */
  ghost predicate SafeAt(s: State, b: nat) {
    forall e :: e in s.found && e.block < b ==> HasLeft(s, e)
  }

  ghost predicate NeverFalls(blocks: seq<nat>) {
    forall i, j :: 0 <= i < j < |blocks| ==> blocks[i] <= blocks[j]
  }

  /** Entries leave, wait and are sent in the order they were found. */
  ghost predicate InOrder(s: State) {
    s.found == Whole(s)
  }

  /** Putting an entry back keeps the order exactly when nothing else is queued. */
  lemma RequeueKeepsOrderIff(s: State)
    requires InOrder(s) && Sorted(s.found) && Enabled(s, Requeue)
    ensures InOrder(Apply(s, Requeue)) <==> s.queue == []
  {
    if s.queue == [] {
      WholeKept(s, Requeue);
    } else {
      var n := |Left(s.gone)|;
      assert Whole(s)[n] == s.consumer.entry && Whole(s)[n + 1] == s.queue[0];
      assert Whole(Apply(s, Requeue))[n] == s.queue[0];
      assert Before(s.found[n], s.found[n + 1]);
    }
  }

  /** The hypothesis of the checkpoint theorem: entries are put back only into an empty queue, and a
      receipt carries the block its transaction was found in. */
  predicate Steady(s: State, step: Step)
    requires Enabled(s, step)
  {
    && (step.Requeue? ==> s.queue == [])
    && (step.Handle? ==> step.blockNumber == s.consumer.entry.block)
  }

  ghost predicate IsSteadyRun(states: seq<State>, steps: seq<Step>) {
    IsRun(states, steps) && forall k :: 0 <= k < |steps| ==> Steady(states[k], steps[k])
  }

  lemma InOrderKept(s: State, step: Step)
    requires InOrder(s) && Enabled(s, step) && Steady(s, step)
    ensures InOrder(Apply(s, step))
  {
    if step.FilterTrans? { WholeGrows(s, step.txs); } else { WholeKept(s, step); }
  }

  /** Checkpoints do not decrease, and none is past the last entry that left. */
  ghost predicate CheckpointsBehind(s: State) {
    && NeverFalls(s.checkpoints)
    && (s.checkpoints != [] ==> s.gone != [])
    && forall i :: 0 <= i < |s.checkpoints| ==> s.checkpoints[i] <= s.gone[|s.gone| - 1].0.block
  }

  lemma LeavesInOrder(s: State)
    requires InOrder(s) && Sorted(s.found) && s.consumer.Holding? && s.gone != []
    ensures s.gone[|s.gone| - 1].0.block <= s.consumer.entry.block
  {
    LeftAt(s.gone);
    var n := |s.gone|;
    assert s.found[n - 1] == s.gone[n - 1].0 && s.found[n] == s.consumer.entry;
  }

  lemma CheckpointsKept(s: State, step: Step)
    requires InOrder(s) && Sorted(s.found) && CheckpointsBehind(s) && Enabled(s, step) && Steady(s, step)
    ensures CheckpointsBehind(Apply(s, step))
  {
    var t := Apply(s, step);
    if step.Handle? || step.StatusFail? {
      assert t.gone[|s.gone|].0 == s.consumer.entry;
      if s.gone != [] { LeavesInOrder(s); }
    } else {
      assert t.gone == s.gone && t.checkpoints == s.checkpoints;
    }
  }

  lemma SortedIndex(found: seq<Entry>, a: nat, b: nat)
    requires Sorted(found) && a < |found| && b < |found| && found[a].block < found[b].block
    ensures a < b
  {
  }

  lemma {:induction false} RunSteady(states: seq<State>, steps: seq<Step>, k: nat)
    requires IsSteadyRun(states, steps) && k < |states|
    ensures InOrder(states[k]) && CheckpointsBehind(states[k])
  {
    if k > 0 {
      RunSteady(states, steps, k - 1);
      RunFindsInOrder(states, steps, k - 1);
      InOrderKept(states[k - 1], steps[k - 1]);
      CheckpointsKept(states[k - 1], steps[k - 1]);
    }
  }

  /** Checkpoint safety: entries leave in block order, then in-block order; stored values never
      decrease; and every transaction found in a block below a stored value has left for good. */
  lemma CheckpointSafe(states: seq<State>, steps: seq<Step>, k: nat)
    requires IsSteadyRun(states, steps) && k < |states|
    ensures forall i, j :: 0 <= i < j < |states[k].gone| ==> Before(states[k].gone[i].0, states[k].gone[j].0)
    ensures NeverFalls(states[k].checkpoints)
    ensures forall i :: 0 <= i < |states[k].checkpoints| ==> SafeAt(states[k], states[k].checkpoints[i])
  {
    RunSteady(states, steps, k);
    RunFindsInOrder(states, steps, k);
    var s := states[k];
    LeftAt(s.gone);
    var n := |s.gone|;
    assert forall i :: 0 <= i < n ==> s.found[i] == s.gone[i].0;
    forall i, e | 0 <= i < |s.checkpoints| && e in s.found && e.block < s.checkpoints[i]
      ensures HasLeft(s, e)
    {
      var j :| 0 <= j < |s.found| && s.found[j] == e;
      SortedIndex(s.found, j, n - 1);
    }
  }

  // ---------- checkpoints with any requeueing ----------

  /** What is still to be sent was found last. */
  ghost predicate UnsentLast(s: State) {
    var n := |s.found| - |Unsent(s.producer)|;
    n >= 0 && s.found[n..] == Unsent(s.producer)
  }

  lemma UnsentLastKept(s: State, step: Step)
    requires Enabled(s, step) && UnsentLast(s)
    ensures UnsentLast(Apply(s, step))
  {
    if step.FilterTrans? {
      var es := Entries(s.producer.next, step.txs);
      assert (s.found + es)[|s.found|..] == es;
    } else if step.Send? {
      var n := |s.found| - |s.producer.rest|;
      assert s.found[n..][1..] == s.found[n + 1..];
    } else {
      assert Apply(s, step).found == s.found && Unsent(Apply(s, step).producer) == Unsent(s.producer);
    }
  }

  lemma {:induction false} RunSendsLast(states: seq<State>, steps: seq<Step>, k: nat)
    requires IsRun(states, steps) && k < |states|
    ensures UnsentLast(states[k])
  {
    if k > 0 {
      RunSendsLast(states, steps, k - 1);
      UnsentLastKept(states[k - 1], steps[k - 1]);
    }
  }

  ghost predicate NoneBelow(entries: seq<Entry>, b: nat) {
    forall i :: 0 <= i < |entries| ==> b <= entries[i].block
  }

  lemma DistinctApart<T>(a: seq<T>, b: seq<T>, x: T)
    requires Distinct(a + b)
    ensures x in a ==> x !in b
  {
    forall i, j | 0 <= i < |a| && 0 <= j < |b|
      ensures a[i] != b[j]
    {
      var c := a + b;
      assert c[i] != c[|a| + j];
    }
  }

  lemma LeftWhat(s: State, e: Entry)
    ensures e in Left(s.gone) <==> HasLeft(s, e)
  {
    LeftAt(s.gone);
  }

  /** Everything below a block has left exactly when nothing below it is held, queued or unsent. */
  lemma SafeAtIff(states: seq<State>, steps: seq<Step>, k: nat, b: nat)
    requires IsRun(states, steps) && k < |states|
    ensures var s := states[k];
            SafeAt(s, b) <==>
            NoneBelow(InHand(s.consumer), b) && NoneBelow(s.queue, b) && NoneBelow(Unsent(s.producer), b)
  {
    WholeDistinct(states, steps, k);
    var s := states[k];
    var waiting := InHand(s.consumer) + s.queue + Unsent(s.producer);
    assert Whole(s) == Left(s.gone) + waiting;
    forall e | e in s.found && e !in waiting
      ensures HasLeft(s, e)
    {
      LeftWhat(s, e);
    }
    forall e | e in waiting
      ensures e in s.found && !HasLeft(s, e)
    {
      assert e in Whole(s);
      LeftWhat(s, e);
      DistinctApart(Left(s.gone), waiting, e);
    }
    assert SafeAt(s, b) <==> forall e :: e in waiting ==> b <= e.block;
  }

  /** The entry in hand was found before those still to be sent. */
  lemma HeldBeforeUnsent(states: seq<State>, steps: seq<Step>, k: nat)
    requires IsRun(states, steps) && k < |states| && states[k].consumer.Holding?
    ensures states[k].consumer.entry in states[k].found
    ensures NoneBelow(Unsent(states[k].producer), states[k].consumer.entry.block)
  {
    WholeDistinct(states, steps, k);
    RunSendsLast(states, steps, k);
    RunFindsInOrder(states, steps, k);
    var s, e := states[k], states[k].consumer.entry;
    var sent, unsent := Left(s.gone) + [e] + s.queue, Unsent(s.producer);
    assert e in sent && Whole(s) == sent + unsent;
    var n := |s.found| - |unsent|;
    assert e in s.found by { assert e in Whole(s); }
    DistinctApart(sent, unsent, e);
    assert s.found == s.found[..n] + unsent;
    var i :| 0 <= i < n && s.found[..n][i] == e;
    forall j | 0 <= j < |unsent|
      ensures e.block <= unsent[j].block
    {
      assert unsent[j] == s.found[n + j];
    }
  }

  /** The step stores a block, which is the one its transaction was found in. */
  predicate Stores(s: State, step: Step)
    requires Enabled(s, step)
  {
    step.Handle? && step.pass && step.blockNumber == s.consumer.entry.block
  }

  /** When a block is stored, everything found below it has left exactly when no queued transaction was
      found below it, however often entries were put back before. */
  lemma StoreSafeIff(states: seq<State>, steps: seq<Step>, k: nat)
    requires IsRun(states, steps) && k < |steps| && Stores(states[k], steps[k])
    ensures SafeAt(states[k + 1], steps[k].blockNumber) <==> NoneBelow(states[k].queue, steps[k].blockNumber)
  {
    HeldBeforeUnsent(states, steps, k);
    SafeAtIff(states, steps, k + 1, steps[k].blockNumber);
  }

  /** Receipts carry the block their transaction was found in. */
  ghost predicate TrueReceipts(states: seq<State>, steps: seq<Step>)
    requires IsRun(states, steps)
  {
    forall k :: 0 <= k < |steps| && steps[k].Handle? ==> steps[k].blockNumber == states[k].consumer.entry.block
  }

  /** Whenever a block is stored, nothing below it is queued. */
  ghost predicate StoresAheadOfQueue(states: seq<State>, steps: seq<Step>)
    requires IsRun(states, steps)
  {
    forall k :: 0 <= k < |steps| && Stores(states[k], steps[k]) ==> NoneBelow(states[k].queue, steps[k].blockNumber)
  }

  /** Everything found below a stored block has left, and it lies below the blocks still to be filtered. */
  ghost predicate StoredSafe(s: State) {
    && NeverFalls(s.checkpoints)
    && (s.checkpoints != [] ==> s.start.Some?)
    && forall i :: 0 <= i < |s.checkpoints| ==> SafeAt(s, s.checkpoints[i]) && s.checkpoints[i] < NextBlock(s)
  }

  lemma SafeStays(s: State, step: Step, b: nat)
    requires Covered(s) && Enabled(s, step) && SafeAt(s, b) && b <= NextBlock(s) && s.start.Some?
    ensures SafeAt(Apply(s, step), b)
  {
    var t := Apply(s, step);
    forall e | e in t.found && e.block < b
      ensures HasLeft(t, e)
    {
      assert e in s.found by {
        if step.FilterTrans? { assert t.found == s.found + Entries(s.producer.next, step.txs); }
      }
      var j :| 0 <= j < |s.gone| && s.gone[j].0 == e;
      assert t.gone[j].0 == e;
    }
  }

  lemma NextBlockRises(s: State, step: Step)
    requires Covered(s) && Enabled(s, step) && s.start.Some?
    ensures Apply(s, step).start.Some? && NextBlock(s) <= NextBlock(Apply(s, step))
  {
    if !step.FilterTrans? { NextBlockGrows(s, step); }
  }

  /** A block stored later is no lower than one that was safe. */
  lemma HeldNotBelow(states: seq<State>, steps: seq<Step>, k: nat, b: nat)
    requires IsRun(states, steps) && k < |states| && states[k].consumer.Holding? && SafeAt(states[k], b)
    ensures b <= states[k].consumer.entry.block
  {
    SafeAtIff(states, steps, k, b);
    assert InHand(states[k].consumer)[0] == states[k].consumer.entry;
  }

  lemma StoredSafeKept(states: seq<State>, steps: seq<Step>, k: nat)
    requires IsRun(states, steps) && k < |steps| && StoredSafe(states[k])
    requires steps[k].Handle? ==> steps[k].blockNumber == states[k].consumer.entry.block
    requires Stores(states[k], steps[k]) ==> NoneBelow(states[k].queue, steps[k].blockNumber)
    ensures StoredSafe(states[k + 1])
  {
    var s, t := states[k], states[k + 1];
    RunCovers(states, steps, k);
    RunFindsInOrder(states, steps, k);
    if s.start.Some? { NextBlockRises(s, steps[k]); }
    forall i | 0 <= i < |s.checkpoints|
      ensures SafeAt(t, s.checkpoints[i])
      ensures s.consumer.Holding? ==> s.checkpoints[i] <= s.consumer.entry.block
    {
      SafeStays(s, steps[k], s.checkpoints[i]);
      if s.consumer.Holding? { HeldNotBelow(states, steps, k, s.checkpoints[i]); }
    }
    if Stores(s, steps[k]) {
      StoreSafeIff(states, steps, k);
      HeldBeforeUnsent(states, steps, k);
    }
  }

  lemma {:induction false} RunStoresSafely(states: seq<State>, steps: seq<Step>, k: nat)
    requires IsRun(states, steps) && TrueReceipts(states, steps) && StoresAheadOfQueue(states, steps) && k < |states|
    ensures StoredSafe(states[k])
  {
    if k > 0 {
      RunStoresSafely(states, steps, k - 1);
      StoredSafeKept(states, steps, k - 1);
    }
  }

  /** Everything found below a stored block has left when it is stored and ever after. */
  ghost predicate AlwaysSafe(states: seq<State>) {
    forall k, i :: 0 <= k < |states| && 0 <= i < |states[k].checkpoints| ==> SafeAt(states[k], states[k].checkpoints[i])
  }

  /** Checkpoint safety, exactly: over any run whose receipts carry their block, everything found below
      a stored block has left if and only if nothing below a block is queued when it is stored. Stored
      blocks then never fall. */
  lemma CheckpointSafeIff(states: seq<State>, steps: seq<Step>)
    requires IsRun(states, steps) && TrueReceipts(states, steps)
    ensures AlwaysSafe(states) <==> StoresAheadOfQueue(states, steps)
    ensures AlwaysSafe(states) ==> forall k :: 0 <= k < |states| ==> NeverFalls(states[k].checkpoints)
  {
    if AlwaysSafe(states) {
      forall k | 0 <= k < |steps| && Stores(states[k], steps[k])
        ensures NoneBelow(states[k].queue, steps[k].blockNumber)
      {
        assert states[k + 1].checkpoints[|states[k].checkpoints|] == steps[k].blockNumber;
        StoreSafeIff(states, steps, k);
      }
    }
    if StoresAheadOfQueue(states, steps) {
      forall k | 0 <= k < |states|
        ensures StoredSafe(states[k])
      {
        RunStoresSafely(states, steps, k);
      }
    }
  }

  // ---------- restarts ----------

  /** A restart with `b` stored would miss nothing: it begins at block b + 1 (see RestartSkips), so the
      transactions of block b must have left too. */
  ghost predicate RestartSafe(s: State, b: nat) {
    SafeAt(s, b + 1)
  }

  /** Nothing found at or below block `b` is queued or still to be sent. */
  ghost predicate NothingLeftUpTo(s: State, b: nat) {
    NoneBelow(s.queue, b + 1) && NoneBelow(Unsent(s.producer), b + 1)
  }

  /** A restart right after a store misses nothing exactly when the stored block's transaction was the
      last one waiting, of its block and those below. */
  lemma StoreRestartSafeIff(states: seq<State>, steps: seq<Step>, k: nat)
    requires IsRun(states, steps) && k < |steps| && Stores(states[k], steps[k])
    ensures RestartSafe(states[k + 1], steps[k].blockNumber) <==> NothingLeftUpTo(states[k], steps[k].blockNumber)
  {
    SafeAtIff(states, steps, k + 1, steps[k].blockNumber + 1);
  }

  ghost predicate StoresLast(states: seq<State>, steps: seq<Step>)
    requires IsRun(states, steps)
  {
    forall k :: 0 <= k < |steps| && Stores(states[k], steps[k]) ==> NothingLeftUpTo(states[k], steps[k].blockNumber)
  }

  /** Whenever the process stops, a restart from any block stored so far misses nothing. */
  ghost predicate AlwaysRestartSafe(states: seq<State>) {
    forall k, i :: 0 <= k < |states| && 0 <= i < |states[k].checkpoints| ==>
      RestartSafe(states[k], states[k].checkpoints[i])
  }

  /** The same, for the block stored last. */
  ghost predicate LatestRestartSafe(states: seq<State>) {
    forall k :: 0 <= k < |states| && states[k].checkpoints != [] ==>
      RestartSafe(states[k], states[k].checkpoints[|states[k].checkpoints| - 1])
  }

  ghost predicate StoredRestartSafe(s: State) {
    && (s.checkpoints != [] ==> s.start.Some?)
    && forall i :: 0 <= i < |s.checkpoints| ==> RestartSafe(s, s.checkpoints[i]) && s.checkpoints[i] < NextBlock(s)
  }

  lemma StoredRestartSafeKept(states: seq<State>, steps: seq<Step>, k: nat)
    requires IsRun(states, steps) && k < |steps| && StoredRestartSafe(states[k])
    requires steps[k].Handle? ==> steps[k].blockNumber == states[k].consumer.entry.block
    requires Stores(states[k], steps[k]) ==> NothingLeftUpTo(states[k], steps[k].blockNumber)
    ensures StoredRestartSafe(states[k + 1])
  {
    var s, t := states[k], states[k + 1];
    RunCovers(states, steps, k);
    RunFindsInOrder(states, steps, k);
    if s.start.Some? { NextBlockRises(s, steps[k]); }
    forall i | 0 <= i < |s.checkpoints|
      ensures RestartSafe(t, s.checkpoints[i])
    {
      SafeStays(s, steps[k], s.checkpoints[i] + 1);
    }
    if Stores(s, steps[k]) {
      StoreRestartSafeIff(states, steps, k);
      HeldBeforeUnsent(states, steps, k);
    }
  }

  lemma {:induction false} RunRestartSafe(states: seq<State>, steps: seq<Step>, k: nat)
    requires IsRun(states, steps) && TrueReceipts(states, steps) && StoresLast(states, steps) && k < |states|
    ensures StoredRestartSafe(states[k])
  {
    if k > 0 {
      RunRestartSafe(states, steps, k - 1);
      StoredRestartSafeKept(states, steps, k - 1);
    }
  }

  /** Restart safety, exactly: over any run whose receipts carry their block, no restart at any moment
      misses a transaction, from the block stored last or from any earlier one, if and only if every
      block is stored by the last transaction waiting of that block and those below. */
  lemma RestartSafeIff(states: seq<State>, steps: seq<Step>)
    requires IsRun(states, steps) && TrueReceipts(states, steps)
    ensures AlwaysRestartSafe(states) <==> StoresLast(states, steps)
    ensures LatestRestartSafe(states) <==> StoresLast(states, steps)
  {
    if AlwaysRestartSafe(states) || LatestRestartSafe(states) {
      forall k | 0 <= k < |steps| && Stores(states[k], steps[k])
        ensures NothingLeftUpTo(states[k], steps[k].blockNumber)
      {
        assert states[k + 1].checkpoints[|states[k].checkpoints|] == steps[k].blockNumber;
        StoreRestartSafeIff(states, steps, k);
      }
    }
    if StoresLast(states, steps) {
      forall k | 0 <= k < |states|
        ensures StoredRestartSafe(states[k])
      {
        RunRestartSafe(states, steps, k);
      }
    }
  }

  /** Everything found lies above the block that scanning started after. */
  ghost predicate FoundAbove(s: State, b: nat) {
    s.start == Some(b) && forall i :: 0 <= i < |s.found| ==> b < s.found[i].block
  }

  lemma FoundAboveKept(s: State, step: Step, b: nat)
    requires Covered(s) && Enabled(s, step) && FoundAbove(s, b)
    ensures FoundAbove(Apply(s, step), b)
  {
    if !step.FilterTrans? { FoundKept(s, step); }
  }

  lemma NothingFoundYet(states: seq<State>, steps: seq<Step>, j: nat)
    requires IsRun(states, steps) && j < |states| && states[j].start.None?
    ensures states[j].found == [] && states[j].current == 0
  {
    RunFindsInOrder(states, steps, j);
    RunCovers(states, steps, j);
  }

  /** A process that starts with block `b` stored never finds a transaction of block b or below: those
      that had not left when the process before it stopped are lost. */
  lemma {:induction false} RestartSkips(states: seq<State>, steps: seq<Step>, j: nat, head: nat, b: nat, k: nat)
    requires IsRun(states, steps) && j < k < |states| && states[j].start.None?
    requires steps[j] == Observe(head, b) && head > 0 && b > 0
    ensures FoundAbove(states[k], b)
  {
    if k == j + 1 {
      NothingFoundYet(states, steps, j);
    } else {
      RestartSkips(states, steps, j, head, b, k - 1);
      RunCovers(states, steps, k - 1);
      FoundAboveKept(states[k - 1], steps[k - 1], b);
    }
  }

  // ---------- progress ----------

  /** The queue never exceeds its capacity, and a producer that sends has something to send. */
  ghost predicate Bounded(s: State) {
    |s.queue| <= Capacity && (s.producer.Enqueuing? ==> s.producer.rest != [])
  }

  lemma {:induction false} RunBounded(states: seq<State>, steps: seq<Step>, k: nat)
    requires IsRun(states, steps) && k < |states|
    ensures Bounded(states[k])
  {
    if k > 0 {
      RunBounded(states, steps, k - 1);
      assert Enabled(states[k - 1], steps[k - 1]);
    }
  }

  /** The chain may do anything: any head and stored block, any transactions, any fate of an entry. */
  lemma Offers(s: State, head: nat, stored: nat, txs: seq<string>, pass: bool, b: nat)
    ensures s.producer.Polling? && head < 0xffff_ffff_ffff_ffff && stored <= 0xffff_ffff_ffff_ffff ==>
              Enabled(s, Observe(head, stored))
    ensures s.producer.Scanning? ==> if s.producer.next <= s.producer.head then Enabled(s, FilterTrans(txs))
                                     else Enabled(s, RoundDone)
    ensures s.producer.Enqueuing? && s.producer.rest != [] && |s.queue| < 1000 ==> Enabled(s, Send)
    ensures s.consumer.Receiving? && s.queue != [] ==> Enabled(s, Receive)
    ensures s.consumer.Holding? ==> Enabled(s, StatusFail) && Enabled(s, NoReceipt) && Enabled(s, Handle(pass, b))
    ensures s.consumer.Requeuing? && |s.queue| < 1000 ==> Enabled(s, Requeue)
  {
  }

  /** Producer and consumer are stuck for good exactly when both want to send and the queue is full. */
  lemma StuckIff(states: seq<State>, steps: seq<Step>, k: nat)
    requires IsRun(states, steps) && k < |states|
    ensures var s := states[k];
            (forall step :: !Enabled(s, step)) <==>
            s.producer.Enqueuing? && s.consumer.Requeuing? && |s.queue| == 1000
  {
    RunBounded(states, steps, k);
    var s := states[k];
    if forall step :: !Enabled(s, step) {
      assert !Enabled(s, Observe(0, 0)) && !Enabled(s, FilterTrans([])) && !Enabled(s, RoundDone);
      assert !Enabled(s, Send) && !Enabled(s, Receive) && !Enabled(s, StatusFail) && !Enabled(s, Requeue);
    }
  }
}
