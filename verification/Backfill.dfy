/** Catching up with the chain before subscribing: block windows, a map of pending transactions and
    repeated pushes (subscribe/subscribe.go, `filterLogs`). */
module Backfill {

  const WindowSize: nat := 500

  type Tx = string

  datatype RawLog = RawLog(tx: Tx, block: nat)

  /** An inclusive block range that was queried. */
  datatype Window = Window(from: nat, to: nat)

  /** What happens to receipts during one push: those that are there; the queries that fail ten times,
      which makes the source panic; and those that the middleware lets pass. Receipts carry the block of
      their transaction. */
  datatype Receipts = Receipts(there: set<Tx>, failing: set<Tx>, passing: set<Tx>)

  /** The middleware decided on a transaction; if it passed, its block was given to SetStartBlock. As
      history: the transactions still pending then, and how many turns of the window loop had begun. */
  datatype Decision = Decision(tx: Tx, block: nat, pass: bool, waiting: set<Tx>, round: nat)

  /** How often each transaction was decided. */
  function Count(trace: seq<Decision>): multiset<Tx> {
    if trace == [] then multiset{} else Count(trace[..|trace| - 1]) + multiset{trace[|trace| - 1].tx}
  }

  /** What the node answers during one turn of the window loop: its head; whether the log query
      succeeds; for which logs a block lookup would succeed; what receipt queries give when pushing. */
  datatype Round = Round(head: nat, queryOk: bool, lookupOk: set<nat>, receipts: Receipts)

  datatype Outcome = Returned | Panicked | StillRunning

  predicate Within(w: Window, block: nat) {
    w.from <= block <= w.to
  }

  /** FilterLogs on a fixed chain: `chain` lists all logs of the scanned contracts. */
  function Query(chain: seq<RawLog>, w: Window): seq<RawLog> {
    if chain == [] then []
    else
      var l := chain[|chain| - 1];
      Query(chain[..|chain| - 1], w) + if Within(w, l.block) then [l] else []
  }

  lemma {:induction false} QueryExact(chain: seq<RawLog>, w: Window)
    ensures forall l :: l in Query(chain, w) <==> l in chain && Within(w, l.block)
  {
    if chain != [] {
      QueryExact(chain[..|chain| - 1], w);
      assert chain == chain[..|chain| - 1] + [chain[|chain| - 1]];
    }
  }

  /** The block time of log `i` is known: looked up for it, or for an earlier log of the same block. */
  ghost predicate Timed(raw: seq<RawLog>, ok: set<nat>, i: nat)
    requires i < |raw|
  {
    exists j :: 0 <= j <= i && raw[j].block == raw[i].block && j in ok
  }

  ghost function TimedTxs(raw: seq<RawLog>, ok: set<nat>): set<Tx> {
    set i | 0 <= i < |raw| && Timed(raw, ok, i) :: raw[i].tx
  }

  /** A transaction is timed exactly when the block of one of its logs was looked up for that log or for an
      earlier one of the same block. */
  lemma TimedMeans(raw: seq<RawLog>, ok: set<nat>, t: Tx)
    ensures t in TimedTxs(raw, ok) <==>
            exists i, j :: 0 <= j <= i < |raw| && raw[i].tx == t && raw[j].block == raw[i].block && j in ok
  {
    if t in TimedTxs(raw, ok) {
      var i :| 0 <= i < |raw| && Timed(raw, ok, i) && raw[i].tx == t;
      var j :| 0 <= j <= i && raw[j].block == raw[i].block && j in ok;
      assert raw[i].tx == t && raw[j].block == raw[i].block;
    }
    forall i, j | 0 <= j <= i < |raw| && raw[i].tx == t && raw[j].block == raw[i].block && j in ok
      ensures t in TimedTxs(raw, ok)
    {
      assert Timed(raw, ok, i);
    }
  }

  /** The loop over the logs of a window. `data` maps pending transactions to their blocks. */
  method Collect(raw: seq<RawLog>, ok: set<nat>, data0: map<Tx, nat>) returns (data: map<Tx, nat>)
    ensures data.Keys == data0.Keys + TimedTxs(raw, ok)
    ensures forall t :: t in data ==> (t in data0 && data[t] == data0[t]) || RawLog(t, data[t]) in raw
  {
    data := data0;
    var blockTimes: set<nat> := {};
    ghost var timed: set<Tx> := {};
    for i := 0 to |raw|
      invariant forall b :: b in blockTimes <==> exists j :: 0 <= j < i && raw[j].block == b && j in ok
      invariant data.Keys == data0.Keys + timed
      invariant forall t :: t in data ==> (t in data0 && data[t] == data0[t]) || RawLog(t, data[t]) in raw
      invariant forall t :: t in timed <==> exists k :: 0 <= k < i && Timed(raw, ok, k) && raw[k].tx == t
    {
      var v := raw[i];
      if v.block !in blockTimes && i !in ok {
        assert !Timed(raw, ok, i);
        continue;
      }
      assert Timed(raw, ok, i);
      blockTimes := blockTimes + {v.block};
      timed := timed + {v.tx};
      if v.tx !in data {
        assert v == RawLog(v.tx, v.block);
        data := data[v.tx := v.block];
      }
    }
    assert timed == TimedTxs(raw, ok);
  }

  /** push: the pending transactions, in no particular order, are taken to the middleware decision and
      forgotten if their receipt is there. `trace` lists the decisions, `pushed` are those of this call.
      A query that fails ends it with a panic. */
  method Push(data0: map<Tx, nat>, trace0: seq<Decision>, receipts: Receipts, round: nat)
    returns (data: map<Tx, nat>, trace: seq<Decision>, pushed: set<Tx>, panicked: bool)
    ensures data == data0 - pushed && Count(trace) == Count(trace0) + multiset(pushed)
    ensures pushed <= data0.Keys * receipts.there
    ensures panicked <==> PanicsOn(data0.Keys, receipts)
    ensures panicked ==> SomeFail(receipts)
    ensures !panicked ==> pushed == data0.Keys * receipts.there
    ensures Logged(data0, trace0, receipts, round, trace)
  {
    data, trace, pushed, panicked := data0, trace0, {}, false;
    var todo := data0.Keys;
    ghost var pending, decided0 := data0.Keys, Count(trace0);
    while todo != {}
      invariant PushedSoFar(pending, todo, receipts, pushed)
      invariant Accounted(data0, decided0, pushed, data, Count(trace))
      invariant Logged(data0, trace0, receipts, round, trace)
      decreases todo
    {
      var tx :| tx in todo;
      if tx in receipts.failing {
        return data, trace, pushed, true;
      }
      PushOne(pending, todo, receipts, pushed, tx);
      todo := todo - {tx};
      if tx in receipts.there {
        OneMorePushed(data0, decided0, pushed, data, Count(trace), tx);
        var d := Decision(tx, data[tx], tx in receipts.passing, data.Keys - {tx}, round);
        LogOne(data0, trace0, receipts, round, trace, d);
        trace := trace + [d];
        data := data - {tx};
        pushed := pushed + {tx};
      }
    }
  }

  /** The same transactions are pending or decided. */
  ghost predicate SameKnown(waiting: set<Tx>, count: multiset<Tx>, waiting0: set<Tx>, count0: multiset<Tx>) {
    forall t :: t in waiting || t in count <==> t in waiting0 || t in count0
  }

  /** Decision `i` of a push that began with `data0` pending. */
  ghost predicate Recorded(data0: map<Tx, nat>, trace0: seq<Decision>, receipts: Receipts, round: nat,
                           trace: seq<Decision>, i: nat)
    requires i < |trace|
  {
    var d := trace[i];
    && d.tx in data0 && d.block == data0[d.tx] && d.pass == (d.tx in receipts.passing) && d.round == round
    && SameKnown(d.waiting, Count(trace[..i + 1]), data0.Keys, Count(trace0))
  }

  ghost predicate Logged(data0: map<Tx, nat>, trace0: seq<Decision>, receipts: Receipts, round: nat,
                         trace: seq<Decision>)
  {
    trace0 <= trace && forall i :: |trace0| <= i < |trace| ==> Recorded(data0, trace0, receipts, round, trace, i)
  }

  lemma LogOne(data0: map<Tx, nat>, trace0: seq<Decision>, receipts: Receipts, round: nat, trace: seq<Decision>,
               d: Decision)
    requires Logged(data0, trace0, receipts, round, trace)
    requires d.tx in data0 && d.block == data0[d.tx] && d.pass == (d.tx in receipts.passing) && d.round == round
    requires SameKnown(d.waiting, Count(trace) + multiset{d.tx}, data0.Keys, Count(trace0))
    ensures Count(trace + [d]) == Count(trace) + multiset{d.tx}
    ensures Logged(data0, trace0, receipts, round, trace + [d])
  {
    var more := trace + [d];
    assert more[..|trace|] == trace;
    forall i | |trace0| <= i < |more|
      ensures Recorded(data0, trace0, receipts, round, more, i)
    {
      if i < |trace| {
        assert Recorded(data0, trace0, receipts, round, trace, i);
        assert more[..i + 1] == trace[..i + 1];
      } else {
        assert more[..i + 1] == more;
      }
    }
  }

  /** Of the pending transactions, those not in `todo` were dealt with. */
  ghost predicate PushedSoFar(pending: set<Tx>, todo: set<Tx>, receipts: Receipts, pushed: set<Tx>) {
    && todo <= pending
    && pushed == (pending - todo) * receipts.there
    && (pending - todo) * receipts.failing == {}
  }

  lemma PushOne(pending: set<Tx>, todo: set<Tx>, receipts: Receipts, pushed: set<Tx>, tx: Tx)
    requires PushedSoFar(pending, todo, receipts, pushed) && tx in todo && tx !in receipts.failing
    ensures tx !in pushed
    ensures PushedSoFar(pending, todo - {tx}, receipts, if tx in receipts.there then pushed + {tx} else pushed)
  {
    assert pending - (todo - {tx}) == pending - todo + {tx};
  }

  /** Pushed transactions are no longer pending, and were decided once more. */
  ghost predicate Accounted(data0: map<Tx, nat>, decided0: multiset<Tx>, pushed: set<Tx>, data: map<Tx, nat>,
                            decided: multiset<Tx>)
  {
    data == data0 - pushed && decided == decided0 + multiset(pushed)
  }

  lemma OneMorePushed(data0: map<Tx, nat>, decided0: multiset<Tx>, pushed: set<Tx>, data: map<Tx, nat>,
                      decided: multiset<Tx>, tx: Tx)
    requires Accounted(data0, decided0, pushed, data, decided) && tx !in pushed
    ensures Accounted(data0, decided0, pushed + {tx}, data - {tx}, decided + multiset{tx})
    ensures tx in data0 ==> tx in data && data[tx] == data0[tx]
    ensures tx in data0 && pushed <= data0.Keys ==>
              SameKnown(data.Keys - {tx}, decided + multiset{tx}, data0.Keys, decided0)
  {
  }

  // ---------- the window loop ----------

  /** How far the window loop has come after some rounds. */
  datatype Walk = Walk(at: nat, windows: seq<Window>, timed: set<Tx>, stopped: bool)

  function NextWindow(at: nat, head: nat): Window
    requires head > at
  {
    Window(at, if head - at >= WindowSize then at + WindowSize else head)
  }

  ghost function TakeRound(chain: seq<RawLog>, k: Walk, r: Round): Walk {
    if k.stopped || r.head == 0 then k
    else if r.head <= k.at then k.(stopped := true)
    else if !r.queryOk then k
    else
      var w := NextWindow(k.at, r.head);
      Walk(w.to, k.windows + [w], k.timed + TimedTxs(Query(chain, w), r.lookupOk), false)
  }

  ghost function WalkAll(chain: seq<RawLog>, start: nat, rounds: seq<Round>): Walk {
    if rounds == [] then Walk(start, [], {}, false)
    else TakeRound(chain, WalkAll(chain, start, rounds[..|rounds| - 1]), rounds[|rounds| - 1])
  }

  /** The window of a round: from where the walk stands, 500 blocks on, or up to the head if it is nearer. */
  ghost predicate WindowOf(w: Window, at: nat, r: Round) {
    r.queryOk && w.from == at < r.head && w.to == if r.head < at + 500 then r.head else at + 500
  }

  /** What one round does: a node that knows no head, or whose query fails, changes nothing; a head at or
      below the walk ends it; any other adds its window. */
  lemma RoundEffect(chain: seq<RawLog>, k: Walk, r: Round)
    ensures var k' := TakeRound(chain, k, r);
            && (k'.stopped <==> k.stopped || 0 < r.head <= k.at)
            && (if !k.stopped && k.at < r.head && r.queryOk
                then |k'.windows| == |k.windows| + 1 && k.windows <= k'.windows
                     && WindowOf(k'.windows[|k.windows|], k.at, r) && k'.at == k'.windows[|k.windows|].to
                else k'.windows == k.windows && k'.at == k.at && k'.timed == k.timed)
  {
  }

  lemma {:induction false} WalkCaughtUp(chain: seq<RawLog>, start: nat, rounds: seq<Round>)
    ensures WalkAll(chain, start, rounds).stopped <==> CaughtUp(chain, start, rounds)
    ensures forall i :: 0 <= i <= |rounds| ==>
              WalkAll(chain, start, rounds[..i]).at <= WalkAll(chain, start, rounds).at
  {
    if rounds == [] {
      assert rounds[..0] == rounds;
    } else {
      var n := |rounds| - 1;
      var k := WalkAll(chain, start, rounds[..n]);
      WalkCaughtUp(chain, start, rounds[..n]);
      RoundEffect(chain, k, rounds[n]);
      CaughtUpMore(chain, start, rounds, n);
      forall i | 0 <= i <= |rounds|
        ensures WalkAll(chain, start, rounds[..i]).at <= WalkAll(chain, start, rounds).at
      {
        if i <= n { assert rounds[..n][..i] == rounds[..i]; } else { assert rounds[..i] == rounds; }
      }
    }
  }

  /** In some round the node's head was no further than the walk had come. */
  ghost predicate CaughtUp(chain: seq<RawLog>, start: nat, rounds: seq<Round>) {
    exists i :: 0 <= i < |rounds| && 0 < rounds[i].head <= WalkAll(chain, start, rounds[..i]).at
  }

  lemma CaughtUpMore(chain: seq<RawLog>, start: nat, rounds: seq<Round>, n: nat)
    requires n == |rounds| - 1
    ensures var at := WalkAll(chain, start, rounds[..n]).at;
            CaughtUp(chain, start, rounds) <==> CaughtUp(chain, start, rounds[..n]) || 0 < rounds[n].head <= at
  {
    assert forall i :: 0 <= i <= n ==> rounds[..n][..i] == rounds[..i];
  }

  /** The window loop ends exactly when it has caught up with a head that the node gave, and that head
      lies within the windows. */
  lemma ReachedHead(chain: seq<RawLog>, start: nat, rounds: seq<Round>)
    requires WalkAll(chain, start, rounds).stopped
    ensures exists i :: 0 <= i < |rounds| && 0 < rounds[i].head <= WalkAll(chain, start, rounds).at
  {
    WalkCaughtUp(chain, start, rounds);
    var i :| 0 <= i < |rounds| && 0 < rounds[i].head <= WalkAll(chain, start, rounds[..i]).at;
    assert WalkAll(chain, start, rounds[..i]).at <= WalkAll(chain, start, rounds).at;
    assert 0 < rounds[i].head;
  }

  /** Windows follow one another, each sharing its first block with the last of the one before. */
  ghost predicate Chained(windows: seq<Window>, start: nat, end: nat) {
    if windows == [] then start == end
    else
      var n := |windows| - 1;
      Chained(windows[..n], start, windows[n].from) && windows[n].from < windows[n].to == end
  }

  lemma {:induction false} WalkChained(chain: seq<RawLog>, start: nat, rounds: seq<Round>)
    ensures Chained(WalkAll(chain, start, rounds).windows, start, WalkAll(chain, start, rounds).at)
  {
    if rounds != [] {
      WalkChained(chain, start, rounds[..|rounds| - 1]);
      var k, k' := WalkAll(chain, start, rounds[..|rounds| - 1]), WalkAll(chain, start, rounds);
      if k' != k && k'.windows != k.windows {
        assert k'.windows[..|k'.windows| - 1] == k.windows;
      }
    }
  }

  /** In how many windows a block lies. */
  ghost function Covering(windows: seq<Window>, block: nat): nat {
    if windows == [] then 0
    else Covering(windows[..|windows| - 1], block) + if Within(windows[|windows| - 1], block) then 1 else 0
  }

  /** A block where one window ends and the next begins. */
  ghost predicate Boundary(windows: seq<Window>, block: nat) {
    exists i :: 0 <= i < |windows| - 1 && windows[i].to == block && windows[i + 1].from == block
  }

  /** Chained windows cover each block of their range once, and shared boundaries twice. */
  lemma {:induction false} ChainedCoverage(windows: seq<Window>, start: nat, end: nat, block: nat)
    requires Chained(windows, start, end)
    ensures start <= end
    ensures Covering(windows, block) == if windows == [] || !(start <= block <= end) then 0
                                        else if Boundary(windows, block) then 2 else 1
    ensures windows != [] ==> windows[|windows| - 1].to == end && start < end
    ensures Boundary(windows, block) ==> start < block < end
  {
    if windows != [] {
      var n := |windows| - 1;
      var init := windows[..n];
      ChainedCoverage(init, start, windows[n].from, block);
      assert Boundary(windows, block) <==> Boundary(init, block) || (n > 0 && block == windows[n].from) by {
        if Boundary(init, block) {
          var i :| 0 <= i < |init| - 1 && init[i].to == block && init[i + 1].from == block;
          assert windows[i].to == block && windows[i + 1].from == block;
        }
        if n > 0 && block == windows[n].from {
          assert windows[n - 1].to == block && windows[n - 1 + 1].from == block;
        }
        if Boundary(windows, block) {
          var i :| 0 <= i < |windows| - 1 && windows[i].to == block && windows[i + 1].from == block;
          if i < n - 1 { assert init[i].to == block && init[i + 1].from == block; }
        }
      }
    }
  }

  /** A transaction's logs are all in its block. */
  ghost predicate OneBlockPerTx(chain: seq<RawLog>) {
    forall l, m :: l in chain && m in chain && l.tx == m.tx ==> l.block == m.block
  }

  /** Decisions made and pending for a transaction, against the windows its block lay in. */
  ghost predicate Tally(chain: seq<RawLog>, k: Walk, data: map<Tx, nat>, decided: multiset<Tx>) {
    && (forall l :: l in chain ==> decided[l.tx] + (if l.tx in data then 1 else 0) <= Covering(k.windows, l.block))
    && (forall t :: t in data || decided[t] > 0 <==> t in k.timed)
  }

  lemma TimedInWindow(chain: seq<RawLog>, w: Window, ok: set<nat>, l: RawLog)
    requires OneBlockPerTx(chain) && l in chain && l.tx in TimedTxs(Query(chain, w), ok)
    ensures Within(w, l.block)
  {
    var raw := Query(chain, w);
    QueryExact(chain, w);
    var i :| 0 <= i < |raw| && Timed(raw, ok, i) && raw[i].tx == l.tx;
    assert raw[i] in raw;
  }

  lemma TallyWindow(chain: seq<RawLog>, k: Walk, data: map<Tx, nat>, decided: multiset<Tx>, w: Window, ok: set<nat>,
                    data': map<Tx, nat>)
    requires OneBlockPerTx(chain) && Tally(chain, k, data, decided)
    requires data'.Keys == data.Keys + TimedTxs(Query(chain, w), ok)
    ensures Tally(chain, Walk(w.to, k.windows + [w], k.timed + TimedTxs(Query(chain, w), ok), false), data', decided)
  {
    forall l | l in chain
      ensures decided[l.tx] + (if l.tx in data' then 1 else 0) <= Covering(k.windows + [w], l.block)
    {
      assert (k.windows + [w])[..|k.windows|] == k.windows;
      if l.tx in data' && l.tx !in data { TimedInWindow(chain, w, ok, l); }
    }
  }

  lemma TallyPush(chain: seq<RawLog>, k: Walk, data: map<Tx, nat>, decided: multiset<Tx>, pushed: set<Tx>)
    requires Tally(chain, k, data, decided) && pushed <= data.Keys
    ensures Tally(chain, k, data - pushed, decided + multiset(pushed))
  {
    var d := decided + multiset(pushed);
    forall t
      ensures d[t] == decided[t] + if t in pushed then 1 else 0
    {
    }
  }

  /** Every block lookup succeeds. */
  ghost predicate LookupsSucceed(chain: seq<RawLog>, rounds: seq<Round>) {
    forall r, i :: 0 <= r < |rounds| && 0 <= i < |chain| ==> i in rounds[r].lookupOk
  }

  lemma {:induction false} QueryShorter(chain: seq<RawLog>, w: Window)
    ensures |Query(chain, w)| <= |chain|
  {
    if chain != [] { QueryShorter(chain[..|chain| - 1], w); }
  }

  /** Then a log in a window is timed. */
  lemma {:induction false} WindowTimed(chain: seq<RawLog>, start: nat, rounds: seq<Round>, l: RawLog)
    requires OneBlockPerTx(chain) && LookupsSucceed(chain, rounds) && l in chain
    ensures var k := WalkAll(chain, start, rounds);
            l.tx in k.timed <==> Covering(k.windows, l.block) > 0
  {
    if rounds != [] {
      var n := |rounds| - 1;
      WindowTimed(chain, start, rounds[..n], l);
      var k, k', r := WalkAll(chain, start, rounds[..n]), WalkAll(chain, start, rounds), rounds[n];
      if k'.windows != k.windows {
        var w := NextWindow(k.at, r.head);
        assert k'.windows[..|k'.windows| - 1] == k.windows && k'.windows[|k.windows|] == w;
        QueryExact(chain, w);
        QueryShorter(chain, w);
        var raw := Query(chain, w);
        if Within(w, l.block) {
          var i :| 0 <= i < |raw| && raw[i] == l;
          assert Timed(raw, r.lookupOk, i);
        } else if l.tx in TimedTxs(raw, r.lookupOk) {
          TimedInWindow(chain, w, r.lookupOk, l);
        }
      }
    }
  }

  /** The transaction of log `l` was decided at least once and at most twice, twice only on a window
      boundary, if its block lies between the start and the end of the last window; else never. */
  ghost predicate DecidedRight(start: nat, k: Walk, decided: multiset<Tx>, l: RawLog) {
    if k.windows != [] && start <= l.block <= k.at
    then 1 <= decided[l.tx] <= 2 && (decided[l.tx] == 2 ==> Boundary(k.windows, l.block))
    else decided[l.tx] == 0
  }

  /** What the tally of a walk means once nothing is pending. */
  lemma BackfillCoverage(chain: seq<RawLog>, start: nat, rounds: seq<Round>, decided: multiset<Tx>)
    requires OneBlockPerTx(chain) && LookupsSucceed(chain, rounds)
    requires Tally(chain, WalkAll(chain, start, rounds), map[], decided)
    ensures forall l :: l in chain ==> DecidedRight(start, WalkAll(chain, start, rounds), decided, l)
  {
    var k := WalkAll(chain, start, rounds);
    WalkChained(chain, start, rounds);
    forall l | l in chain
      ensures DecidedRight(start, k, decided, l)
    {
      ChainedCoverage(k.windows, start, k.at, l.block);
      WindowTimed(chain, start, rounds, l);
    }
  }

  /** Pending transactions have a log in the block recorded for them. */
  ghost predicate BlocksTrue(chain: seq<RawLog>, data: map<Tx, nat>) {
    forall t :: t in data ==> RawLog(t, data[t]) in chain
  }

  lemma CollectTrue(chain: seq<RawLog>, w: Window, data: map<Tx, nat>, data': map<Tx, nat>)
    requires BlocksTrue(chain, data)
    requires forall t :: t in data' ==> (t in data && data'[t] == data[t]) || RawLog(t, data'[t]) in Query(chain, w)
    ensures BlocksTrue(chain, data')
  {
    QueryExact(chain, w);
  }

  /** What the first `n` turns of the window loop collected. */
  ghost function CollectedBy(chain: seq<RawLog>, start: nat, rounds: seq<Round>, n: nat): set<Tx> {
    WalkAll(chain, start, if n <= |rounds| then rounds[..n] else rounds).timed
  }

  /** A decision is about a transaction of the chain, and what was collected by then is pending or
      decided. */
  ghost predicate DecisionOk(chain: seq<RawLog>, start: nat, rounds: seq<Round>, trace: seq<Decision>, i: nat)
    requires i < |trace|
  {
    var d := trace[i];
    && RawLog(d.tx, d.block) in chain && d.round <= |rounds|
    && forall t :: t in CollectedBy(chain, start, rounds, d.round) <==> t in d.waiting || t in Count(trace[..i + 1])
  }

  ghost predicate TraceOk(chain: seq<RawLog>, start: nat, rounds: seq<Round>, trace: seq<Decision>) {
    forall i :: 0 <= i < |trace| ==> DecisionOk(chain, start, rounds, trace, i)
  }

  lemma TraceGrows(chain: seq<RawLog>, start: nat, rounds: seq<Round>, data: map<Tx, nat>, trace: seq<Decision>,
                   receipts: Receipts, round: nat, trace': seq<Decision>)
    requires TraceOk(chain, start, rounds, trace) && BlocksTrue(chain, data) && round <= |rounds|
    requires Tally(chain, WalkAll(chain, start, rounds[..round]), data, Count(trace))
    requires Logged(data, trace, receipts, round, trace')
    ensures TraceOk(chain, start, rounds, trace')
  {
    forall i | 0 <= i < |trace'|
      ensures DecisionOk(chain, start, rounds, trace', i)
    {
      if i < |trace| {
        assert DecisionOk(chain, start, rounds, trace, i);
        assert trace'[..i + 1] == trace[..i + 1];
      } else {
        assert Recorded(data, trace, receipts, round, trace', i);
      }
    }
  }

  /** The turns of the window loop, one element of `rounds` each. `taken` counts those that began. */
  method WalkWindows(chain: seq<RawLog>, start: nat, rounds: seq<Round>)
    returns (outcome: Outcome, trace: seq<Decision>, windows: seq<Window>, data: map<Tx, nat>, taken: nat)
    requires OneBlockPerTx(chain)
    ensures taken <= |rounds| && (!outcome.Panicked? ==> taken == |rounds|)
    ensures var k := WalkAll(chain, start, rounds[..taken]);
            && windows == k.windows && Tally(chain, k, data, Count(trace))
            && (outcome.Returned? <==> !outcome.Panicked? && k.stopped)
    ensures TraceOk(chain, start, rounds, trace) && BlocksTrue(chain, data)
    ensures outcome.Panicked? ==> 0 < taken && SomeFail(rounds[taken - 1].receipts)
  {
    var at, stopped := start, false;
    data, windows, trace, taken := map[], [], [], 0;
    ghost var k := WalkAll(chain, start, []);
    while taken < |rounds|
      invariant taken <= |rounds| && k == WalkAll(chain, start, rounds[..taken])
      invariant k.at == at && k.windows == windows && k.stopped == stopped
      invariant Tally(chain, k, data, Count(trace))
      invariant TraceOk(chain, start, rounds, trace) && BlocksTrue(chain, data)
    {
      assert rounds[..taken + 1][..taken] == rounds[..taken];
      var round := rounds[taken];
      taken := taken + 1;
      ghost var before := k;
      k := TakeRound(chain, k, round);
      if stopped || round.head == 0 {
        continue;
      }
      if round.head <= at {
        stopped := true;
        continue;
      }
      if !round.queryOk {
        continue;
      }
      var w := NextWindow(at, round.head);
      var panicked;
      data, trace, panicked := TakeWindow(chain, start, rounds, before, w, data, trace, taken);
      windows := windows + [w];
      at := w.to;
      if panicked {
        return Panicked, trace, windows, data, taken;
      }
    }
    assert rounds[..|rounds|] == rounds;
    outcome := if stopped then Returned else StillRunning;
  }

  /** The receipt query of one of the transactions fails for good. */
  ghost predicate PanicsOn(txs: set<Tx>, receipts: Receipts) {
    txs * receipts.failing != {}
  }

  ghost predicate SomeFail(receipts: Receipts) {
    receipts.failing != {}
  }

  /** Collecting and pushing for one window: the rest of a turn of the loop. */
  method TakeWindow(chain: seq<RawLog>, ghost start: nat, rounds: seq<Round>, ghost before: Walk, w: Window,
                    data0: map<Tx, nat>, trace0: seq<Decision>, taken: nat)
    returns (data: map<Tx, nat>, trace: seq<Decision>, panicked: bool)
    requires OneBlockPerTx(chain) && 0 < taken <= |rounds|
    requires Tally(chain, before, data0, Count(trace0)) && BlocksTrue(chain, data0)
    requires TraceOk(chain, start, rounds, trace0)
    requires var ok := rounds[taken - 1].lookupOk;
             WalkAll(chain, start, rounds[..taken]) ==
             Walk(w.to, before.windows + [w], before.timed + TimedTxs(Query(chain, w), ok), false)
    ensures Tally(chain, WalkAll(chain, start, rounds[..taken]), data, Count(trace))
    ensures TraceOk(chain, start, rounds, trace) && BlocksTrue(chain, data)
    ensures var round := rounds[taken - 1];
            && (panicked <==> PanicsOn(data0.Keys + TimedTxs(Query(chain, w), round.lookupOk), round.receipts))
            && (panicked ==> SomeFail(round.receipts))
  {
    var round := rounds[taken - 1];
    ghost var k := WalkAll(chain, start, rounds[..taken]);
    var data' := Collect(Query(chain, w), round.lookupOk, data0);
    TallyWindow(chain, before, data0, Count(trace0), w, round.lookupOk, data');
    CollectTrue(chain, w, data0, data');
    var pushed;
    data, trace, pushed, panicked := Push(data', trace0, round.receipts, taken);
    TallyPush(chain, k, data', Count(trace0), pushed);
    TraceGrows(chain, start, rounds, data', trace0, round.receipts, taken, trace);
  }

  /** filterLogs. `rounds` is what the node answers in the window loop, `drains` in the pushes after it.
      A transaction is never decided more often than windows cover its block, even when a panic cuts
      the call short; on return, with block lookups succeeding, every transaction was decided. */
  method FilterLogs(chain: seq<RawLog>, start: nat, rounds: seq<Round>, drains: seq<Receipts>)
    returns (outcome: Outcome, trace: seq<Decision>, windows: seq<Window>, taken: nat)
    requires OneBlockPerTx(chain)
    ensures taken <= |rounds| && (!outcome.Panicked? ==> taken == |rounds|)
    ensures windows == WalkAll(chain, start, rounds[..taken]).windows
    ensures forall l :: l in chain ==> Count(trace)[l.tx] <= Covering(windows, l.block)
    ensures outcome.Returned? ==> forall t :: t in Count(trace) <==> t in WalkAll(chain, start, rounds).timed
    ensures outcome.Returned? && LookupsSucceed(chain, rounds) ==>
              forall l :: l in chain ==> DecidedRight(start, WalkAll(chain, start, rounds), Count(trace), l)
    ensures outcome.Returned? ==>
              exists i :: 0 <= i < |rounds| && 0 < rounds[i].head <= WalkAll(chain, start, rounds).at
    ensures outcome.StillRunning? ==>
              !WalkAll(chain, start, rounds).stopped || Unreceipted(chain, start, rounds, drains)
    ensures outcome.Panicked? ==>
              || (exists r :: 0 <= r < |rounds| && SomeFail(rounds[r].receipts))
              || (exists e :: 0 <= e < |drains| && SomeFail(drains[e]))
    ensures TraceOk(chain, start, rounds, trace)
  {
    var data;
    outcome, trace, windows, data, taken := WalkWindows(chain, start, rounds);
    assert rounds[..|rounds|] == rounds;
    if outcome.Returned? {
      ReachedHead(chain, start, rounds);
      outcome, data, trace := Drain(chain, start, rounds, data, trace, drains);
      if outcome.StillRunning? {
        var t :| t in data;
        assert t in WalkAll(chain, start, rounds).timed && NoReceiptYet({t}, drains);
      }
      if outcome.Returned? && LookupsSucceed(chain, rounds) { BackfillCoverage(chain, start, rounds, Count(trace)); }
    }
  }

  ghost predicate NoReceiptYet(txs: set<Tx>, drains: seq<Receipts>) {
    forall e :: 0 <= e < |drains| ==> txs !! drains[e].there
  }

  lemma StillNoReceipt(txs: set<Tx>, rest: set<Tx>, drains: seq<Receipts>, d: nat)
    requires d < |drains| && NoReceiptYet(txs, drains[..d]) && rest == txs - txs * drains[d].there
    ensures NoReceiptYet(rest, drains[..d + 1])
  {
    var more := drains[..d + 1];
    forall e | 0 <= e < |more|
      ensures rest !! more[e].there
    {
      assert e < d ==> drains[..d][e] == more[e];
    }
  }

  /** Some transaction that was collected has had no receipt in any push after the window loop. */
  ghost predicate Unreceipted(chain: seq<RawLog>, start: nat, rounds: seq<Round>, drains: seq<Receipts>) {
    exists t :: t in WalkAll(chain, start, rounds).timed && NoReceiptYet({t}, drains)
  }

  /** The pushes after the window loop, until nothing is pending: they go on only while a transaction has
      had no receipt in any of them. */
  method Drain(ghost chain: seq<RawLog>, ghost start: nat, rounds: seq<Round>, data0: map<Tx, nat>,
               trace0: seq<Decision>, drains: seq<Receipts>)
    returns (outcome: Outcome, data: map<Tx, nat>, trace: seq<Decision>)
    requires Tally(chain, WalkAll(chain, start, rounds), data0, Count(trace0))
    requires TraceOk(chain, start, rounds, trace0) && BlocksTrue(chain, data0)
    ensures Tally(chain, WalkAll(chain, start, rounds), data, Count(trace)) && (outcome.Returned? ==> data == map[])
    ensures TraceOk(chain, start, rounds, trace)
    ensures outcome.StillRunning? ==> data != map[] && NoReceiptYet(data.Keys, drains)
    ensures outcome.Panicked? ==> exists e :: 0 <= e < |drains| && SomeFail(drains[e])
  {
    ghost var k, n := WalkAll(chain, start, rounds), |rounds|;
    assert rounds[..n] == rounds;
    data, trace := data0, trace0;
    var d := 0;
    while d < |drains| && data != map[]
      invariant d <= |drains|
      invariant Tally(chain, k, data, Count(trace))
      invariant TraceOk(chain, start, rounds, trace) && BlocksTrue(chain, data)
      invariant NoReceiptYet(data.Keys, drains[..d])
    {
      ghost var data', trace' := data, trace;
      var pushed, panicked;
      data, trace, pushed, panicked := Push(data, trace, drains[d], |rounds|);
      TallyPush(chain, k, data', Count(trace'), pushed);
      TraceGrows(chain, start, rounds, data', trace', drains[d], |rounds|, trace);
      if panicked {
        return Panicked, data, trace;
      }
      StillNoReceipt(data'.Keys, data.Keys, drains, d);
      d := d + 1;
    }
    assert drains[..|drains|] == drains;
    outcome := if data == map[] then Returned else StillRunning;
  }

  // ---------- stored blocks ----------

  /** Nothing below the block of decision `i` is undecided. A restart that finds the head past that block
      begins with the block itself, and so misses nothing. */
  ghost predicate StoreSafe(chain: seq<RawLog>, start: nat, trace: seq<Decision>, i: nat)
    requires i < |trace|
  {
    forall l :: l in chain && start <= l.block < trace[i].block ==> l.tx in Count(trace[..i + 1])
  }

  /** No transaction below the block of decision `i` is pending then, except one that was decided before. */
  ghost predicate NoneWaitsBelow(chain: seq<RawLog>, start: nat, trace: seq<Decision>, i: nat)
    requires i < |trace|
  {
    forall l :: l in chain && start <= l.block < trace[i].block && l.tx in trace[i].waiting ==>
      l.tx in Count(trace[..i + 1])
  }

  /** Storing a block is safe exactly when everything below it was collected and nothing below it waits. */
  lemma StoreSafeIff(chain: seq<RawLog>, start: nat, rounds: seq<Round>, trace: seq<Decision>, i: nat)
    requires TraceOk(chain, start, rounds, trace) && i < |trace|
    ensures StoreSafe(chain, start, trace, i) <==>
            && NoneWaitsBelow(chain, start, trace, i)
            && forall l :: l in chain && start <= l.block < trace[i].block ==>
                 l.tx in CollectedBy(chain, start, rounds, trace[i].round)
  {
    assert DecisionOk(chain, start, rounds, trace, i);
  }

  lemma LookupsSucceedSoFar(chain: seq<RawLog>, rounds: seq<Round>, n: nat)
    requires LookupsSucceed(chain, rounds) && n <= |rounds|
    ensures LookupsSucceed(chain, rounds[..n])
  {
  }

  /** With block lookups succeeding, everything below a decided block was collected before. */
  lemma CollectedBelow(chain: seq<RawLog>, start: nat, rounds: seq<Round>, trace: seq<Decision>, i: nat, l: RawLog)
    requires OneBlockPerTx(chain) && LookupsSucceed(chain, rounds)
    requires TraceOk(chain, start, rounds, trace) && i < |trace|
    requires l in chain && start <= l.block < trace[i].block
    ensures l.tx in CollectedBy(chain, start, rounds, trace[i].round)
  {
    assert DecisionOk(chain, start, rounds, trace, i);
    var d, so := trace[i], rounds[..trace[i].round];
    var k := WalkAll(chain, start, so);
    assert trace[..i + 1][..i] == trace[..i];
    assert d.tx in Count(trace[..i + 1]);
    LookupsSucceedSoFar(chain, rounds, d.round);
    WindowTimed(chain, start, so, RawLog(d.tx, d.block));
    WindowTimed(chain, start, so, l);
    WalkChained(chain, start, so);
    ChainedCoverage(k.windows, start, k.at, d.block);
    ChainedCoverage(k.windows, start, k.at, l.block);
  }

  /** Then storing a block is safe exactly when nothing below it waits. */
  lemma StoreSafeWithLookups(chain: seq<RawLog>, start: nat, rounds: seq<Round>, trace: seq<Decision>, i: nat)
    requires OneBlockPerTx(chain) && LookupsSucceed(chain, rounds)
    requires TraceOk(chain, start, rounds, trace) && i < |trace|
    ensures StoreSafe(chain, start, trace, i) <==> NoneWaitsBelow(chain, start, trace, i)
  {
    assert DecisionOk(chain, start, rounds, trace, i);
    forall l | l in chain && start <= l.block < trace[i].block
      ensures l.tx in CollectedBy(chain, start, rounds, trace[i].round)
    {
      CollectedBelow(chain, start, rounds, trace, i, l);
    }
    StoreSafeIff(chain, start, rounds, trace, i);
  }

  /** The receipt of a transaction of block 1 is late: every push then stores block 2 before it was
      decided. */
  lemma LateReceiptUnsafe(chain: seq<RawLog>, receipts: Receipts, trace: seq<Decision>)
    requires chain == [RawLog("a", 1), RawLog("b", 2)] && receipts == Receipts({"b"}, {}, {"b"})
    requires Logged(map["a" := 1, "b" := 2], [], receipts, 1, trace) && Count(trace) == multiset{"b"}
    ensures |trace| == 1 && trace[0].pass && trace[0].block == 2 && !StoreSafe(chain, 0, trace, 0)
  {
    CountSize(trace);
    assert trace[..1] == trace && trace[..0] == [];
    assert Recorded(map["a" := 1, "b" := 2], [], receipts, 1, trace, 0);
    assert trace[0].tx in Count(trace);
    assert chain[0] in chain && "a" !in Count(trace[..1]);
  }

  lemma {:induction false} CountSize(trace: seq<Decision>)
    ensures |Count(trace)| == |trace|
    ensures forall t :: t in Count(trace) <==> exists i :: 0 <= i < |trace| && trace[i].tx == t
  {
    if trace != [] {
      var n := |trace| - 1;
      CountSize(trace[..n]);
      assert trace == trace[..n] + [trace[n]];
    }
  }

  lemma NoLookupNoTime(raw: seq<RawLog>)
    ensures TimedTxs(raw, {}) == {}
  {
    forall i | 0 <= i < |raw|
      ensures !Timed(raw, {}, i)
    {
    }
  }

  /** A failed block lookup loses the transaction: its block was in a window, but it is never decided. */
  lemma LookupFailureLoses(chain: seq<RawLog>, r: Round)
    requires chain == [RawLog("t", 5)] && r == Round(10, true, {}, Receipts({"t"}, {}, {}))
    ensures WalkAll(chain, 0, [r, r]) == Walk(10, [Window(0, 10)], {}, true)
    ensures Covering([Window(0, 10)], 5) == 1
  {
    var w := Window(0, 10);
    assert [r, r][..1] == [r] && [r][..0] == [] && [w][..0] == [];
    NoLookupNoTime(Query(chain, w));
    assert WalkAll(chain, 0, []) == Walk(0, [], {}, false);
    assert NextWindow(0, 10) == w;
    assert WalkAll(chain, 0, [r]) == Walk(10, [w], {}, false);
  }
}
