/** Distributing a receipt: duplicate logs are dropped, then one callback is made per contract
    (scan/scan.go, `ReceiptDistribution`). Both loops share the set `exist`. */
module ReceiptDistribution {
  import opened Common

  datatype Log = Log(topics: seq<string>, data: string, address: string)

  /** strings.ToLower, on ASCII text. */
  function ToLower(s: string): string {
    seq(|s|, i requires 0 <= i < |s| => if 'A' <= s[i] <= 'Z' then s[i] + 32 as char else s[i])
  }

  function Join(parts: seq<string>): string {
    if parts == [] then "" else Join(parts[..|parts| - 1]) + parts[|parts| - 1]
  }

  function Address(l: Log): string {
    ToLower(l.address)
  }

  function Key(l: Log): string {
    Address(l) + "_" + l.data + "_" + Join(l.topics)
  }

  function Keys(logs: seq<Log>): set<string> {
    set l | l in logs :: Key(l)
  }

  function Addresses(logs: seq<Log>): set<string> {
    set l | l in logs :: Address(l)
  }

  /** Keeps a log unless an earlier one has its key. */
  function Dedup(logs: seq<Log>): seq<Log> {
    if logs == [] then []
    else
      var n := |logs| - 1;
      if Key(logs[n]) in Keys(logs[..n]) then Dedup(logs[..n]) else Dedup(logs[..n]) + [logs[n]]
  }

  /** The addresses that the second loop reaches, when `seen` is what it must skip. */
  function Visited(logs: seq<Log>, seen: set<string>): seq<string> {
    if logs == [] then []
    else
      var n := |logs| - 1;
      var a := Address(logs[n]);
      var rest := Visited(logs[..n], seen);
      if a in seen || a in rest then rest else rest + [a]
  }

  /** Each lowercased address once, in order of first occurrence. */
  function DistinctAddresses(logs: seq<Log>): seq<string> {
    Visited(logs, {})
  }

  /** The configuration: contract names by address, and the known callback prefixes. */
  datatype Config = Config(contracts: map<string, string>, prefixes: seq<string>)

  /** strings.EqualFold, on ASCII text. */
  predicate EqualFold(a: string, b: string) {
    ToLower(a) == ToLower(b)
  }

  /** The first prefix that matches a contract name, if any. */
  function Match(prefixes: seq<string>, name: string): Option<string> {
    if prefixes == [] then None
    else if EqualFold(prefixes[0], name) then Some(prefixes[0])
    else Match(prefixes[1..], name)
  }

  /** The callback that a contract address leads to. */
  function CallbackFor(c: Config, address: string): Option<string> {
    if address in c.contracts && c.contracts[address] != "" then Match(c.prefixes, ToLower(c.contracts[address]))
    else None
  }

  function Fired(c: Config, addresses: seq<string>): seq<string> {
    if addresses == [] then []
    else
      var n := |addresses| - 1;
      var cb := CallbackFor(c, addresses[n]);
      Fired(c, addresses[..n]) + if cb.Some? then [cb.value] else []
  }

  class Receipt {
    var logs: seq<Log>

    constructor (logs: seq<Log>)
      ensures this.logs == logs
    {
      this.logs := logs;
    }
  }

  /** ReceiptDistribution; `fired` lists the contract names that callbacks were made for. */
  method Distribute(c: Config, receipt: Receipt) returns (fired: seq<string>)
    modifies receipt
    ensures receipt.logs == Dedup(old(receipt.logs))
    ensures fired == Fired(c, Visited(Dedup(old(receipt.logs)), Keys(old(receipt.logs))))
  {
    var logs, exist := DropDuplicates(receipt.logs);
    if |receipt.logs| < 1 {
      return [];
    }
    receipt.logs := logs;
    fired := MakeCallbacks(c, logs, exist);
  }

  method DropDuplicates(raw: seq<Log>) returns (logs: seq<Log>, exist: set<string>)
    ensures logs == Dedup(raw) && exist == Keys(raw)
  {
    logs, exist := [], {};
    for i := 0 to |raw|
      invariant logs == Dedup(raw[..i]) && exist == Keys(raw[..i])
    {
      KeysGrow(raw, i);
      DedupGrows(raw, i);
      var log, key := raw[i], Key(raw[i]);
      if key in exist {
        assert exist + {key} == exist;
        continue;
      }
      exist := exist + {key};
      logs := logs + [log];
    }
    assert raw[..|raw|] == raw;
  }

  lemma DedupGrows(logs: seq<Log>, i: nat)
    requires i < |logs|
    ensures Dedup(logs[..i + 1]) == Dedup(logs[..i]) + if Key(logs[i]) in Keys(logs[..i]) then [] else [logs[i]]
  {
    assert logs[..i + 1][..i] == logs[..i];
  }

  lemma KeysGrow(logs: seq<Log>, i: nat)
    requires i < |logs|
    ensures Keys(logs[..i + 1]) == Keys(logs[..i]) + {Key(logs[i])}
  {
    assert logs[..i + 1] == logs[..i] + [logs[i]];
  }

  method MakeCallbacks(c: Config, logs: seq<Log>, seen: set<string>) returns (fired: seq<string>)
    ensures fired == Fired(c, Visited(logs, seen))
  {
    fired := [];
    var exist := seen;
    ghost var visited: seq<string> := [];
    for i := 0 to |logs|
      invariant visited == Visited(logs[..i], seen)
      invariant exist == seen + Elements(visited)
      invariant fired == Fired(c, visited)
    {
      assert logs[..i + 1][..i] == logs[..i];
      var address := Address(logs[i]);
      if address !in exist {
        exist := exist + {address};
        assert (visited + [address])[..|visited|] == visited;
        assert Elements(visited + [address]) == Elements(visited) + {address};
        visited := visited + [address];
        var cb := Lookup(c, address);
        fired := fired + if cb.Some? then [cb.value] else [];
      }
    }
    assert logs[..|logs|] == logs;
  }

  /** The innermost loop: the first prefix that matches, then break. */
  method Lookup(c: Config, address: string) returns (cb: Option<string>)
    ensures cb == CallbackFor(c, address)
  {
    cb := None;
    if address in c.contracts && c.contracts[address] != "" {
      var name := ToLower(c.contracts[address]);
      for k := 0 to |c.prefixes|
        invariant Match(c.prefixes, name) == Match(c.prefixes[k..], name)
      {
        if EqualFold(c.prefixes[k], name) {
          return Some(c.prefixes[k]);
        }
      }
    }
  }

  // ---------- letter case ----------

  /** The same letter, up to ASCII case. */
  ghost predicate SameLetter(a: char, b: char) {
    || a == b
    || ('A' <= a <= 'Z' && b as int == a as int + 32)
    || ('A' <= b <= 'Z' && a as int == b as int + 32)
  }

  ghost predicate SameText(s: string, t: string) {
    |s| == |t| && forall i :: 0 <= i < |s| ==> SameLetter(s[i], t[i])
  }

  ghost predicate NoCapitals(s: string) {
    forall i :: 0 <= i < |s| ==> !('A' <= s[i] <= 'Z')
  }

  /** Lower-casing removes the capitals and changes nothing but case. */
  lemma LowerMeans(s: string)
    ensures NoCapitals(ToLower(s)) && SameText(s, ToLower(s))
  {
  }

  /** Two texts are lower-cased to one, so fold alike, exactly when they agree up to case. */
  lemma FoldIff(s: string, t: string)
    ensures ToLower(s) == ToLower(t) <==> SameText(s, t)
    ensures EqualFold(s, t) <==> SameText(s, t)
  {
    if ToLower(s) == ToLower(t) {
      forall i | 0 <= i < |s|
        ensures SameLetter(s[i], t[i])
      {
        assert ToLower(s)[i] == ToLower(t)[i];
      }
    }
  }

  /** Logs count for one contract exactly when their addresses agree up to case; the contract is looked up
      by the address without capitals. */
  lemma AddressMeans(l: Log, m: Log)
    ensures Address(l) == Address(m) <==> SameText(l.address, m.address)
    ensures forall a :: NoCapitals(a) && SameText(l.address, a) <==> a == Address(l)
  {
    FoldIff(l.address, m.address);
    LowerMeans(l.address);
    forall a | NoCapitals(a) && SameText(l.address, a)
      ensures a == Address(l)
    {
      assert forall i :: 0 <= i < |a| ==> a[i] == ToLower(l.address)[i];
    }
  }

  /** No two visited addresses agree up to case, and there are no others than the logs'. */
  lemma VisitedApart(logs: seq<Log>, seen: set<string>, i: nat, j: nat)
    requires i < j < |Visited(logs, seen)|
    ensures !SameText(Visited(logs, seen)[i], Visited(logs, seen)[j])
  {
    var v := Visited(logs, seen);
    VisitedDistinct(logs, seen);
    VisitedLowered(logs, seen);
    FoldIff(v[i], v[j]);
  }

  /** Prefix `k` is the first that agrees with the name up to case. */
  ghost predicate FirstAlike(prefixes: seq<string>, name: string, k: int) {
    && 0 <= k < |prefixes| && SameText(prefixes[k], name)
    && forall j :: 0 <= j < k ==> !SameText(prefixes[j], name)
  }

  lemma {:induction false} MatchMeans(prefixes: seq<string>, name: string)
    ensures match Match(prefixes, name)
            case None => forall k :: 0 <= k < |prefixes| ==> !SameText(prefixes[k], name)
            case Some(p) => exists k :: FirstAlike(prefixes, name, k) && prefixes[k] == p
  {
    if prefixes != [] {
      FoldIff(prefixes[0], name);
      MatchMeans(prefixes[1..], name);
      if EqualFold(prefixes[0], name) {
        assert FirstAlike(prefixes, name, 0);
      } else if Match(prefixes[1..], name).Some? {
        var k :| FirstAlike(prefixes[1..], name, k) && prefixes[1..][k] == Match(prefixes[1..], name).value;
        forall j | 0 <= j < k + 1
          ensures !SameText(prefixes[j], name)
        {
          assert j > 0 ==> prefixes[j] == prefixes[1..][j - 1];
        }
        assert prefixes[k + 1] == prefixes[1..][k];
        assert FirstAlike(prefixes, name, k + 1);
      }
    }
  }

  lemma SameTextLower(p: string, name: string)
    ensures SameText(p, ToLower(name)) <==> SameText(p, name)
  {
    FoldIff(p, name);
    FoldIff(p, ToLower(name));
    assert ToLower(ToLower(name)) == ToLower(name);
  }

  /** The callback of an address: the first prefix that agrees with the configured name up to case; none
      exactly when there is no name or no such prefix. */
  lemma CallbackMeans(c: Config, address: string)
    ensures match CallbackFor(c, address)
            case None =>
              address !in c.contracts || c.contracts[address] == ""
              || forall k :: 0 <= k < |c.prefixes| ==> !SameText(c.prefixes[k], c.contracts[address])
            case Some(p) =>
              && address in c.contracts && c.contracts[address] != ""
              && exists k :: FirstAlike(c.prefixes, c.contracts[address], k) && c.prefixes[k] == p
  {
    if address in c.contracts && c.contracts[address] != "" {
      var name := c.contracts[address];
      MatchMeans(c.prefixes, ToLower(name));
      forall p
        ensures SameText(p, ToLower(name)) <==> SameText(p, name)
      {
        SameTextLower(p, name);
      }
      if Match(c.prefixes, ToLower(name)).Some? {
        var k :| FirstAlike(c.prefixes, ToLower(name), k) && c.prefixes[k] == Match(c.prefixes, ToLower(name)).value;
        assert FirstAlike(c.prefixes, name, k);
      }
    }
  }

  // ---------- de-duplication ----------

  /** Log `i` of `logs` is the first with its key. */
  ghost predicate IsFirst(logs: seq<Log>, i: nat)
    requires i < |logs|
  {
    Key(logs[i]) !in Keys(logs[..i])
  }

  lemma {:induction false} DedupKeys(logs: seq<Log>)
    ensures Keys(Dedup(logs)) == Keys(logs)
  {
    if logs != [] {
      var n := |logs| - 1;
      DedupKeys(logs[..n]);
      KeysGrow(logs, n);
      assert logs[..n + 1] == logs;
      if Key(logs[n]) !in Keys(logs[..n]) {
        KeysGrow(Dedup(logs), |Dedup(logs)| - 1);
        assert Dedup(logs)[..|Dedup(logs)| - 1] == Dedup(logs[..n]);
        assert Dedup(logs)[..|Dedup(logs)|] == Dedup(logs);
      }
    }
  }

  ghost predicate KeysDistinct(logs: seq<Log>) {
    forall i, j :: 0 <= i < j < |logs| ==> Key(logs[i]) != Key(logs[j])
  }

  lemma {:induction false} DedupDistinct(logs: seq<Log>)
    ensures KeysDistinct(Dedup(logs))
  {
    if logs != [] {
      var n := |logs| - 1;
      DedupDistinct(logs[..n]);
      DedupKeys(logs[..n]);
      forall l | l in Dedup(logs[..n])
        ensures Key(l) in Keys(logs[..n])
      {
        assert Key(l) in Keys(Dedup(logs[..n]));
      }
    }
  }

  /** `kept` is `logs` without the positions that are not first, in order: the positions kept. */
  ghost function Firsts(logs: seq<Log>): seq<nat> {
    if logs == [] then []
    else Firsts(logs[..|logs| - 1]) + if IsFirst(logs, |logs| - 1) then [|logs| - 1] else []
  }

  lemma FirstInPrefix(logs: seq<Log>, n: nat, i: nat)
    requires i < n <= |logs|
    ensures IsFirst(logs[..n], i) <==> IsFirst(logs, i)
  {
    assert logs[..n][..i] == logs[..i];
  }

  lemma {:induction false} FirstsExact(logs: seq<Log>)
    ensures forall k :: 0 <= k < |Firsts(logs)| ==> Firsts(logs)[k] < |logs|
    ensures forall i :: 0 <= i < |logs| ==> (i in Firsts(logs) <==> IsFirst(logs, i))
    ensures forall j, k :: 0 <= j < k < |Firsts(logs)| ==> Firsts(logs)[j] < Firsts(logs)[k]
  {
    if logs != [] {
      var n := |logs| - 1;
      FirstsExact(logs[..n]);
      forall i | 0 <= i < n
        ensures IsFirst(logs[..n], i) <==> IsFirst(logs, i)
      {
        FirstInPrefix(logs, n, i);
      }
    }
  }

  /** The logs kept are exactly those at the first position of their key, in their order. */
  lemma {:induction false} DedupKeepsFirsts(logs: seq<Log>)
    ensures |Dedup(logs)| == |Firsts(logs)|
    ensures forall k :: 0 <= k < |Firsts(logs)| ==> Firsts(logs)[k] < |logs| && Dedup(logs)[k] == logs[Firsts(logs)[k]]
    ensures forall i :: 0 <= i < |logs| ==> (i in Firsts(logs) <==> IsFirst(logs, i))
    ensures forall j, k :: 0 <= j < k < |Firsts(logs)| ==> Firsts(logs)[j] < Firsts(logs)[k]
  {
    FirstsExact(logs);
    if logs != [] {
      DedupKeepsFirsts(logs[..|logs| - 1]);
    }
  }

  lemma {:induction false} DedupFixed(logs: seq<Log>)
    requires KeysDistinct(logs)
    ensures Dedup(logs) == logs
  {
    if logs != [] {
      DedupFixed(logs[..|logs| - 1]);
    }
  }

  lemma DedupIdempotent(logs: seq<Log>)
    ensures Dedup(Dedup(logs)) == Dedup(logs)
  {
    DedupDistinct(logs);
    DedupFixed(Dedup(logs));
  }

  // ---------- callbacks ----------

  lemma {:induction false} VisitedWhat(logs: seq<Log>, seen: set<string>)
    ensures forall a :: a in Visited(logs, seen) <==> a in Addresses(logs) && a !in seen
  {
    if logs != [] {
      var n := |logs| - 1;
      VisitedWhat(logs[..n], seen);
      assert logs == logs[..n] + [logs[n]];
      assert Addresses(logs) == Addresses(logs[..n]) + {Address(logs[n])};
    }
  }

  /** Equal keys come from equal addresses. */
  ghost predicate KeysTellAddresses(logs: seq<Log>) {
    forall l, m :: l in logs && m in logs && Key(l) == Key(m) ==> Address(l) == Address(m)
  }

  /** Then dropping duplicates does not change which addresses are visited, nor their order. */
  lemma {:induction false} DedupKeepsVisits(logs: seq<Log>, seen: set<string>)
    requires KeysTellAddresses(logs)
    ensures Visited(Dedup(logs), seen) == Visited(logs, seen)
  {
    if logs != [] {
      var n := |logs| - 1;
      DedupKeepsVisits(logs[..n], seen);
      if Key(logs[n]) in Keys(logs[..n]) {
        var l :| l in logs[..n] && Key(l) == Key(logs[n]);
        assert l in logs && Address(l) in Addresses(logs[..n]);
        VisitedWhat(logs[..n], seen);
      } else {
        assert Dedup(logs)[..|Dedup(logs)| - 1] == Dedup(logs[..n]);
      }
    }
  }

  lemma {:induction false} SkippingNothing(logs: seq<Log>, seen: set<string>)
    requires Addresses(logs) !! seen
    ensures Visited(logs, seen) == DistinctAddresses(logs)
  {
    if logs != [] {
      var n := |logs| - 1;
      assert Addresses(logs[..n]) <= Addresses(logs);
      assert Address(logs[n]) in Addresses(logs);
      SkippingNothing(logs[..n], seen);
    }
  }

  // ---------- when de-duplication is transparent ----------

  /** Log `i` is the first with its address. */
  ghost predicate NewAddress(logs: seq<Log>, i: nat)
    requires i < |logs|
  {
    Address(logs[i]) !in Addresses(logs[..i])
  }

  /** Log `j` is kept and has the address of log `i`; the logs kept before it have only addresses that
      occur up to log `i`. */
  ghost predicate StandsIn(logs: seq<Log>, i: nat, j: nat)
    requires i < |logs| && j < |logs|
  {
    && IsFirst(logs, j) && Address(logs[j]) == Address(logs[i])
    && forall m :: 0 <= m < j && IsFirst(logs, m) ==> Address(logs[m]) in Addresses(logs[..i + 1])
  }

  /** A dropped log that is the first of its address is followed by a kept one of that address, before
      any address that is new after it. */
  ghost predicate KeptInTurn(logs: seq<Log>) {
    forall i :: 0 <= i < |logs| && NewAddress(logs, i) ==> exists j :: 0 <= j < |logs| && StandsIn(logs, i, j)
  }

  /** The distinct addresses among the first `n` logs, and among those of them that are kept. */
  ghost function Seen(logs: seq<Log>, n: nat): seq<string>
    requires n <= |logs|
  {
    DistinctAddresses(logs[..n])
  }

  ghost function Kept(logs: seq<Log>, n: nat): seq<string>
    requires n <= |logs|
  {
    if n == 0 then []
    else
      var rest, a := Kept(logs, n - 1), Address(logs[n - 1]);
      if IsFirst(logs, n - 1) && a !in rest then rest + [a] else rest
  }

  lemma SeenStep(logs: seq<Log>, n: nat)
    requires n < |logs|
    ensures Seen(logs, n + 1) == Seen(logs, n) + if NewAddress(logs, n) then [Address(logs[n])] else []
  {
    assert logs[..n + 1][..n] == logs[..n];
    VisitedWhat(logs[..n], {});
  }

  lemma {:induction false} KeptIsDedup(logs: seq<Log>, n: nat)
    requires n <= |logs|
    ensures Kept(logs, n) == DistinctAddresses(Dedup(logs[..n]))
  {
    if n > 0 {
      KeptIsDedup(logs, n - 1);
      assert logs[..n][..n - 1] == logs[..n - 1];
      var kept := Dedup(logs[..n - 1]);
      assert (kept + [logs[n - 1]])[..|kept|] == kept;
    }
  }

  lemma {:induction false} SeenGrows(logs: seq<Log>, m: nat, n: nat)
    requires m <= n <= |logs|
    ensures Seen(logs, m) <= Seen(logs, n)
  {
    if m < n {
      SeenGrows(logs, m, n - 1);
      SeenStep(logs, n - 1);
    }
  }

  lemma {:induction false} KeptGrows(logs: seq<Log>, m: nat, n: nat)
    requires m <= n <= |logs|
    ensures Kept(logs, m) <= Kept(logs, n)
  {
    if m < n { KeptGrows(logs, m, n - 1); }
  }

  lemma {:induction false} VisitedDistinct(logs: seq<Log>, seen: set<string>)
    ensures Distinct(Visited(logs, seen))
  {
    if logs != [] { VisitedDistinct(logs[..|logs| - 1], seen); }
  }

  lemma KeptHolds(logs: seq<Log>, m: nat, n: nat)
    requires m < n <= |logs| && IsFirst(logs, m)
    ensures Address(logs[m]) in Kept(logs, n)
  {
    assert Address(logs[m]) in Kept(logs, m + 1);
    KeptGrows(logs, m + 1, n);
  }

  /** The log that brings an address into the kept ones. */
  lemma {:induction false} BroughtBy(logs: seq<Log>, n: nat, a: string) returns (j: nat)
    requires n <= |logs| && a in Kept(logs, n)
    ensures j < n && IsFirst(logs, j) && Address(logs[j]) == a
    ensures a !in Kept(logs, j) && Kept(logs, j) + [a] <= Kept(logs, n)
  {
    if a in Kept(logs, n - 1) {
      j := BroughtBy(logs, n - 1, a);
    } else {
      j := n - 1;
    }
  }

  /** Two beginnings of a repetition-free sequence that `a` follows are the same. */
  lemma SamePlace(all: seq<string>, p: seq<string>, q: seq<string>, a: string)
    requires Distinct(all) && p + [a] <= all && q + [a] <= all
    ensures p == q
  {
    assert all[|p|] == a && all[|q|] == a;
    assert p == all[..|p|] && q == all[..|q|];
  }

  lemma SeenAmong(logs: seq<Log>, i: nat, a: string)
    requires i < |logs| && a in Seen(logs, i)
    ensures a in Addresses(logs[..i + 1])
  {
    VisitedWhat(logs[..i], {});
    assert logs[..i + 1] == logs[..i] + [logs[i]];
  }

  lemma TurnTaken(logs: seq<Log>, i: nat, j: nat)
    requires i < |logs| && j < |logs| && IsFirst(logs, j) && Address(logs[j]) == Address(logs[i])
    requires Kept(logs, j) == Seen(logs, i)
    ensures StandsIn(logs, i, j)
  {
    forall m | 0 <= m < j && IsFirst(logs, m)
      ensures Address(logs[m]) in Addresses(logs[..i + 1])
    {
      KeptHolds(logs, m, j);
      SeenAmong(logs, i, Address(logs[m]));
    }
  }

  lemma TurnNeeded(logs: seq<Log>, i: nat)
    requires Kept(logs, |logs|) == Seen(logs, |logs|) && i < |logs| && NewAddress(logs, i)
    ensures exists j :: 0 <= j < |logs| && StandsIn(logs, i, j)
  {
    var n, a := |logs|, Address(logs[i]);
    SeenStep(logs, i);
    SeenGrows(logs, i + 1, n);
    assert a in Seen(logs, i + 1);
    var j := BroughtBy(logs, n, a);
    VisitedDistinct(logs[..n], {});
    SamePlace(Seen(logs, n), Seen(logs, i), Kept(logs, j), a);
    TurnTaken(logs, i, j);
  }

  /** What was kept before `a`, if seen before `a`, is all that was seen before it. */
  lemma NextInLine(all: seq<string>, kept: seq<string>, before: seq<string>, a: string)
    requires Distinct(kept) && (forall k :: 0 <= k < |kept| ==> kept[k] in before) && a !in before
    requires kept + [a] <= all && before <= all
    ensures before + [a] <= all
  {
    Pigeonhole(kept, before);
    assert all[|kept|] == a;
    assert forall k :: 0 <= k < |before| ==> before[k] == all[k];
    assert kept == all[..|kept|] && before == all[..|before|];
  }

  lemma SeenBefore(logs: seq<Log>, n: nat, a: string)
    requires n < |logs|
    ensures a in Addresses(logs[..n + 1]) ==> a in Seen(logs, n) || a == Address(logs[n])
    ensures NewAddress(logs, n) ==> Address(logs[n]) !in Seen(logs, n)
  {
    VisitedWhat(logs[..n], {});
    assert logs[..n + 1] == logs[..n] + [logs[n]];
  }

  lemma FirstKept(logs: seq<Log>, j': nat) returns (j: nat)
    requires j' < |logs| && IsFirst(logs, j')
    ensures j <= j' && Address(logs[j']) !in Kept(logs, j)
    ensures Kept(logs, j) + [Address(logs[j'])] <= Kept(logs, |logs|)
  {
    KeptHolds(logs, j', j' + 1);
    j := BroughtBy(logs, j' + 1, Address(logs[j']));
    KeptGrows(logs, j' + 1, |logs|);
  }

  lemma KeptDistinct(logs: seq<Log>, n: nat)
    requires n <= |logs|
    ensures Distinct(Kept(logs, n))
  {
    KeptIsDedup(logs, n);
    VisitedDistinct(Dedup(logs[..n]), {});
  }

  lemma KeptSeenBefore(logs: seq<Log>, n: nat, j': nat, j: nat)
    requires n < |logs| && j <= j' < |logs| && StandsIn(logs, n, j') && Address(logs[n]) !in Kept(logs, j)
    ensures forall k :: 0 <= k < |Kept(logs, j)| ==> Kept(logs, j)[k] in Seen(logs, n)
  {
    var kept := Kept(logs, j);
    forall k | 0 <= k < |kept|
      ensures kept[k] in Seen(logs, n)
    {
      var m := BroughtBy(logs, j, kept[k]);
      SeenBefore(logs, n, kept[k]);
    }
  }

  /** The kept addresses come to hold a new address right after those seen before it. */
  lemma TurnComes(logs: seq<Log>, n: nat, j': nat)
    requires n < |logs| && j' < |logs| && NewAddress(logs, n) && StandsIn(logs, n, j')
    requires Seen(logs, n) <= Kept(logs, |logs|)
    ensures Seen(logs, n) + [Address(logs[n])] <= Kept(logs, |logs|)
  {
    var a := Address(logs[n]);
    var j := FirstKept(logs, j');
    KeptSeenBefore(logs, n, j', j);
    KeptDistinct(logs, j);
    SeenBefore(logs, n, a);
    NextInLine(Kept(logs, |logs|), Kept(logs, j), Seen(logs, n), a);
  }

  lemma {:induction false} TurnSuffices(logs: seq<Log>, n: nat)
    requires n <= |logs| && KeptInTurn(logs)
    ensures Seen(logs, n) <= Kept(logs, |logs|)
  {
    if n > 0 {
      var i := n - 1;
      TurnSuffices(logs, i);
      SeenStep(logs, i);
      if NewAddress(logs, i) {
        var j :| 0 <= j < |logs| && StandsIn(logs, i, j);
        TurnComes(logs, i, j);
      }
    }
  }

  lemma KeptAmongSeen(logs: seq<Log>)
    ensures forall a :: a in DistinctAddresses(Dedup(logs)) ==> a in DistinctAddresses(logs)
  {
    forall a | a in DistinctAddresses(Dedup(logs))
      ensures a in DistinctAddresses(logs)
    {
      assert logs[..|logs|] == logs;
      KeptIsDedup(logs, |logs|);
      var m := BroughtBy(logs, |logs|, a);
      assert Address(logs[m]) in Addresses(logs);
      VisitedWhat(logs, {});
    }
  }

  /** Dropping duplicates keeps the distinct addresses, in their order, exactly when every address is
      kept in its turn. */
  lemma DedupKeepsAddressesIff(logs: seq<Log>)
    ensures DistinctAddresses(Dedup(logs)) == DistinctAddresses(logs) <==> KeptInTurn(logs)
  {
    var n := |logs|;
    assert logs[..n] == logs;
    KeptIsDedup(logs, n);
    if Kept(logs, n) == Seen(logs, n) {
      forall i | 0 <= i < n && NewAddress(logs, i)
        ensures exists j :: 0 <= j < n && StandsIn(logs, i, j)
      {
        TurnNeeded(logs, i);
      }
    }
    if KeptInTurn(logs) {
      TurnSuffices(logs, n);
      KeptAmongSeen(logs);
      KeptDistinct(logs, n);
      Pigeonhole(Kept(logs, n), Seen(logs, n));
    }
  }

  lemma KeptAddresses(logs: seq<Log>)
    ensures Addresses(Dedup(logs)) <= Addresses(logs)
  {
    forall a | a in Addresses(Dedup(logs))
      ensures a in Addresses(logs)
    {
      VisitedWhat(Dedup(logs), {});
      assert a in DistinctAddresses(Dedup(logs));
      KeptAmongSeen(logs);
      VisitedWhat(logs, {});
    }
  }

  /** No contract is passed over exactly when no address is also the key of a log and every address
      has a log that is kept. */
  lemma AllVisitedIff(logs: seq<Log>)
    ensures (forall a :: a in Addresses(logs) ==> a in Visited(Dedup(logs), Keys(logs))) <==>
            Addresses(logs) !! Keys(logs) && Addresses(logs) <= Addresses(Dedup(logs))
  {
    VisitedWhat(Dedup(logs), Keys(logs));
  }

  /** The addresses visited are each distinct address once, in order of first occurrence, exactly when
      no address is also the key of a log and every address is kept in its turn. */
  lemma TransparentIff(logs: seq<Log>)
    ensures Visited(Dedup(logs), Keys(logs)) == DistinctAddresses(logs) <==>
            Addresses(logs) !! Keys(logs) && KeptInTurn(logs)
  {
    KeptAddresses(logs);
    DedupKeepsAddressesIff(logs);
    if Addresses(logs) !! Keys(logs) {
      SkippingNothing(Dedup(logs), Keys(logs));
    } else {
      var a :| a in Addresses(logs) && a in Keys(logs);
      VisitedWhat(logs, {});
      VisitedWhat(Dedup(logs), Keys(logs));
      assert a in DistinctAddresses(logs) && a !in Visited(Dedup(logs), Keys(logs));
    }
  }

  // ---------- callbacks under every configuration ----------

  function NameOf(address: string): string {
    "n" + address
  }

  function Names(addresses: seq<string>): seq<string> {
    seq(|addresses|, i requires 0 <= i < |addresses| => NameOf(addresses[i]))
  }

  /** A configuration whose callbacks tell the addresses apart. */
  function Telling(addresses: seq<string>): Config {
    Config(map a | a in addresses :: NameOf(a), Names(addresses))
  }

  ghost predicate Lowered(words: seq<string>) {
    forall i :: 0 <= i < |words| ==> ToLower(words[i]) == words[i]
  }

  lemma {:induction false} MatchFinds(prefixes: seq<string>, name: string)
    requires Lowered(prefixes) && ToLower(name) == name && name in prefixes
    ensures Match(prefixes, name) == Some(name)
  {
    if prefixes[0] != name { MatchFinds(prefixes[1..], name); }
  }

  lemma TellingFor(addresses: seq<string>, a: string)
    requires Lowered(addresses) && a in addresses
    ensures CallbackFor(Telling(addresses), a) == Some(NameOf(a))
  {
    var i :| 0 <= i < |addresses| && addresses[i] == a;
    assert Names(addresses)[i] == NameOf(a);
    assert forall k :: 0 <= k < |addresses| ==> ToLower(NameOf(addresses[k])) == NameOf(ToLower(addresses[k]));
    MatchFinds(Names(addresses), NameOf(a));
  }

  lemma {:induction false} TellingFires(addresses: seq<string>, some: seq<string>)
    requires Lowered(addresses) && forall k :: 0 <= k < |some| ==> some[k] in addresses
    ensures Fired(Telling(addresses), some) == Names(some)
  {
    if some != [] {
      var n := |some| - 1;
      TellingFires(addresses, some[..n]);
      TellingFor(addresses, some[n]);
    }
  }

  lemma NamesTell(a: seq<string>, b: seq<string>)
    requires Names(a) == Names(b)
    ensures a == b
  {
    forall i | 0 <= i < |a|
      ensures a[i] == b[i]
    {
      assert Names(a)[i] == Names(b)[i];
      assert a[i] == NameOf(a[i])[1..] && b[i] == NameOf(b[i])[1..];
    }
  }

  lemma {:induction false} VisitedLowered(logs: seq<Log>, seen: set<string>)
    ensures Lowered(Visited(logs, seen))
  {
    if logs != [] { VisitedLowered(logs[..|logs| - 1], seen); }
  }

  lemma VisitedAmong(logs: seq<Log>)
    ensures forall a :: a in Visited(Dedup(logs), Keys(logs)) ==> a in DistinctAddresses(logs)
  {
    KeptAddresses(logs);
    VisitedWhat(logs, {});
    VisitedWhat(Dedup(logs), Keys(logs));
  }

  lemma FiredTells(visited: seq<string>, all: seq<string>)
    requires Lowered(all) && forall a :: a in visited ==> a in all
    ensures (forall c :: Fired(c, visited) == Fired(c, all)) <==> visited == all
  {
    TellingFires(all, visited);
    TellingFires(all, all);
    if Names(visited) == Names(all) { NamesTell(visited, all); }
  }

  /** Under every configuration the callbacks are those of each distinct address once, in order of first
      occurrence, exactly when no address is also the key of a log and every address is kept in turn. */
  lemma CallbacksIff(logs: seq<Log>)
    ensures (forall c :: Fired(c, Visited(Dedup(logs), Keys(logs))) == Fired(c, DistinctAddresses(logs))) <==>
            Addresses(logs) !! Keys(logs) && KeptInTurn(logs)
  {
    TransparentIff(logs);
    VisitedAmong(logs);
    VisitedLowered(logs, {});
    FiredTells(Visited(Dedup(logs), Keys(logs)), DistinctAddresses(logs));
  }

  ghost predicate UnderscoreFree(s: string) {
    '_' !in s
  }

  lemma LowerUnderscoreFree(s: string)
    requires UnderscoreFree(s)
    ensures UnderscoreFree(ToLower(s))
  {
  }

  ghost predicate FirstUnderscore(s: string, n: nat) {
    n < |s| && s[n] == '_' && forall i :: 0 <= i < n ==> s[i] != '_'
  }

  /** Text splits in one way at its first underscore. */
  lemma SplitUnique(a: string, b: string, a': string, b': string)
    requires UnderscoreFree(a) && UnderscoreFree(a') && a + "_" + b == a' + "_" + b'
    ensures a == a' && b == b'
  {
    var s, s' := a + "_" + b, a' + "_" + b';
    assert FirstUnderscore(s, |a|) && FirstUnderscore(s', |a'|);
    assert |a| == |a'|;
    assert a == s[..|a|] && a' == s'[..|a'|];
    assert b == s[|a| + 1..] && b' == s'[|a'| + 1..];
  }

  lemma KeySplits(l: Log)
    ensures Key(l) == Address(l) + "_" + (l.data + "_" + Join(l.topics))
  {
  }

  lemma UnderscoreFreeTransparent(logs: seq<Log>)
    requires forall l :: l in logs ==> UnderscoreFree(l.address)
    ensures KeptInTurn(logs) && Addresses(logs) !! Keys(logs)
  {
    forall l | l in logs
      ensures UnderscoreFree(Address(l)) && '_' in Key(l)
    {
      LowerUnderscoreFree(l.address);
      assert Key(l)[|Address(l)|] == '_';
    }
    forall l, m | l in logs && m in logs && Key(l) == Key(m)
      ensures Address(l) == Address(m)
    {
      KeySplits(l);
      KeySplits(m);
      SplitUnique(Address(l), l.data + "_" + Join(l.topics), Address(m), m.data + "_" + Join(m.topics));
    }
    DedupKeepsVisits(logs, {});
    DedupKeepsAddressesIff(logs);
  }

  /** For underscore-free addresses, the callbacks made are those for each distinct lowercased address
      of the raw logs, once each and in order of first occurrence. */
  lemma CallbacksOncePerAddress(c: Config, logs: seq<Log>)
    requires forall l :: l in logs ==> UnderscoreFree(l.address)
    ensures Fired(c, Visited(Dedup(logs), Keys(logs))) == Fired(c, DistinctAddresses(logs))
  {
    UnderscoreFreeTransparent(logs);
    TransparentIff(logs);
  }

  lemma OneLog(a: Log, seen: set<string>)
    ensures Keys([a]) == {Key(a)} && Dedup([a]) == [a]
    ensures Visited([a], seen) == if Address(a) in seen then [] else [Address(a)]
  {
    assert [a][..0] == [];
  }

  lemma TwoKept(a: Log, b: Log)
    ensures Keys([a, b]) == {Key(a), Key(b)}
    ensures Dedup([a, b]) == if Key(a) == Key(b) then [a] else [a, b]
  {
    var logs := [a, b];
    assert logs[..1] == [a] && logs[..2] == logs;
    OneLog(a, {});
    KeysGrow(logs, 1);
    DedupGrows(logs, 1);
  }

  lemma TwoVisited(a: Log, b: Log, seen: set<string>)
    requires Address(a) != Address(b) && Address(a) !in seen
    ensures Visited([a, b], seen) == [Address(a)] + if Address(b) in seen then [] else [Address(b)]
  {
    assert [a, b][..1] == [a];
    OneLog(a, seen);
  }

  /** An address that reads like a key is passed over. */
  lemma UnderscoresHideAddress(a: Log, b: Log)
    requires a == Log([], "", "x") && b == Log([], "", "x__")
    ensures Visited(Dedup([a, b]), Keys([a, b])) == ["x"] && DistinctAddresses([a, b]) == ["x", "x__"]
  {
    assert Address(a) == "x" && Address(b) == "x__";
    assert Key(a) == "x__" && Key(b) == "x____";
    TwoKept(a, b);
    TwoVisited(a, b, {});
    TwoVisited(a, b, Keys([a, b]));
  }

  /** An address whose only log has the key of another contract's log is passed over, although no
      address is a key. */
  lemma SharedKeyHidesAddress(a: Log, b: Log)
    requires a == Log([], "c", "a_b") && b == Log([], "b_c", "a")
    ensures Addresses([a, b]) !! Keys([a, b])
    ensures Visited(Dedup([a, b]), Keys([a, b])) == ["a_b"] && DistinctAddresses([a, b]) == ["a_b", "a"]
  {
    assert Address(a) == "a_b" && Address(b) == "a";
    assert Key(a) == "a_b_c_" && Key(b) == "a_b_c_";
    SharedKey(a, b);
  }

  lemma SharedKey(a: Log, b: Log)
    requires Key(a) == Key(b) && Address(a) != Address(b) && Address(a) != Key(a) && Address(b) != Key(a)
    ensures Addresses([a, b]) !! Keys([a, b])
    ensures Visited(Dedup([a, b]), Keys([a, b])) == [Address(a)]
    ensures DistinctAddresses([a, b]) == [Address(a), Address(b)]
  {
    var logs, one := [a, b], [a];
    TwoKept(a, b);
    TwoVisited(a, b, {});
    assert Addresses(logs) == {Address(a), Address(b)};
    var keys := Keys(logs);
    assert keys == {Key(a)} && Dedup(logs) == one;
    OneLog(a, keys);
  }

  ghost predicate FixedWidth(parts: seq<string>, w: nat) {
    forall i :: 0 <= i < |parts| ==> |parts[i]| == w
  }

  lemma {:induction false} JoinInjective(a: seq<string>, b: seq<string>, w: nat)
    requires w > 0 && FixedWidth(a, w) && FixedWidth(b, w) && Join(a) == Join(b)
    ensures a == b
  {
    assert a == [] <==> b == [];
    if a != [] {
      var m, n := |a| - 1, |b| - 1;
      var ja, jb := Join(a[..m]), Join(b[..n]);
      assert |ja| == |Join(a)| - w == |jb|;
      assert ja == Join(a)[..|ja|] && a[m] == Join(a)[|ja|..];
      assert jb == Join(b)[..|jb|] && b[n] == Join(b)[|jb|..];
      JoinInjective(a[..m], b[..n], w);
      assert a == a[..m] + [a[m]] && b == b[..n] + [b[n]];
    }
  }

  /** With underscore-free addresses and data and topics of one width, a log is dropped only for an
      earlier one that is equal up to the case of the address. */
  lemma OnlyTrueDuplicatesDropped(l: Log, m: Log, w: nat)
    requires UnderscoreFree(l.address) && UnderscoreFree(m.address) && UnderscoreFree(l.data) && UnderscoreFree(m.data)
    requires w > 0 && FixedWidth(l.topics, w) && FixedWidth(m.topics, w)
    ensures Key(l) == Key(m) <==> l.(address := Address(l)) == m.(address := Address(m))
  {
    if Key(l) == Key(m) {
      KeySplits(l);
      KeySplits(m);
      LowerUnderscoreFree(l.address);
      LowerUnderscoreFree(m.address);
      SplitUnique(Address(l), l.data + "_" + Join(l.topics), Address(m), m.data + "_" + Join(m.topics));
      SplitUnique(l.data, Join(l.topics), m.data, Join(m.topics));
      JoinInjective(l.topics, m.topics, w);
    }
  }
}
