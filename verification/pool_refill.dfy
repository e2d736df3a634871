/**
 * Refilling the recommendation pool (`RecommendationPoolRefillService`):
 * under the version's refill lock, and unless the pool already holds its
 * target of 20 symbols, pick at most 5 new plain ticker symbols from a
 * shuffled sample of the catalog and append the ones not yet in the pool.
 *
 * The catalog's answer, both shuffles, the clock and the commands other
 * processes run while the catalog is fetched or while warm-up sleeps are
 * parameters.
 */
module PoolRefill {
  import opened Common
  import opened Text
  import opened KeyValue
  import opened StockCatalog
  import opened RecommendationPool

  const PoolTarget: int := 20
  const RefillBatch: int := 5
  const WarmUpPasses: nat := 10

  /** `isSafeCommonStockSymbol` of the refill service: one to six letters once trimmed and upper-cased. */
  predicate IsPickable(item: StockItem) {
    IsSafeSymbol(item.symbol, 6)
  }

  /** The pool form of a pickable symbol. */
  function PoolSymbol(item: StockItem): string
    requires IsPickable(item)
  {
    ToUpper(Trim(item.symbol.value))
  }

  /** One turn of the picking loop: a pickable entry whose symbol is not yet picked is appended. */
  function PickStep(out: seq<string>, item: StockItem): seq<string> {
    if IsPickable(item) && PoolSymbol(item) !in out then out + [PoolSymbol(item)] else out
  }

  /** The picking loop from entry `i` on, with `out` picked so far: it stops when `target` symbols are picked or `maxAttempts` entries are inspected. */
  function PickFrom(items: seq<StockItem>, target: int, maxAttempts: int, i: nat, out: seq<string>): seq<string>
    decreases |items| - i
  {
    if i >= |items| || |out| >= target || i >= maxAttempts then out
    else PickFrom(items, target, maxAttempts, i + 1, PickStep(out, items[i]))
  }

  /** The symbols picked from `items`. */
  function Pick(items: seq<StockItem>, target: int, maxAttempts: int): seq<string> {
    PickFrom(items, target, maxAttempts, 0, [])
  }

  /** `x` is the pool form of a pickable entry among the first `limit` ones. */
  predicate FromInspected(items: seq<StockItem>, limit: int, x: string) {
    exists j :: 0 <= j < limit && j < |items| && IsPickable(items[j]) && PoolSymbol(items[j]) == x
  }

  /** Everything the picking loop collects satisfies `Picked`: a plain ticker from the inspected entries. */
  predicate AllPicked(items: seq<StockItem>, limit: int, out: seq<string>) {
    forall k :: 0 <= k < |out| ==> IsUpperLetters(out[k], 6) && FromInspected(items, limit, out[k])
  }

  lemma PickStepFacts(items: seq<StockItem>, target: int, maxAttempts: int, i: nat, out: seq<string>)
    requires i < |items| && i < maxAttempts && |out| < target
    requires NoDuplicates(out) && AllPicked(items, i, out)
    ensures var next := PickStep(out, items[i]);
      NoDuplicates(next) && AllPicked(items, i + 1, next) && |next| <= |out| + 1
  {
    var next := PickStep(out, items[i]);
    forall k | 0 <= k < |next|
      ensures IsUpperLetters(next[k], 6) && FromInspected(items, i + 1, next[k])
    {
      if k == |out| {
        assert IsPickable(items[i]) && PoolSymbol(items[i]) == next[k];
      } else {
        assert FromInspected(items, i, out[k]);
        var j :| 0 <= j < i && j < |items| && IsPickable(items[j]) && PoolSymbol(items[j]) == out[k];
        assert FromInspected(items, i + 1, next[k]);
      }
    }
  }

  /**
   * What the picking loop gives: at most `target` symbols, none twice, each
   * one to six letters A-Z and each the pool form of one of the first
   * `maxAttempts` entries.
   */
  lemma {:induction false} PickFromFacts(items: seq<StockItem>, target: int, maxAttempts: int, i: nat, out: seq<string>)
    requires i <= |items| && i <= Max(maxAttempts, 0)
    requires |out| <= Max(target, 0) && NoDuplicates(out) && AllPicked(items, i, out)
    ensures var r := PickFrom(items, target, maxAttempts, i, out);
      |r| <= Max(target, 0) && NoDuplicates(r) && AllPicked(items, maxAttempts, r)
    decreases |items| - i
  {
    if i >= |items| || |out| >= target || i >= maxAttempts {
      AllPickedWidens(items, i, maxAttempts, out);
    } else {
      PickStepFacts(items, target, maxAttempts, i, out);
      var next := PickStep(out, items[i]);
      assert PickFrom(items, target, maxAttempts, i, out) == PickFrom(items, target, maxAttempts, i + 1, next);
      PickFromFacts(items, target, maxAttempts, i + 1, next);
    }
  }

  /** What was picked from the first `lo` entries was picked from the first `hi` entries too, for `hi >= lo` (nothing is picked from none). */
  lemma AllPickedWidens(items: seq<StockItem>, lo: int, hi: int, out: seq<string>)
    requires lo <= Max(hi, 0) && AllPicked(items, lo, out)
    ensures AllPicked(items, hi, out)
  {
    if lo <= hi {
      forall k | 0 <= k < |out| ensures FromInspected(items, hi, out[k]) {
        assert FromInspected(items, lo, out[k]);
      }
    } else {
      assert |out| > 0 ==> FromInspected(items, lo, out[0]);
      assert |out| == 0;
    }
  }

  /** The picked symbols: at most `target`, distinct, plain tickers, from the first `maxAttempts` entries. */
  lemma PickFacts(items: seq<StockItem>, target: int, maxAttempts: int)
    ensures var r := Pick(items, target, maxAttempts);
      |r| <= Max(target, 0) && NoDuplicates(r) && AllPicked(items, maxAttempts, r)
  {
    PickFromFacts(items, target, maxAttempts, 0, []);
  }

  /** The loop only grows what it has picked. */
  lemma {:induction false} PickFromExtends(items: seq<StockItem>, target: int, maxAttempts: int, i: nat, out: seq<string>)
    ensures var r := PickFrom(items, target, maxAttempts, i, out);
      |out| <= |r| && r[..|out|] == out
    decreases |items| - i
  {
    if !(i >= |items| || |out| >= target || i >= maxAttempts) {
      PickFromExtends(items, target, maxAttempts, i + 1, PickStep(out, items[i]));
    }
  }

  /**
   * Nothing pickable is passed over: when every entry may be inspected and
   * fewer than `target` symbols come out, every pickable entry's symbol is
   * among them.
   */
  lemma {:induction false} PickFromComplete(items: seq<StockItem>, target: int, maxAttempts: int, i: nat, out: seq<string>, j: nat)
    requires maxAttempts >= |items| && i <= j < |items| && IsPickable(items[j])
    requires |PickFrom(items, target, maxAttempts, i, out)| < target
    ensures PoolSymbol(items[j]) in PickFrom(items, target, maxAttempts, i, out)
    decreases |items| - i
  {
    var next := PickStep(out, items[i]);
    PickFromExtends(items, target, maxAttempts, i + 1, next);
    if i == j {
      assert PoolSymbol(items[j]) in next;
      var r := PickFrom(items, target, maxAttempts, i + 1, next);
      assert r[..|next|] == next;
      assert PoolSymbol(items[j]) in r[..|next|];
    } else {
      PickFromComplete(items, target, maxAttempts, i + 1, next, j);
    }
  }

  /** `pickSymbols`: nothing for a non-positive need; otherwise the picking loop over the catalog's sample, shuffled again. */
  method PickSymbols(need: int, catalog: CatalogAnswer, candidatePool: int, maxAttempts: int,
                     catalogShuffle: seq<StockItem> -> seq<StockItem>, pickShuffle: seq<StockItem> -> seq<StockItem>)
    returns (r: Result<seq<string>>)
    requires IsShuffle(catalogShuffle) && IsShuffle(pickShuffle)
    ensures r == PickSymbolsF(need, catalog, candidatePool, maxAttempts, catalogShuffle, pickShuffle)
  {
    var target := Max(0, need);
    if target == 0 {
      return Ok([]);
    }
    var pool := GetCandidatePool(catalog, candidatePool, catalogShuffle);
    if pool.Err? {
      return Err(pool.error);
    }
    if pool.value == [] {
      return Ok([]);
    }
    var shuffled := pickShuffle(pool.value);
    var out := PickLoop(shuffled, target, maxAttempts);
    return Ok(out);
  }

  /** The loop of `pickSymbols` over the shuffled sample. */
  method PickLoop(shuffled: seq<StockItem>, target: int, maxAttempts: int) returns (out: seq<string>)
    ensures out == Pick(shuffled, target, maxAttempts)
  {
    out := [];
    var used: set<string> := {};
    var attempts := 0;
    var i := 0;
    while i < |shuffled|
      invariant 0 <= i <= |shuffled| && attempts == i
      invariant used == Elems(out)
      invariant PickFrom(shuffled, target, maxAttempts, i, out) == Pick(shuffled, target, maxAttempts)
    {
      if |out| >= target { break; }
      if attempts >= maxAttempts { break; }
      attempts := attempts + 1;
      var item := shuffled[i];
      if IsSafeSymbol(item.symbol, 6) {
        var upper := ToUpper(Trim(item.symbol.value));
        if upper !in used {
          used := used + {upper};
          out := out + [upper];
        }
      }
      i := i + 1;
    }
  }

  function PickSymbolsF(need: int, catalog: CatalogAnswer, candidatePool: int, maxAttempts: int,
                        catalogShuffle: seq<StockItem> -> seq<StockItem>, pickShuffle: seq<StockItem> -> seq<StockItem>)
    : Result<seq<string>>
    requires IsShuffle(catalogShuffle)
  {
    if Max(0, need) == 0 then Ok([])
    else match GetCandidatePool(catalog, candidatePool, catalogShuffle)
      case Err(e) => Err(e)
      case Ok(pool) => if pool == [] then Ok([]) else Ok(Pick(pickShuffle(pool), Max(0, need), maxAttempts))
  }

  /** How a refill pass ends. */
  datatype RefillOutcome = LockBusy | CooldownActive | PoolFull | Refilled(added: nat) | Failed(failure: Failure)

  /** The settings and nondeterministic inputs of one pass. */
  datatype PassInputs = PassInputs(
    now: int, catalog: CatalogAnswer, candidatePool: int, maxAttempts: int,
    catalogShuffle: seq<StockItem> -> seq<StockItem>, pickShuffle: seq<StockItem> -> seq<StockItem>,
    duringPick: seq<Op>)

  ghost predicate ValidInputs(p: PassInputs) {
    IsShuffle(p.catalogShuffle) && IsShuffle(p.pickShuffle)
  }

  /**
   * One refill pass on the store's content (`refillAsync` with the cooldown,
   * `refillOnceNoCooldown` without): take the lock or give up; check the
   * cooldown and the pool's size; pick while others may run `duringPick`;
   * append, record the time; and in every case after taking the lock,
   * delete the lock key.
   */
  function RefillF(s0: Snapshot, v: string, withCooldown: bool, p: PassInputs): (RefillOutcome, Snapshot)
    requires ValidInputs(p)
  {
    var (s1, locked) := SetIfAbsentF(s0, LockKey(v), "1", Some(RefillLockTtlSeconds));
    if !locked then (LockBusy, s0)
    else
      var (outcome, s2) := match Gate(s1, v, withCooldown, p.now)
        case Some(stop) => (stop, s1)
        case None => Fill(s1, v, p);
      (outcome, DeleteF(s2, LockKey(v)).0)
  }

  /** Why a pass holding the lock stops before picking, if it does: a cooldown record that does not parse, a cooldown still running, or a full pool. */
  function Gate(s: Snapshot, v: string, withCooldown: bool, now: int): (r: Option<RefillOutcome>)
    ensures r.None? ==> |ListOf(s, ListKey(v))| < PoolTarget
    ensures r.Some? ==> r.value in {CooldownActive, PoolFull} || r.value.Failed?
  {
    var cooldown := if withCooldown then CooldownPassedF(s, v, now) else Ok(true);
    if cooldown.Err? then Some(Failed(cooldown.error))
    else if !cooldown.value then Some(CooldownActive)
    else if ListLengthF(s, ListKey(v)) >= PoolTarget then Some(PoolFull)
    else None
  }

  /** The picking part of a pass that holds the lock: pick while others run `duringPick`, append what is new, record the time. */
  function Fill(s: Snapshot, v: string, p: PassInputs): (RefillOutcome, Snapshot)
    requires ValidInputs(p)
  {
    var need := Min(RefillBatch, PoolTarget - ListLengthF(s, ListKey(v)));
    var s2 := ApplyOps(s, p.duringPick);
    match PickSymbolsF(need, p.catalog, p.candidatePool, p.maxAttempts, p.catalogShuffle, p.pickShuffle)
    case Err(e) => (Failed(e), s2)
    case Ok(picked) =>
      var (s3, added) := AddAllUniqueF(s2, v, Some(picked));
      (Refilled(added), UpdateLastRunAtF(s3, v, p.now))
  }

  /** One pass, against the shared store. */
  method RefillPass(store: Store, v: string, withCooldown: bool, p: PassInputs) returns (outcome: RefillOutcome)
    requires ValidInputs(p)
    modifies store
    ensures (outcome, store.State()) == RefillF(old(store.State()), v, withCooldown, p)
  {
    var locked := TryLock(store, v);
    if !locked {
      return LockBusy;
    }
    if withCooldown {
      var cooldown := IsCooldownPassed(store, v, p.now);
      if cooldown.Err? {
        Unlock(store, v);
        return Failed(cooldown.error);
      }
      if !cooldown.value {
        Unlock(store, v);
        return CooldownActive;
      }
    }
    var size := Size(store, v);
    if size >= PoolTarget {
      Unlock(store, v);
      return PoolFull;
    }
    var need := Min(RefillBatch, PoolTarget - size);
    store.Interleave(p.duringPick);
    var picked := PickSymbols(need, p.catalog, p.candidatePool, p.maxAttempts, p.catalogShuffle, p.pickShuffle);
    if picked.Err? {
      Unlock(store, v);
      return Failed(picked.error);
    }
    var added := AddAllUnique(store, v, Some(picked.value));
    UpdateLastRunAt(store, v, p.now);
    Unlock(store, v);
    outcome := Refilled(added);
  }

  /** `refillAsync`. */
  method RefillAsync(store: Store, v: string, p: PassInputs) returns (outcome: RefillOutcome)
    requires ValidInputs(p)
    modifies store
    ensures (outcome, store.State()) == RefillF(old(store.State()), v, true, p)
  {
    outcome := RefillPass(store, v, true, p);
  }

  /** `refillOnceNoCooldown`. */
  method RefillOnceNoCooldown(store: Store, v: string, p: PassInputs) returns (outcome: RefillOutcome)
    requires ValidInputs(p)
    modifies store
    ensures (outcome, store.State()) == RefillF(old(store.State()), v, false, p)
  {
    outcome := RefillPass(store, v, false, p);
  }

  /** A pass that finds the lock taken changes nothing; a pass that takes it always ends with no lock key, whoever holds it by then. */
  lemma RefillLockDiscipline(s0: Snapshot, v: string, withCooldown: bool, p: PassInputs)
    requires ValidInputs(p)
    ensures var (outcome, s1) := RefillF(s0, v, withCooldown, p);
      (outcome == LockBusy <==> Exists(s0, LockKey(v)))
      && (outcome == LockBusy ==> s1 == s0)
      && (outcome != LockBusy ==> !Exists(s1, LockKey(v)))
  {
  }

  /**
   * A pass never grows the pool by more than five symbols, and a pool below
   * its target never grows past it, when no other process writes the pool
   * while the catalog is fetched; the pool stays duplicate-free and in step
   * with its set.
   */
  lemma RefillBounded(s0: Snapshot, v: string, withCooldown: bool, p: PassInputs)
    requires ValidInputs(p)
    requires PoolConsistent(s0, v)
    requires forall i :: 0 <= i < |p.duringPick| ==> p.duringPick[i].key != ListKey(v) && p.duringPick[i].key != SetKey(v)
    ensures var s1 := RefillF(s0, v, withCooldown, p).1;
      var before, after := |ListOf(s0, ListKey(v))|, |ListOf(s1, ListKey(v))|;
      before <= after <= before + RefillBatch
      && (before < PoolTarget ==> after <= PoolTarget)
      && PoolConsistent(s1, v)
  {
    var (sl, locked) := SetIfAbsentF(s0, LockKey(v), "1", Some(RefillLockTtlSeconds));
    if locked {
      LockAndRaceKeepPool(s0, v, p);
      UnlockKeepsPool(sl, v);
      if Gate(sl, v, withCooldown, p.now).None? {
        FillBounded(sl, v, p);
        UnlockKeepsPool(Fill(sl, v, p).1, v);
      }
    }
  }

  /** The picking part grows a consistent pool below its target by at most what it still needs, when others leave the pool alone. */
  lemma FillBounded(s: Snapshot, v: string, p: PassInputs)
    requires ValidInputs(p)
    requires PoolConsistent(s, v) && |ListOf(s, ListKey(v))| < PoolTarget
    requires var s2 := ApplyOps(s, p.duringPick);
      At(s2, ListKey(v)) == At(s, ListKey(v)) && At(s2, SetKey(v)) == At(s, SetKey(v))
    ensures var s1 := Fill(s, v, p).1;
      var before, after := |ListOf(s, ListKey(v))|, |ListOf(s1, ListKey(v))|;
      before <= after <= before + Min(RefillBatch, PoolTarget - before)
      && PoolConsistent(s1, v)
  {
    var s2 := ApplyOps(s, p.duringPick);
    var need := Min(RefillBatch, PoolTarget - ListLengthF(s, ListKey(v)));
    PickedWithinNeed(need, p);
    var picked := PickSymbolsF(need, p.catalog, p.candidatePool, p.maxAttempts, p.catalogShuffle, p.pickShuffle);
    assert ListOf(s2, ListKey(v)) == ListOf(s, ListKey(v)) && MembersOf(s2, SetKey(v)) == MembersOf(s, SetKey(v));
    if picked.Ok? {
      var s3 := AddAllUniqueF(s2, v, Some(picked.value)).0;
      AddAllUniqueGrowth(s2, v, picked.value);
      FinishKeepsPool(s3, v, p.now);
      assert Fill(s, v, p).1 == UpdateLastRunAtF(s3, v, p.now);
    }
  }

  /** Taking the lock, and writes by others to keys other than the pool's, leave the pool's list and set as they were. */
  lemma LockAndRaceKeepPool(s0: Snapshot, v: string, p: PassInputs)
    requires forall i :: 0 <= i < |p.duringPick| ==> p.duringPick[i].key != ListKey(v) && p.duringPick[i].key != SetKey(v)
    ensures var sl := SetIfAbsentF(s0, LockKey(v), "1", Some(RefillLockTtlSeconds)).0;
      var s2 := ApplyOps(sl, p.duringPick);
      At(sl, ListKey(v)) == At(s0, ListKey(v)) && At(sl, SetKey(v)) == At(s0, SetKey(v))
      && At(s2, ListKey(v)) == At(s0, ListKey(v)) && At(s2, SetKey(v)) == At(s0, SetKey(v))
  {
    KeysDistinct(v, v);
    var sl := SetIfAbsentF(s0, LockKey(v), "1", Some(RefillLockTtlSeconds)).0;
    OpsTouchOnlyTheirKeys(sl, p.duringPick, {ListKey(v), SetKey(v)});
  }

  /** Deleting the lock key leaves the pool's list and set alone. */
  lemma UnlockKeepsPool(s: Snapshot, v: string)
    ensures var s1 := DeleteF(s, LockKey(v)).0;
      At(s1, ListKey(v)) == At(s, ListKey(v)) && At(s1, SetKey(v)) == At(s, SetKey(v))
  {
    KeysDistinct(v, v);
  }

  /** Recording the run leaves the pool's list and set alone. */
  lemma FinishKeepsPool(s: Snapshot, v: string, now: int)
    ensures var s1 := UpdateLastRunAtF(s, v, now);
      At(s1, ListKey(v)) == At(s, ListKey(v)) && At(s1, SetKey(v)) == At(s, SetKey(v))
  {
    KeysDistinct(v, v);
  }

  /** Picking never returns more symbols than were asked for. */
  lemma PickedWithinNeed(need: int, p: PassInputs)
    requires ValidInputs(p)
    ensures var picked := PickSymbolsF(need, p.catalog, p.candidatePool, p.maxAttempts, p.catalogShuffle, p.pickShuffle);
      picked.Ok? ==> |picked.value| <= Max(0, need)
  {
    if Max(0, need) != 0 {
      var pool := GetCandidatePool(p.catalog, p.candidatePool, p.catalogShuffle);
      if pool.Ok? && pool.value != [] {
        PickFacts(p.pickShuffle(pool.value), Max(0, need), p.maxAttempts);
      }
    }
  }

  /** Adding symbols to a consistent pool grows its list by at most their number and keeps it consistent. */
  lemma AddAllUniqueGrowth(s: Snapshot, v: string, symbols: seq<string>)
    requires PoolConsistent(s, v)
    ensures var s1 := AddAllUniqueF(s, v, Some(symbols)).0;
      |ListOf(s, ListKey(v))| <= |ListOf(s1, ListKey(v))| <= |ListOf(s, ListKey(v))| + |symbols|
      && PoolConsistent(s1, v)
  {
    AddAllUniqueKeepsConsistency(s, v, Some(symbols));
    if symbols != [] {
      AddAllUniqueAppendsNewSymbols(s, v, symbols);
      var nu := NewUnique(MembersOf(s, SetKey(v)), symbols);
      NewUniqueFacts(MembersOf(s, SetKey(v)), symbols);
      DistinctSubsetSize(nu, symbols);
    }
  }

  /** A duplicate-free sequence whose elements all occur in another is no longer than it. */
  lemma DistinctSubsetSize(xs: seq<string>, ys: seq<string>)
    requires NoDuplicates(xs) && Elems(xs) <= Elems(ys)
    ensures |xs| <= |ys|
  {
    DistinctCard(xs);
    CardElems(ys);
    assert |Elems(xs)| <= |Elems(ys)| by { SubsetCard(Elems(xs), Elems(ys)); }
  }

  lemma {:induction false} DistinctCard(xs: seq<string>)
    requires NoDuplicates(xs)
    ensures |Elems(xs)| == |xs|
    decreases |xs|
  {
    if |xs| > 0 {
      var init := xs[..|xs| - 1];
      DistinctCard(init);
      assert Elems(xs) == Elems(init) + {xs[|xs| - 1]};
      assert xs[|xs| - 1] !in Elems(init);
    }
  }

  lemma {:induction false} CardElems(xs: seq<string>)
    ensures |Elems(xs)| <= |xs|
    decreases |xs|
  {
    if |xs| > 0 {
      var init := xs[..|xs| - 1];
      CardElems(init);
      assert Elems(xs) == Elems(init) + {xs[|xs| - 1]};
    }
  }

  lemma SubsetCard(a: set<string>, b: set<string>)
    requires a <= b
    ensures |a| <= |b|
  {
    assert b == a + (b - a);
  }

  /** A pass that gets as far as picking always records its run, with the pool's lifetime, whether or not it added anything. */
  lemma RefilledRecordsRun(s0: Snapshot, v: string, withCooldown: bool, p: PassInputs)
    requires ValidInputs(p)
    ensures var (outcome, s1) := RefillF(s0, v, withCooldown, p);
      outcome.Refilled? ==>
        GetF(s1, LastRunKey(v)) == Some(IntToString(p.now)) && s1.ttls[LastRunKey(v)] == PoolTtlSeconds
  {
    KeysDistinct(v, v);
  }

  /** With the cooldown honoured, a pass less than ten minutes after the recorded last run changes nothing but the lock key, which it removes. */
  lemma RefillRespectsCooldown(s0: Snapshot, v: string, p: PassInputs, last: int)
    requires ValidInputs(p)
    requires MinLong <= last <= MaxLong && GetF(s0, LastRunKey(v)) == Some(IntToString(last))
    requires p.now < last + CooldownSeconds
    ensures var (outcome, s1) := RefillF(s0, v, true, p);
      outcome in {LockBusy, CooldownActive}
      && forall k :: k != LockKey(v) ==> At(s1, k) == At(s0, k)
  {
    KeysDistinct(v, v);
    ParseLongOfIntToString(last);
  }

  /** Where a warm-up ends: the passes run, the failure that ended it if any, and the store's content. */
  datatype WarmUp = WarmUp(passes: nat, failure: Option<Failure>, state: Snapshot)

  /** A pass of the warm-up: its outcome and the new store, from the store's content and the pass's number. */
  type Pass = (Snapshot, nat) -> (RefillOutcome, Snapshot)

  /** The passes of `warmUpFillToTargetAsync`: `refillOnceNoCooldown` with the inputs of each pass. */
  function NoCooldownPass(v: string, pass: nat -> PassInputs): (step: Pass)
    requires forall j :: ValidInputs(pass(j))
    ensures forall t, j :: step(t, j) == RefillF(t, v, false, pass(j))
  {
    (t: Snapshot, j: nat) => RefillF(t, v, false, pass(j))
  }

  /**
   * `warmUpFillToTargetAsync` on the store's content, from its `i`-th pass:
   * stop once ten passes have run or the pool holds its target; otherwise
   * run the pass; a pass that throws ends the warm-up with its failure, and
   * after any other pass others act while it sleeps (`between(i)`).
   */
  function WarmUpF(s: Snapshot, v: string, step: Pass, between: nat -> seq<Op>, i: nat): (r: WarmUp)
    ensures i <= r.passes <= Max(i, WarmUpPasses)
    ensures r.failure.None? && r.passes < WarmUpPasses ==> |ListOf(r.state, ListKey(v))| >= PoolTarget
    ensures r.failure.Some? ==> i < r.passes
    decreases WarmUpPasses - i
  {
    if i >= WarmUpPasses || ListLengthF(s, ListKey(v)) >= PoolTarget then WarmUp(i, None, s)
    else
      var (outcome, s1) := step(s, i);
      if outcome.Failed? then WarmUp(i + 1, Some(outcome.failure), s1)
      else WarmUpF(ApplyOps(s1, between(i)), v, step, between, i + 1)
  }

  /** No command of `ops` writes the pool's list or set. */
  predicate LeavesPool(ops: seq<Op>, v: string) {
    forall k :: 0 <= k < |ops| ==> ops[k].key != ListKey(v) && ops[k].key != SetKey(v)
  }

  /**
   * Every pass, on a consistent pool below its target, keeps it consistent,
   * grows it by at most five symbols and not past its target, and the
   * sleep after it leaves the pool alone.
   */
  ghost predicate PassesBounded(step: Pass, v: string, between: nat -> seq<Op>) {
    forall t, j :: PoolConsistent(t, v) && |ListOf(t, ListKey(v))| < PoolTarget ==>
      var t1 := step(t, j).1;
      var before := |ListOf(t, ListKey(v))|;
      before <= |ListOf(t1, ListKey(v))| <= Min(PoolTarget, before + RefillBatch) && PoolConsistent(t1, v)
      && ListOf(ApplyOps(t1, between(j)), ListKey(v)) == ListOf(t1, ListKey(v)) && PoolConsistent(ApplyOps(t1, between(j)), v)
  }

  /** The passes of the warm-up are bounded when no other process writes the pool. */
  lemma NoCooldownPassesBounded(v: string, pass: nat -> PassInputs, between: nat -> seq<Op>)
    requires forall j :: ValidInputs(pass(j))
    requires forall j :: LeavesPool(pass(j).duringPick, v) && LeavesPool(between(j), v)
    ensures PassesBounded(NoCooldownPass(v, pass), v, between)
  {
    var step := NoCooldownPass(v, pass);
    forall t, j | PoolConsistent(t, v) && |ListOf(t, ListKey(v))| < PoolTarget
      ensures var t1 := step(t, j).1;
        var before := |ListOf(t, ListKey(v))|;
        before <= |ListOf(t1, ListKey(v))| <= Min(PoolTarget, before + RefillBatch) && PoolConsistent(t1, v)
        && ListOf(ApplyOps(t1, between(j)), ListKey(v)) == ListOf(t1, ListKey(v)) && PoolConsistent(ApplyOps(t1, between(j)), v)
    {
      PassThenSleepBounded(t, v, pass(j), between(j));
    }
  }

  /**
   * With bounded passes, a warm-up from a consistent pool at or below its
   * target never shrinks it, never takes it past its target, grows it by at
   * most five symbols a pass, and keeps it duplicate-free and in step with
   * its set.
   */
  lemma {:induction false} WarmUpBounded(s: Snapshot, v: string, step: Pass, between: nat -> seq<Op>, i: nat)
    requires PassesBounded(step, v, between)
    requires PoolConsistent(s, v) && |ListOf(s, ListKey(v))| <= PoolTarget
    ensures var r := WarmUpF(s, v, step, between, i);
      var before, after := |ListOf(s, ListKey(v))|, |ListOf(r.state, ListKey(v))|;
      before <= after <= PoolTarget
      && after <= before + RefillBatch * (r.passes - i)
      && PoolConsistent(r.state, v)
    decreases WarmUpPasses - i
  {
    if !(i >= WarmUpPasses || ListLengthF(s, ListKey(v)) >= PoolTarget) {
      var (outcome, s1) := step(s, i);
      if !outcome.Failed? {
        var s2 := ApplyOps(s1, between(i));
        var r2 := WarmUpF(s2, v, step, between, i + 1);
        WarmUpBounded(s2, v, step, between, i + 1);
        assert |ListOf(r2.state, ListKey(v))| <= |ListOf(s2, ListKey(v))| + RefillBatch * (r2.passes - i - 1);
      }
    }
  }

  /** One warm-up pass and the sleep after it, when no other process writes the pool. */
  lemma PassThenSleepBounded(s: Snapshot, v: string, p: PassInputs, ops: seq<Op>)
    requires ValidInputs(p) && LeavesPool(p.duringPick, v) && LeavesPool(ops, v)
    requires PoolConsistent(s, v) && |ListOf(s, ListKey(v))| < PoolTarget
    ensures var s1 := RefillF(s, v, false, p).1;
      var s2 := ApplyOps(s1, ops);
      var before := |ListOf(s, ListKey(v))|;
      before <= |ListOf(s1, ListKey(v))| <= Min(PoolTarget, before + RefillBatch) && PoolConsistent(s1, v)
      && ListOf(s2, ListKey(v)) == ListOf(s1, ListKey(v)) && PoolConsistent(s2, v)
  {
    RefillBounded(s, v, false, p);
    var s1 := RefillF(s, v, false, p).1;
    OpsTouchOnlyTheirKeys(s1, ops, {ListKey(v), SetKey(v)});
  }

  /** A warm-up that finds the pool at its target runs no pass and changes nothing. */
  lemma WarmUpOnFullPool(s: Snapshot, v: string, step: Pass, between: nat -> seq<Op>)
    requires |ListOf(s, ListKey(v))| >= PoolTarget
    ensures WarmUpF(s, v, step, between, 0) == WarmUp(0, None, s)
  {
  }

  /**
   * `warmUpFillToTargetAsync`, against the shared store: the passes run, the
   * failure that ended it and the new store are those of `WarmUpF` with
   * `refillOnceNoCooldown` as the pass.
   */
  method WarmUpFillToTarget(store: Store, v: string, pass: nat -> PassInputs, between: nat -> seq<Op>)
    returns (passes: nat, failure: Option<Failure>)
    requires forall i :: ValidInputs(pass(i))
    modifies store
    ensures WarmUp(passes, failure, store.State()) == WarmUpF(old(store.State()), v, NoCooldownPass(v, pass), between, 0)
  {
    ghost var step := NoCooldownPass(v, pass);
    ghost var goal := WarmUpF(store.State(), v, step, between, 0);
    passes := 0;
    failure := None;
    while passes < WarmUpPasses
      invariant passes <= WarmUpPasses
      invariant goal == WarmUpF(store.State(), v, step, between, passes)
    {
      if Size(store, v) >= PoolTarget {
        return;
      }
      var outcome := RefillOnceNoCooldown(store, v, pass(passes));
      passes := passes + 1;
      if outcome.Failed? {
        failure := Some(outcome.failure);
        return;
      }
      store.Interleave(between(passes - 1));
    }
  }
}
