/**
 * The per-day recommendation pool kept in the shared store
 * (`RecommendationPoolRepository`): for every version (a `yyyyMMdd` day in
 * Korean time) an ordered list of symbols and a set holding the same
 * symbols, a refill lock and the time of the last refill.
 */
module RecommendationPool {
  import opened Common
  import opened Text
  import opened KeyValue

  const PoolTtlHours: nat := 48
  const PoolTtlSeconds: nat := PoolTtlHours * 3600
  const RefillLockTtlSeconds: nat := 60
  const CooldownSeconds: int := 600

  function ListKey(v: string): string { "home:rec:pool:" + v + ":list" }
  function SetKey(v: string): string { "home:rec:pool:" + v + ":set" }
  function LockKey(v: string): string { "home:rec:refill:" + v + ":lock" }
  function LastRunKey(v: string): string { "home:rec:refill:" + v + ":lastRunAt" }

  /** The four keys of a version are pairwise different, also across versions. */
  lemma KeysDistinct(a: string, b: string)
    ensures ListKey(a) != SetKey(b) && ListKey(a) != LockKey(b) && ListKey(a) != LastRunKey(b)
    ensures SetKey(a) != LockKey(b) && SetKey(a) != LastRunKey(b) && LockKey(a) != LastRunKey(b)
  {
    assert ListKey(a)[9] == 'p' && SetKey(a)[9] == 'p';
    assert LockKey(b)[9] == 'r' && LastRunKey(b)[9] == 'r';
    var l, s := ListKey(a), SetKey(b);
    assert l[|l| - 4] == 'l' && s[|s| - 4] == ':';
    var k, r := LockKey(a), LastRunKey(b);
    assert k[|k| - 1] == 'k' && r[|r| - 1] == 't';
  }

  /** Different versions use different keys. */
  lemma KeysInjective(a: string, b: string)
    requires a != b
    ensures ListKey(a) != ListKey(b) && SetKey(a) != SetKey(b)
    ensures LockKey(a) != LockKey(b) && LastRunKey(a) != LastRunKey(b)
  {
    assert ListKey(a)[14..|ListKey(a)| - 5] == a && ListKey(b)[14..|ListKey(b)| - 5] == b;
    assert SetKey(a)[14..|SetKey(a)| - 4] == a && SetKey(b)[14..|SetKey(b)| - 4] == b;
    assert LockKey(a)[16..|LockKey(a)| - 5] == a && LockKey(b)[16..|LockKey(b)| - 5] == b;
    assert LastRunKey(a)[16..|LastRunKey(a)| - 10] == a && LastRunKey(b)[16..|LastRunKey(b)| - 10] == b;
  }

  // ---------------------------------------------------------------------
  // Versions: calendar days written as yyyyMMdd

  datatype Date = Date(year: int, month: int, day: int)

  predicate IsLeapYear(y: int) {
    y % 4 == 0 && (y % 100 != 0 || y % 400 == 0)
  }

  function DaysInMonth(y: int, m: int): int {
    if m == 2 then (if IsLeapYear(y) then 29 else 28)
    else if m == 4 || m == 6 || m == 9 || m == 11 then 30
    else 31
  }

  /** A day of the proleptic Gregorian calendar in the years a four-digit `yyyy` writes. */
  predicate ValidDate(d: Date) {
    1 <= d.year <= 9999 && 1 <= d.month <= 12 && 1 <= d.day <= DaysInMonth(d.year, d.month)
  }

  /** `LocalDate.minusDays(1)`. */
  function PrevDay(d: Date): (r: Date)
    requires ValidDate(d) && d != Date(1, 1, 1)
    ensures ValidDate(r) && r != d
  {
    if d.day > 1 then Date(d.year, d.month, d.day - 1)
    else if d.month > 1 then Date(d.year, d.month - 1, DaysInMonth(d.year, d.month - 1))
    else Date(d.year - 1, 12, 31)
  }

  /** `LocalDate.plusDays(1)`: below the last day a four-digit year writes, the day whose day before is `d`. */
  function NextDay(d: Date): (r: Date)
    requires ValidDate(d)
    ensures d != Date(9999, 12, 31) ==> ValidDate(r) && r != Date(1, 1, 1) && PrevDay(r) == d
  {
    if d.day < DaysInMonth(d.year, d.month) then Date(d.year, d.month, d.day + 1)
    else if d.month < 12 then Date(d.year, d.month + 1, 1)
    else Date(d.year + 1, 1, 1)
  }

  /** Yesterday is the day whose next day is today. */
  lemma NextDayOfPrevDay(d: Date)
    requires ValidDate(d) && d != Date(1, 1, 1)
    ensures NextDay(PrevDay(d)) == d
  {
  }

  /** `n` in decimal, left-padded with zeros to `width` digits. */
  function Pad(n: nat, width: nat): (r: string)
    ensures |r| >= width && AllDigits(r)
  {
    NatToStringDigits(n);
    var digits := NatToString(n);
    if |digits| >= width then digits else seq(width - |digits|, _ => '0') + digits
  }

  lemma {:induction false} LeadingZerosValue(k: nat, s: string)
    requires AllDigits(s)
    ensures AllDigits(seq(k, _ => '0') + s)
    ensures DigitsValue(seq(k, _ => '0') + s) == DigitsValue(s) + 0
    ensures DigitsValue(seq(k, _ => '0') + s) == DigitsValue(s)
    decreases |s|
  {
    var z := seq(k, _ => '0');
    if |s| == 0 {
      ZerosValue(k);
      assert z + s == z;
    } else {
      var t := z + s;
      assert t[..|t| - 1] == z + s[..|s| - 1];
      LeadingZerosValue(k, s[..|s| - 1]);
    }
  }

  lemma {:induction false} ZerosValue(k: nat)
    ensures AllDigits(seq(k, _ => '0')) && DigitsValue(seq(k, _ => '0')) == 0
    decreases k
  {
    if k > 0 {
      assert seq(k, _ => '0')[..k - 1] == seq(k - 1, _ => '0');
      ZerosValue(k - 1);
    }
  }

  /** Padding keeps the value: reading the digits back gives `n`. */
  lemma PadValue(n: nat, width: nat)
    ensures DigitsValue(Pad(n, width)) == n
  {
    NatToStringDigits(n);
    var digits := NatToString(n);
    if |digits| < width {
      LeadingZerosValue(width - |digits|, digits);
    }
  }

  lemma NatToStringShort(n: nat, width: nat, bound: nat)
    requires 1 <= width && n < bound && (width == 2 ==> bound == 100) && (width == 4 ==> bound == 10000)
    requires width == 2 || width == 4
    ensures |NatToString(n)| <= width
  {
    if width == 4 && n >= 10 {
      assert NatToString(n) == NatToString(n / 10) + [DigitChar(n % 10)];
      if n / 10 >= 10 {
        assert NatToString(n / 10) == NatToString(n / 100) + [DigitChar((n / 10) % 10)];
        if n / 100 >= 10 {
          assert NatToString(n / 100) == NatToString(n / 1000) + [DigitChar((n / 100) % 10)];
        }
      }
    } else if width == 2 && n >= 10 {
      assert NatToString(n) == NatToString(n / 10) + [DigitChar(n % 10)];
    }
  }

  /** `format("yyyyMMdd")`. */
  function Version(d: Date): (r: string)
    requires ValidDate(d)
    ensures |r| == 8 && AllDigits(r)
  {
    NatToStringShort(d.year, 4, 10000);
    NatToStringShort(d.month, 2, 100);
    NatToStringShort(d.day, 2, 100);
    Pad(d.year, 4) + Pad(d.month, 2) + Pad(d.day, 2)
  }

  /** Two different days never share a version, so each day has a pool of its own. */
  lemma VersionInjective(d1: Date, d2: Date)
    requires ValidDate(d1) && ValidDate(d2) && Version(d1) == Version(d2)
    ensures d1 == d2
  {
    var v1, v2 := Version(d1), Version(d2);
    assert v1[..4] == Pad(d1.year, 4) && v2[..4] == Pad(d2.year, 4);
    assert v1[4..6] == Pad(d1.month, 2) && v2[4..6] == Pad(d2.month, 2);
    assert v1[6..] == Pad(d1.day, 2) && v2[6..] == Pad(d2.day, 2);
    PadValue(d1.year, 4); PadValue(d2.year, 4);
    PadValue(d1.month, 2); PadValue(d2.month, 2);
    PadValue(d1.day, 2); PadValue(d2.day, 2);
  }

  /** A version names one day only. */
  lemma VersionNamesOneDay(d: Date)
    requires ValidDate(d)
    ensures forall e :: ValidDate(e) && Version(e) == Version(d) ==> e == d
  {
    forall e | ValidDate(e) && Version(e) == Version(d) ensures e == d {
      VersionInjective(e, d);
    }
  }

  /** `todayVersion`: today's day in Korean time, as given by the clock, written as eight digits that name no other day. */
  function TodayVersion(today: Date): (r: string)
    requires ValidDate(today)
    ensures |r| == 8 && AllDigits(r)
    ensures forall d :: ValidDate(d) && Version(d) == r ==> d == today
  {
    VersionNamesOneDay(today);
    Version(today)
  }

  /** `yesterdayVersion`: eight digits naming the day before today and no other day, so never today's version. */
  function YesterdayVersion(today: Date): (r: string)
    requires ValidDate(today) && today != Date(1, 1, 1)
    ensures |r| == 8 && AllDigits(r) && r != TodayVersion(today)
    ensures forall d :: ValidDate(d) && Version(d) == r ==> d == PrevDay(today) && NextDay(d) == today
  {
    VersionNamesOneDay(PrevDay(today));
    VersionNamesOneDay(today);
    Version(PrevDay(today))
  }

  /** Today's and yesterday's pools are different pools, and yesterday's version is the day before today's. */
  lemma YesterdayIsAnotherPool(today: Date)
    requires ValidDate(today) && today != Date(1, 1, 1)
    ensures YesterdayVersion(today) != TodayVersion(today)
    ensures NextDay(PrevDay(today)) == today
  {
  }

  // ---------------------------------------------------------------------
  // The pool of one version

  function Elems(xs: seq<string>): set<string> {
    set x | x in xs
  }

  /** The list holds no symbol twice and the set holds exactly the list's symbols. */
  predicate PoolConsistent(s: Snapshot, v: string) {
    NoDuplicates(ListOf(s, ListKey(v))) && Elems(ListOf(s, ListKey(v))) == MembersOf(s, SetKey(v))
  }

  /** The symbols of `xs` that are not in `seen` and not earlier in `xs`, in order. */
  function NewUnique(seen: set<string>, xs: seq<string>): (r: seq<string>)
    ensures |r| <= |xs|
    decreases |xs|
  {
    if |xs| == 0 then []
    else
      var x := xs[|xs| - 1];
      var prev := NewUnique(seen, xs[..|xs| - 1]);
      if x in seen || x in xs[..|xs| - 1] then prev else prev + [x]
  }

  /** The new symbols are distinct, new, and all of the input's symbols not seen before. */
  lemma {:induction false} NewUniqueFacts(seen: set<string>, xs: seq<string>)
    ensures NoDuplicates(NewUnique(seen, xs))
    ensures Elems(NewUnique(seen, xs)) == Elems(xs) - seen
    decreases |xs|
  {
    if |xs| > 0 {
      var init, x := xs[..|xs| - 1], xs[|xs| - 1];
      NewUniqueFacts(seen, init);
      assert Elems(xs) == Elems(init) + {x};
      var prev := NewUnique(seen, init);
      if !(x in seen || x in init) {
        assert x !in Elems(prev);
        var r := prev + [x];
        assert Elems(r) == Elems(prev) + {x};
        forall i, j | 0 <= i < j < |r| ensures r[i] != r[j] {
          if j == |prev| {
            assert r[i] in Elems(prev);
          }
        }
      }
    }
  }

  /** Adding symbols that are all already present adds nothing. */
  lemma {:induction false} NewUniqueOfSeen(seen: set<string>, xs: seq<string>)
    requires Elems(xs) <= seen
    ensures NewUnique(seen, xs) == []
    decreases |xs|
  {
    if |xs| > 0 {
      assert xs[|xs| - 1] in Elems(xs);
      NewUniqueOfSeen(seen, xs[..|xs| - 1]);
    }
  }

  /** `size`: the length of the version's list, 0 when there is none. */
  function Size(store: Store, v: string): (n: nat)
    reads store
    ensures n == |ListOf(store.State(), ListKey(v))|
    ensures ListKey(v) !in store.lists ==> n == 0
  {
    ListLengthF(store.State(), ListKey(v))
  }

  /** `range`: the symbols at positions offset .. offset+limit-1 of the version's list. */
  function Range(store: Store, v: string, offset: int, limit: int): (r: seq<string>)
    reads store
    ensures offset >= 0 && limit >= 1 ==>
      var xs := ListOf(store.State(), ListKey(v));
      r == if offset >= |xs| then [] else xs[offset..Min(offset + limit, |xs|)]
  {
    if offset >= 0 && limit >= 1 then
      ListRangeIsSlice(store.State(), ListKey(v), offset, limit);
      ListRangeF(store.State(), ListKey(v), offset, offset + limit - 1)
    else
      ListRangeF(store.State(), ListKey(v), offset, offset + limit - 1)
  }

  /** The store after the add-then-push loop of `addAllUnique` has run over `xs`: the list only grows at its end, by at most one symbol per input symbol. */
  function PushUnique(s: Snapshot, v: string, xs: seq<string>): (r: Snapshot)
    ensures ListOf(s, ListKey(v)) <= ListOf(r, ListKey(v))
    ensures |ListOf(r, ListKey(v))| <= |ListOf(s, ListKey(v))| + |xs|
    decreases |xs|
  {
    if |xs| == 0 then s
    else
      PushOneF(PushUnique(s, v, xs[..|xs| - 1]), v, xs[|xs| - 1]).0
  }

  /** One turn of that loop: `SADD` the symbol, and `RPUSH` it only if the set did not hold it yet. */
  function PushOneF(s: Snapshot, v: string, x: string): (r: (Snapshot, bool))
    ensures r.1 == (x !in MembersOf(s, SetKey(v)))
    ensures ListOf(r.0, ListKey(v)) == ListOf(s, ListKey(v)) + (if r.1 then [x] else [])
  {
    var (s2, isNew) := SetAddF(s, SetKey(v), x);
    (if isNew then RightPushF(s2, ListKey(v), x) else s2, isNew)
  }

  /** `touchTtl`: no value changes, and each of the list, the set and the last-run record that exists gets the pool's lifetime. */
  function TouchTtlF(s: Snapshot, v: string): (r: Snapshot)
    ensures r.strings == s.strings && r.lists == s.lists && r.sets == s.sets
    ensures Exists(s, ListKey(v)) ==> ListKey(v) in r.ttls && r.ttls[ListKey(v)] == PoolTtlSeconds
    ensures Exists(s, SetKey(v)) ==> SetKey(v) in r.ttls && r.ttls[SetKey(v)] == PoolTtlSeconds
    ensures Exists(s, LastRunKey(v)) ==> LastRunKey(v) in r.ttls && r.ttls[LastRunKey(v)] == PoolTtlSeconds
  {
    var s1 := ExpireF(s, ListKey(v), PoolTtlSeconds);
    var s2 := ExpireF(s1, SetKey(v), PoolTtlSeconds);
    ExpireF(s2, LastRunKey(v), PoolTtlSeconds)
  }

  /** `addAllUnique` on the store's content: nothing for a null or empty input; otherwise the loop, then the lifetimes are renewed. */
  function AddAllUniqueF(s: Snapshot, v: string, symbols: Option<seq<string>>): (r: (Snapshot, nat))
    ensures symbols.None? || symbols.value == [] ==> r == (s, 0)
    ensures symbols.Some? ==> r.1 <= |symbols.value|
    ensures ListOf(s, ListKey(v)) <= ListOf(r.0, ListKey(v))
  {
    if symbols.None? || symbols.value == [] then (s, 0)
    else
      (TouchTtlF(PushUnique(s, v, symbols.value), v), |NewUnique(MembersOf(s, SetKey(v)), symbols.value)|)
  }

  /** One turn of the loop: the symbol joins the set, and no key other than the list and the set changes. */
  lemma PushStep(s: Snapshot, v: string, x: string)
    ensures MembersOf(PushOneF(s, v, x).0, SetKey(v)) == MembersOf(s, SetKey(v)) + {x}
    ensures forall k :: k != ListKey(v) && k != SetKey(v) ==> At(PushOneF(s, v, x).0, k) == At(s, k)
  {
    KeysDistinct(v, v);
  }

  /**
   * The loop appends to the list exactly the symbols that were not yet in the
   * set, each once, in input order; the set gains all input symbols; no other
   * key changes.
   */
  lemma {:induction false} PushUniqueEffect(s: Snapshot, v: string, xs: seq<string>)
    ensures var s1 := PushUnique(s, v, xs);
      ListOf(s1, ListKey(v)) == ListOf(s, ListKey(v)) + NewUnique(MembersOf(s, SetKey(v)), xs)
      && MembersOf(s1, SetKey(v)) == MembersOf(s, SetKey(v)) + Elems(xs)
      && (forall k :: k != ListKey(v) && k != SetKey(v) ==> At(s1, k) == At(s, k))
    decreases |xs|
  {
    if |xs| > 0 {
      var init, x := xs[..|xs| - 1], xs[|xs| - 1];
      PushUniqueEffect(s, v, init);
      assert Elems(xs) == Elems(init) + {x};
      var s1 := PushUnique(s, v, init);
      PushStep(s1, v, x);
      assert x in MembersOf(s1, SetKey(v)) <==> x in MembersOf(s, SetKey(v)) || x in init;
    }
  }

  /** Renewing lifetimes changes no value. */
  lemma TouchTtlKeepsValues(s: Snapshot, v: string)
    ensures TouchTtlF(s, v).strings == s.strings && TouchTtlF(s, v).lists == s.lists && TouchTtlF(s, v).sets == s.sets
  {
  }

  /** Adding keeps the pool consistent: the list stays duplicate-free and in step with the set. */
  lemma AddAllUniqueKeepsConsistency(s: Snapshot, v: string, symbols: Option<seq<string>>)
    requires PoolConsistent(s, v)
    ensures PoolConsistent(AddAllUniqueF(s, v, symbols).0, v)
  {
    if symbols.Some? && symbols.value != [] {
      var xs := symbols.value;
      TouchTtlKeepsValues(PushUnique(s, v, xs), v);
      var list0, seen := ListOf(s, ListKey(v)), MembersOf(s, SetKey(v));
      PushUniqueEffect(s, v, xs);
      NewUniqueFacts(seen, xs);
      var nu := NewUnique(seen, xs);
      var list1 := list0 + nu;
      assert Elems(list1) == Elems(list0) + Elems(nu);
      forall i, j | 0 <= i < j < |list1| ensures list1[i] != list1[j] {
        if j >= |list0| && i < |list0| {
          assert list1[j] in Elems(nu);
          assert list1[i] in Elems(list0);
        }
      }
    }
  }

  /** What `addAllUnique` adds and returns: the list grows by the symbols not yet in the pool, and the count is their number. */
  lemma AddAllUniqueAppendsNewSymbols(s: Snapshot, v: string, symbols: seq<string>)
    requires symbols != []
    ensures var (s1, added) := AddAllUniqueF(s, v, Some(symbols));
      ListOf(s1, ListKey(v)) == ListOf(s, ListKey(v)) + NewUnique(MembersOf(s, SetKey(v)), symbols)
      && added == |ListOf(s1, ListKey(v))| - |ListOf(s, ListKey(v))|
      && MembersOf(s1, SetKey(v)) == MembersOf(s, SetKey(v)) + Elems(symbols)
  {
    PushUniqueEffect(s, v, symbols);
    TouchTtlKeepsValues(PushUnique(s, v, symbols), v);
  }

  /** Adding the same symbols a second time adds nothing. */
  lemma AddAllUniqueIdempotent(s: Snapshot, v: string, symbols: seq<string>)
    requires symbols != []
    ensures var s1 := AddAllUniqueF(s, v, Some(symbols)).0;
      var (s2, added) := AddAllUniqueF(s1, v, Some(symbols));
      added == 0 && ListOf(s2, ListKey(v)) == ListOf(s1, ListKey(v))
  {
    var s1 := AddAllUniqueF(s, v, Some(symbols)).0;
    PushUniqueEffect(s, v, symbols);
    TouchTtlKeepsValues(PushUnique(s, v, symbols), v);
    PushUniqueEffect(s1, v, symbols);
    TouchTtlKeepsValues(PushUnique(s1, v, symbols), v);
    NewUniqueOfSeen(MembersOf(s1, SetKey(v)), symbols);
  }

  /** `addAllUnique`: add each symbol to the set and, if it was new there, push it onto the list; return how many were new. */
  method AddAllUnique(store: Store, v: string, symbols: Option<seq<string>>) returns (added: nat)
    modifies store
    ensures (store.State(), added) == AddAllUniqueF(old(store.State()), v, symbols)
  {
    if symbols.None? || symbols.value == [] {
      return 0;
    }
    var xs := symbols.value;
    ghost var s0 := store.State();
    added := 0;
    var i := 0;
    while i < |xs|
      invariant 0 <= i <= |xs|
      invariant store.State() == PushUnique(s0, v, xs[..i])
      invariant added == |NewUnique(MembersOf(s0, SetKey(v)), xs[..i])|
    {
      PushUniqueEffect(s0, v, xs[..i]);
      assert xs[..i + 1][..i] == xs[..i];
      var isNew := PushOne(store, v, xs[i]);
      if isNew {
        added := added + 1;
      }
      i := i + 1;
    }
    assert xs[..i] == xs;
    TouchTtl(store, v);
  }

  method PushOne(store: Store, v: string, x: string) returns (isNew: bool)
    modifies store
    ensures (store.State(), isNew) == PushOneF(old(store.State()), v, x)
  {
    KeysDistinct(v, v);
    isNew := store.SetAdd(SetKey(v), x);
    if isNew {
      store.RightPush(ListKey(v), x);
    }
  }

  method TouchTtl(store: Store, v: string)
    modifies store
    ensures store.State() == TouchTtlF(old(store.State()), v)
  {
    store.Expire(ListKey(v), PoolTtlSeconds);
    store.Expire(SetKey(v), PoolTtlSeconds);
    store.Expire(LastRunKey(v), PoolTtlSeconds);
  }

  /** `tryLock`: take the refill lock for 60 seconds if no one holds it. */
  method TryLock(store: Store, v: string) returns (locked: bool)
    modifies store
    ensures (store.State(), locked) == SetIfAbsentF(old(store.State()), LockKey(v), "1", Some(RefillLockTtlSeconds))
  {
    locked := store.SetIfAbsent(LockKey(v), "1", Some(RefillLockTtlSeconds));
  }

  /** `unlock`: a plain delete, whoever holds the lock. */
  method Unlock(store: Store, v: string)
    modifies store
    ensures store.State() == DeleteF(old(store.State()), LockKey(v)).0
  {
    var _ := store.Delete(LockKey(v));
  }

  /** `isCooldownPassed` on the store's content: no record passes; a record that does not parse as a long is a `NumberFormatException`. */
  function CooldownPassedF(s: Snapshot, v: string, now: int): (r: Result<bool>)
    ensures var val := GetF(s, LastRunKey(v));
      (val.None? ==> r == Ok(true))
      && (val.Some? ==> (r.Err? <==> ParseLong(val.value).None?))
      && (val.Some? && r.Ok? ==> (r.value <==> now >= ParseLong(val.value).value + CooldownSeconds))
  {
    var val := GetF(s, LastRunKey(v));
    if val.None? then Ok(true)
    else match ParseLong(val.value)
      case None => Err(RuntimeFailure("NumberFormatException"))
      case Some(last) => Ok(now - last >= CooldownSeconds)
  }

  /** `isCooldownPassed`, on the shared store: no record passes; a record passes from 600 seconds after it; an unparsable one fails. */
  function IsCooldownPassed(store: Store, v: string, now: int): (r: Result<bool>)
    reads store
    ensures var val := GetF(store.State(), LastRunKey(v));
      (val.None? ==> r == Ok(true))
      && (val.Some? ==> (r.Err? <==> ParseLong(val.value).None?))
      && (val.Some? && r.Ok? ==> (r.value <==> now >= ParseLong(val.value).value + CooldownSeconds))
  {
    CooldownPassedF(store.State(), v, now)
  }

  /** `updateLastRunAt`: record the time, then give the record the pool's lifetime. */
  function UpdateLastRunAtF(s: Snapshot, v: string, now: int): (r: Snapshot)
    ensures GetF(r, LastRunKey(v)) == Some(IntToString(now))
    ensures LastRunKey(v) in r.ttls && r.ttls[LastRunKey(v)] == PoolTtlSeconds
    ensures forall k :: k != LastRunKey(v) ==> At(r, k) == At(s, k)
  {
    ExpireF(SetF(s, LastRunKey(v), IntToString(now), None), LastRunKey(v), PoolTtlSeconds)
  }

  method UpdateLastRunAt(store: Store, v: string, now: int)
    modifies store
    ensures store.State() == UpdateLastRunAtF(old(store.State()), v, now)
  {
    store.Set(LastRunKey(v), IntToString(now), None);
    store.Expire(LastRunKey(v), PoolTtlSeconds);
  }

  /** After a refill recorded at time t, the cooldown has not passed before t+600 and has passed from t+600 on. */
  lemma CooldownAfterUpdate(s: Snapshot, v: string, t: int, later: int)
    requires MinLong <= t <= MaxLong
    ensures CooldownPassedF(UpdateLastRunAtF(s, v, t), v, later) == Ok(later >= t + CooldownSeconds)
  {
    ParseLongOfIntToString(t);
  }

  /** With no record, the cooldown has passed. */
  lemma CooldownWithoutRecord(s: Snapshot, v: string, now: int)
    requires GetF(s, LastRunKey(v)).None?
    ensures CooldownPassedF(s, v, now) == Ok(true)
  {
  }
}
