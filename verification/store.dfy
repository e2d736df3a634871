/**
 * The Redis store the backend shares between its processes, as used through
 * `RedisStringCache` (strings with an optional lifetime, set-if-absent, and a
 * compare-and-delete script) and through `RedisTemplate` (lists, sets, `EXPIRE`).
 *
 * `Snapshot` is the content of the store as a value and the functions below
 * say what each command does to it; the class `Store` is the shared,
 * mutable store whose methods perform those commands. The passing of time is
 * modelled by `Lapse`, an explicit step in which a key whose lifetime has run
 * out disappears; commands of other processes are explicit `Op` steps.
 */
module KeyValue {
  import opened Common

  /** String values, lists, sets, and the lifetime in seconds of the keys that have one. */
  datatype Snapshot = Snapshot(
    strings: map<string, string>,
    lists: map<string, seq<string>>,
    sets: map<string, set<string>>,
    ttls: map<string, nat>)

  const Empty := Snapshot(map[], map[], map[], map[])

  predicate Exists(s: Snapshot, key: string) {
    key in s.strings || key in s.lists || key in s.sets
  }

  /** What the store holds under one key, whatever its type. */
  datatype Slot = Slot(str: Option<string>, list: Option<seq<string>>, members: Option<set<string>>, ttl: Option<nat>)

  function At(s: Snapshot, key: string): Slot {
    Slot(
      if key in s.strings then Some(s.strings[key]) else None,
      if key in s.lists then Some(s.lists[key]) else None,
      if key in s.sets then Some(s.sets[key]) else None,
      if key in s.ttls then Some(s.ttls[key]) else None)
  }

  /** `GET key`. */
  function GetF(s: Snapshot, key: string): Option<string> {
    if key in s.strings then Some(s.strings[key]) else None
  }

  /** `SET key value [EX ttl]`: replaces whatever the key held; without a lifetime the key no longer expires. */
  function SetF(s: Snapshot, key: string, value: string, ttl: Option<nat>): Snapshot {
    Snapshot(s.strings[key := value], s.lists - {key}, s.sets - {key},
      if ttl.Some? then s.ttls[key := ttl.value] else s.ttls - {key})
  }

  /** `SET key value NX EX ttl`: writes only when the key does not exist, and says whether it wrote. */
  function SetIfAbsentF(s: Snapshot, key: string, value: string, ttl: Option<nat>): (Snapshot, bool) {
    if Exists(s, key) then (s, false) else (SetF(s, key, value, ttl), true)
  }

  /** `DEL key`: removes the key, and says whether it existed. */
  function DeleteF(s: Snapshot, key: string): (Snapshot, bool) {
    (Snapshot(s.strings - {key}, s.lists - {key}, s.sets - {key}, s.ttls - {key}), Exists(s, key))
  }

  /** The compare-and-delete script: deletes the key only while it holds `expected`, and says whether it deleted. */
  function DeleteIfValueMatchesF(s: Snapshot, key: string, expected: string): (Snapshot, bool) {
    if GetF(s, key) == Some(expected) then DeleteF(s, key) else (s, false)
  }

  /** `EXPIRE key seconds`: gives an existing key a lifetime; a missing key stays missing. */
  function ExpireF(s: Snapshot, key: string, seconds: nat): (r: Snapshot)
    ensures r.strings == s.strings && r.lists == s.lists && r.sets == s.sets
    ensures Exists(s, key) ==> key in r.ttls && r.ttls[key] == seconds
    ensures !Exists(s, key) ==> r.ttls == s.ttls
    ensures forall k :: k != key ==> (k in r.ttls <==> k in s.ttls)
    ensures forall k :: k != key && k in s.ttls ==> r.ttls[k] == s.ttls[k]
  {
    if Exists(s, key) then s.(ttls := s.ttls[key := seconds]) else s
  }

  /** The lifetime of a key runs out: a key that has one disappears; a key without one stays. */
  function LapseF(s: Snapshot, key: string): Snapshot {
    if key in s.ttls then DeleteF(s, key).0 else s
  }

  function ListOf(s: Snapshot, key: string): seq<string> {
    if key in s.lists then s.lists[key] else []
  }

  function MembersOf(s: Snapshot, key: string): set<string> {
    if key in s.sets then s.sets[key] else {}
  }

  /**
   * `RPUSH key value`: appends, creating the list when missing. Redis
   * answers WRONGTYPE for a key that holds another type; that cannot arise
   * here, since the only lists and sets the backend writes are a pool's,
   * under keys that never coincide (`RecommendationPool.KeysDistinct`).
   */
  function RightPushF(s: Snapshot, key: string, value: string): Snapshot {
    s.(lists := s.lists[key := ListOf(s, key) + [value]])
  }

  /**
   * `SADD key member`: adds, creating the set when missing, and says whether
   * the member is new. As for `RPUSH`, WRONGTYPE cannot arise
   * (`RecommendationPool.KeysDistinct`).
   */
  function SetAddF(s: Snapshot, key: string, member: string): (Snapshot, bool) {
    (s.(sets := s.sets[key := MembersOf(s, key) + {member}]), member !in MembersOf(s, key))
  }

  /** `LLEN key`. */
  function ListLengthF(s: Snapshot, key: string): nat {
    |ListOf(s, key)|
  }

  /** `LRANGE key start stop` with Redis's index rules: negative indexes count from the end, the stop index is inclusive and clipped to the list. */
  function ListRangeF(s: Snapshot, key: string, start: int, stop: int): seq<string> {
    var xs := ListOf(s, key);
    var n := |xs|;
    var from := if start < 0 then Max(0, start + n) else start;
    var to := if stop < 0 then stop + n else Min(stop, n - 1);
    if from >= n || from > to then [] else xs[from..to + 1]
  }

  /** For the non-negative offsets the backend uses, `LRANGE key offset (offset+limit-1)` is the slice of at most `limit` elements starting at `offset`. */
  lemma ListRangeIsSlice(s: Snapshot, key: string, offset: int, limit: int)
    requires offset >= 0 && limit >= 1
    ensures var xs := ListOf(s, key);
      ListRangeF(s, key, offset, offset + limit - 1)
        == if offset >= |xs| then [] else xs[offset..Min(offset + limit, |xs|)]
  {
  }

  /** A command of any process, applied to the shared store. */
  datatype Op =
    | OpSet(key: string, value: string, ttl: Option<nat>)
    | OpSetIfAbsent(key: string, value: string, ttl: Option<nat>)
    | OpDelete(key: string)
    | OpDeleteIfValueMatches(key: string, value: string)
    | OpExpire(key: string, seconds: nat)
    | OpLapse(key: string)
    | OpRightPush(key: string, value: string)
    | OpSetAdd(key: string, value: string)

  function ApplyOp(s: Snapshot, op: Op): Snapshot {
    match op
    case OpSet(k, v, t) => SetF(s, k, v, t)
    case OpSetIfAbsent(k, v, t) => SetIfAbsentF(s, k, v, t).0
    case OpDelete(k) => DeleteF(s, k).0
    case OpDeleteIfValueMatches(k, v) => DeleteIfValueMatchesF(s, k, v).0
    case OpExpire(k, n) => ExpireF(s, k, n)
    case OpLapse(k) => LapseF(s, k)
    case OpRightPush(k, v) => RightPushF(s, k, v)
    case OpSetAdd(k, v) => SetAddF(s, k, v).0
  }

  /** A run of commands, in order. */
  function ApplyOps(s: Snapshot, ops: seq<Op>): Snapshot
    decreases |ops|
  {
    if |ops| == 0 then s else ApplyOps(ApplyOp(s, ops[0]), ops[1..])
  }

  /** Every command touches its own key and no other. */
  lemma OpTouchesOnlyItsKey(s: Snapshot, op: Op, other: string)
    requires other != op.key
    ensures At(ApplyOp(s, op), other) == At(s, other)
  {
  }

  /** Commands on keys outside a set leave every key of that set as it was. */
  lemma {:induction false} OpsTouchOnlyTheirKeys(s: Snapshot, ops: seq<Op>, keys: set<string>)
    requires forall i :: 0 <= i < |ops| ==> ops[i].key !in keys
    ensures forall k :: k in keys ==> At(ApplyOps(s, ops), k) == At(s, k)
    decreases |ops|
  {
    if |ops| > 0 {
      forall k | k in keys ensures At(ApplyOp(s, ops[0]), k) == At(s, k) {
        OpTouchesOnlyItsKey(s, ops[0], k);
      }
      OpsTouchOnlyTheirKeys(ApplyOp(s, ops[0]), ops[1..], keys);
    }
  }

  /** `SET` replaces whatever the key held, and a `GET` after it reads the value just written. */
  lemma SetThenGet(s: Snapshot, key: string, value: string, ttl: Option<nat>)
    ensures GetF(SetF(s, key, value, ttl), key) == Some(value)
    ensures ListOf(SetF(s, key, value, ttl), key) == [] && MembersOf(SetF(s, key, value, ttl), key) == {}
    ensures (key in SetF(s, key, value, ttl).ttls) <==> ttl.Some?
  {
  }

  /** `DEL` removes its key whatever it held, and reports whether there was one. */
  lemma DeleteRemoves(s: Snapshot, key: string)
    ensures !Exists(DeleteF(s, key).0, key) && key !in DeleteF(s, key).0.ttls
    ensures DeleteF(s, key).1 <==> Exists(s, key)
  {
  }

  /** Set-if-absent writes, and reports writing, exactly when the key is missing; otherwise nothing changes. */
  lemma SetIfAbsentWritesIffAbsent(s: Snapshot, key: string, value: string, ttl: Option<nat>)
    ensures SetIfAbsentF(s, key, value, ttl).1 <==> !Exists(s, key)
    ensures !Exists(s, key) ==> GetF(SetIfAbsentF(s, key, value, ttl).0, key) == Some(value)
    ensures Exists(s, key) ==> SetIfAbsentF(s, key, value, ttl).0 == s
  {
  }

  /** Mutual exclusion: once set-if-absent has written a key, a second set-if-absent on it fails and changes nothing, whatever value it offers. */
  lemma SetIfAbsentExcludes(s: Snapshot, key: string, mine: string, theirs: string, t1: Option<nat>, t2: Option<nat>)
    requires SetIfAbsentF(s, key, mine, t1).1
    ensures var s1 := SetIfAbsentF(s, key, mine, t1).0;
      SetIfAbsentF(s1, key, theirs, t2) == (s1, false)
      && GetF(s1, key) == Some(mine)
  {
  }

  /** The compare-and-delete script deletes exactly when the key holds the caller's token; a lock re-taken by another token survives it. */
  lemma DeleteIfValueMatchesOnlyOwn(s: Snapshot, key: string, mine: string)
    ensures var (s1, deleted) := DeleteIfValueMatchesF(s, key, mine);
      deleted <==> GetF(s, key) == Some(mine)
    ensures var s1 := DeleteIfValueMatchesF(s, key, mine).0;
      GetF(s, key) != Some(mine) ==> s1 == s
    ensures var s1 := DeleteIfValueMatchesF(s, key, mine).0;
      GetF(s, key) == Some(mine) ==> !Exists(s1, key)
  {
  }

  /** The shared store. Its methods perform one command each. */
  class Store {
    var strings: map<string, string>
    var lists: map<string, seq<string>>
    var sets: map<string, set<string>>
    var ttls: map<string, nat>

    function State(): Snapshot
      reads this
    {
      Snapshot(strings, lists, sets, ttls)
    }

    constructor ()
      ensures State() == Empty
    {
      strings, lists, sets, ttls := map[], map[], map[], map[];
    }

    method Load(s: Snapshot)
      modifies this
      ensures State() == s
    {
      strings, lists, sets, ttls := s.strings, s.lists, s.sets, s.ttls;
    }

    function Get(key: string): Option<string>
      reads this
    {
      GetF(State(), key)
    }

    method Set(key: string, value: string, ttl: Option<nat>)
      modifies this
      ensures State() == SetF(old(State()), key, value, ttl)
    {
      Load(SetF(State(), key, value, ttl));
    }

    method SetIfAbsent(key: string, value: string, ttl: Option<nat>) returns (written: bool)
      modifies this
      ensures (State(), written) == SetIfAbsentF(old(State()), key, value, ttl)
    {
      var r := SetIfAbsentF(State(), key, value, ttl);
      Load(r.0);
      written := r.1;
    }

    method Delete(key: string) returns (deleted: bool)
      modifies this
      ensures (State(), deleted) == DeleteF(old(State()), key)
    {
      var r := DeleteF(State(), key);
      Load(r.0);
      deleted := r.1;
    }

    method DeleteIfValueMatches(key: string, expected: string) returns (deleted: bool)
      modifies this
      ensures (State(), deleted) == DeleteIfValueMatchesF(old(State()), key, expected)
    {
      var r := DeleteIfValueMatchesF(State(), key, expected);
      Load(r.0);
      deleted := r.1;
    }

    method Expire(key: string, seconds: nat)
      modifies this
      ensures State() == ExpireF(old(State()), key, seconds)
    {
      Load(ExpireF(State(), key, seconds));
    }

    method RightPush(key: string, value: string)
      modifies this
      ensures State() == RightPushF(old(State()), key, value)
    {
      Load(RightPushF(State(), key, value));
    }

    method SetAdd(key: string, member: string) returns (added: bool)
      modifies this
      ensures (State(), added) == SetAddF(old(State()), key, member)
    {
      var r := SetAddF(State(), key, member);
      Load(r.0);
      added := r.1;
    }

    function ListLength(key: string): nat
      reads this
    {
      ListLengthF(State(), key)
    }

    function ListRange(key: string, start: int, stop: int): seq<string>
      reads this
    {
      ListRangeF(State(), key, start, stop)
    }

    /** Other processes run `ops`, or lifetimes run out, while this one waits. */
    method Interleave(ops: seq<Op>)
      modifies this
      ensures State() == ApplyOps(old(State()), ops)
    {
      Load(ApplyOps(State(), ops));
    }
  }
}
