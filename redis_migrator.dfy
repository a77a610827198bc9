/**
 * The two-instance migration client of package cache
 * (pkg/storage/cache/redis_migrator.go). It sits over an "origin" instance
 * being retired and a "destination" instance being filled, and routes each
 * command: reads try destination and fall back to origin, creates go to
 * destination only, Expire and Del go to origin and then destination and
 * answer with destination's reply.
 *
 * Reads are functions of the two instances' states (Backends); writes are
 * methods of RedisMigrator, each proved against Effect, the one-command
 * transition that the lemmas over command sequences use.
 */
module Cache {
  import opened Wrappers
  import S = RedisStore

  type Key = S.Key
  type Field = S.Field
  type Bytes = S.Bytes
  type Store = S.Store
  type Error = S.Error

  // Operation labels under which a failure the migrator passes on is wrapped.
  const OpGet := "cache/RedisMigrator.Get"
  const OpSetEX := "cache/RedisMigrator.SetEX"
  const OpExists := "cache/RedisMigrator.Exists"
  const OpTTL := "cache/RedisMigrator.TTL"
  const OpHGet := "cache/RedisMigrator.HGet"
  const OpHExists := "cache/RedisMigrator.HExists"
  const OpHSet := "cache/RedisMigrator.HSet"

  /** The states of the two instances the migrator routes between. */
  datatype Backends = Backends(origin: Store, destination: Store)

  /** A nullable-value reply that counts as found: no error and a value. */
  predicate Found(r: S.Reply<Option<Bytes>>) {
    r.err.None? && r.value.Some?
  }

  /** Wraps an instance's failure with the label of the migrator operation. */
  function Wrap(op: string, e: Option<Error>): Option<Error> {
    if e.Some? then Some(S.Wrapped(op, e.value)) else None
  }

  // ----- Reads: destination first, origin as fallback -----

  function Get(b: Backends, key: Key): (r: S.Reply<Option<Bytes>>)
    ensures Found(S.Get(b.destination, key)) ==> r == S.Get(b.destination, key)
    ensures !Found(S.Get(b.destination, key)) && S.Get(b.origin, key).err.None? ==>
              r == S.Get(b.origin, key)
    ensures !Found(S.Get(b.destination, key)) && S.Get(b.origin, key).err.Some? ==>
              r == S.Reply(None, Wrap(OpGet, S.Get(b.origin, key).err))
    ensures r.err.Some? ==> S.Get(b.origin, key).err.Some?
  {
    var d := S.Get(b.destination, key);
    if d.err.None? && d.value != None then S.Reply(d.value, None)
    else
      var o := S.Get(b.origin, key);
      if o.err.Some? then S.Reply(None, Wrap(OpGet, o.err))
      else S.Reply(o.value, None)
  }

  function Exists(b: Backends, key: Key): (r: S.Reply<bool>)
    ensures S.Exists(b.destination, key) == S.Reply(true, None) ==> r == S.Reply(true, None)
    ensures S.Exists(b.destination, key) != S.Reply(true, None) && S.Exists(b.origin, key).err.None? ==>
              r == S.Exists(b.origin, key)
    ensures S.Exists(b.destination, key) != S.Reply(true, None) && S.Exists(b.origin, key).err.Some? ==>
              r == S.Reply(false, Wrap(OpExists, S.Exists(b.origin, key).err))
    ensures r.err.Some? ==> S.Exists(b.origin, key).err.Some?
  {
    var d := S.Exists(b.destination, key);
    if d.err.None? && d.value then S.Reply(true, None)
    else
      var o := S.Exists(b.origin, key);
      if o.err.Some? then S.Reply(false, Wrap(OpExists, o.err))
      else S.Reply(o.value, None)
  }

  function TTL(b: Backends, key: Key): (r: S.Reply<int>)
    ensures S.TTL(b.destination, key).err.None? && S.TTL(b.destination, key).value > 0 ==>
              r == S.TTL(b.destination, key)
    ensures !(S.TTL(b.destination, key).err.None? && S.TTL(b.destination, key).value > 0) ==>
              if S.TTL(b.origin, key).err.None? then r == S.TTL(b.origin, key)
              else r == S.Reply(0, Wrap(OpTTL, S.TTL(b.origin, key).err))
    ensures r.err.Some? ==> S.TTL(b.origin, key).err.Some?
  {
    var d := S.TTL(b.destination, key);
    if d.err.None? && d.value > 0 then S.Reply(d.value, None)
    else
      var o := S.TTL(b.origin, key);
      if o.err.Some? then S.Reply(0, Wrap(OpTTL, o.err))
      else S.Reply(o.value, None)
  }

  function HGet(b: Backends, key: Key, field: Field): (r: S.Reply<Option<Bytes>>)
    ensures Found(S.HGet(b.destination, key, field)) ==> r == S.HGet(b.destination, key, field)
    ensures !Found(S.HGet(b.destination, key, field)) && S.HGet(b.origin, key, field).err.None? ==>
              r == S.HGet(b.origin, key, field)
    ensures !Found(S.HGet(b.destination, key, field)) && S.HGet(b.origin, key, field).err.Some? ==>
              r == S.Reply(None, Wrap(OpHGet, S.HGet(b.origin, key, field).err))
    ensures r.err.Some? ==> S.HGet(b.origin, key, field).err.Some?
  {
    var d := S.HGet(b.destination, key, field);
    if d.err.None? && d.value != None then S.Reply(d.value, None)
    else
      var o := S.HGet(b.origin, key, field);
      if o.err.Some? then S.Reply(None, Wrap(OpHGet, o.err))
      else S.Reply(o.value, None)
  }

  /** HExists with the failure label `op`: origin is asked unless
      destination reports the field present without error. */
  function HExistsLabelled(b: Backends, key: Key, field: Field, op: string): (r: S.Reply<bool>)
    ensures S.HExists(b.destination, key, field) == S.Reply(true, None) ==> r == S.Reply(true, None)
    ensures S.HExists(b.destination, key, field) != S.Reply(true, None) ==>
              if S.HExists(b.origin, key, field).err.None? then r == S.HExists(b.origin, key, field)
              else r == S.Reply(false, Wrap(op, S.HExists(b.origin, key, field).err))
  {
    var d := S.HExists(b.destination, key, field);
    if d.err.None? && d.value then S.Reply(true, None)
    else
      var o := S.HExists(b.origin, key, field);
      if o.err.Some? then S.Reply(false, Wrap(op, o.err))
      else S.Reply(o.value, None)
  }

  /** HExists as the source writes it: its failures carry HGet's label. */
  function HExistsAsWritten(b: Backends, key: Key, field: Field): (r: S.Reply<bool>)
    ensures r.err.Some? ==> r.err.value.Wrapped? && r.err.value.op == OpHGet
  {
    HExistsLabelled(b, key, field, OpHGet)
  }

  /** HExists with its failures labelled as HExists. */
  function HExists(b: Backends, key: Key, field: Field): (r: S.Reply<bool>)
    ensures S.HExists(b.destination, key, field) == S.Reply(true, None) ==> r == S.Reply(true, None)
    ensures S.HExists(b.destination, key, field) != S.Reply(true, None) ==>
              if S.HExists(b.origin, key, field).err.None? then r == S.HExists(b.origin, key, field)
              else r == S.Reply(false, Wrap(OpHExists, S.HExists(b.origin, key, field).err))
    ensures r.err.Some? ==> r.err.value.Wrapped? && r.err.value.op == OpHExists
    ensures r.err.Some? ==> S.HExists(b.origin, key, field).err.Some?
  {
    HExistsLabelled(b, key, field, OpHExists)
  }

  /** An origin failure in HExists is reported under the label of HGet, so a
      caller cannot tell it from a failed HGet. */
  lemma HExistsAsWrittenMislabels(b: Backends, key: Key, field: Field, message: string)
    requires b.destination.fault.None? && b.origin.fault == Some(message)
    requires !(key in b.destination.hashes && field in b.destination.hashes[key])
    ensures HExistsAsWritten(b, key, field).err == Some(S.Wrapped(OpHGet, S.Cause(message)))
    ensures HExistsAsWritten(b, key, field).err == HGet(b, key, field).err
    ensures HExists(b, key, field).err == Some(S.Wrapped(OpHExists, S.Cause(message)))
  {
  }

  // ----- Reads against a reference: the overlay of destination on origin -----

  function Lookup<K, V>(m: map<K, V>, k: K): Option<V> {
    if k in m then Some(m[k]) else None
  }

  /** With both instances healthy, Get reads the keyspace in which
      destination's strings override origin's. */
  lemma GetReadsOverlay(b: Backends, key: Key)
    requires b.origin.fault.None? && b.destination.fault.None?
    ensures Get(b, key) == S.Reply(Lookup(b.origin.strings + b.destination.strings, key), None)
  {
  }

  /** With both instances healthy, Exists is membership in either keyspace. */
  lemma ExistsReadsUnion(b: Backends, key: Key)
    requires b.origin.fault.None? && b.destination.fault.None?
    ensures Exists(b, key) == S.Reply(S.Has(b.origin, key) || S.Has(b.destination, key), None)
  {
  }

  /** With both instances healthy, HGet overlays field by field: a hash in
      destination that lacks the field still lets origin's field show. */
  lemma HGetReadsFieldOverlay(b: Backends, key: Key, field: Field)
    requires b.origin.fault.None? && b.destination.fault.None?
    ensures var fromDestination := if key in b.destination.hashes then Lookup(b.destination.hashes[key], field) else None;
            var fromOrigin := if key in b.origin.hashes then Lookup(b.origin.hashes[key], field) else None;
            HGet(b, key, field) == S.Reply(if fromDestination.Some? then fromDestination else fromOrigin, None)
  {
  }

  /** A destination error is never what a read answers: with origin healthy
      every read succeeds whatever state destination is in. */
  lemma ReadsSurviveDestinationFailure(b: Backends, key: Key, field: Field)
    requires b.origin.fault.None?
    ensures Get(b, key).err.None? && Exists(b, key).err.None? && TTL(b, key).err.None?
    ensures HGet(b, key, field).err.None? && HExists(b, key, field).err.None?
  {
  }

  /** TTL only takes destination's answer when it is positive: a key that
      destination holds without expiry and origin lacks reads as missing. */
  lemma TTLOfPersistentDestinationKey(b: Backends, key: Key)
    requires b.origin.fault.None? && b.destination.fault.None?
    requires key in b.destination.strings && key !in b.destination.ttls
    requires !S.Has(b.origin, key)
    ensures Exists(b, key) == S.Reply(true, None)
    ensures TTL(b, key) == S.Reply(-2, None)
  {
  }

  // ----- Writes: which instances a command reaches, and in what order -----

  datatype Command =
    | SetEXCmd(key: Key, seconds: int, value: Bytes)
    | HSetCmd(key: Key, field: Field, value: Bytes)
    | ExpireCmd(key: Key, seconds: int)
    | DelCmd(keys: seq<Key>)

  datatype Target = Origin | Destination

  /** One command handed to one instance. */
  datatype Call = Call(target: Target, cmd: Command)

  /** The new state of both instances after one migrator write: creates
      change destination only, Expire and Del change both. */
  function Effect(b: Backends, c: Command): (r: Backends)
    ensures c.SetEXCmd? || c.HSetCmd? ==> r.origin == b.origin
    ensures r.origin.fault == b.origin.fault && r.destination.fault == b.destination.fault
  {
    match c
    case SetEXCmd(key, seconds, value) =>
      b.(destination := S.SetEX(b.destination, key, seconds, value).store)
    case HSetCmd(key, field, value) =>
      b.(destination := S.HSet(b.destination, key, field, value).store)
    case ExpireCmd(key, seconds) =>
      Backends(S.Expire(b.origin, key, seconds).store, S.Expire(b.destination, key, seconds).store)
    case DelCmd(keys) =>
      Backends(S.Del(b.origin, keys).store, S.Del(b.destination, keys).store)
  }

  /** The state after a sequence of migrator writes. */
  function Replay(b: Backends, cmds: seq<Command>): Backends
    decreases |cmds|
  {
    if cmds == [] then b else Replay(Effect(b, cmds[0]), cmds[1..])
  }

  /** `after` holds no string or hash that `before` did not hold, with the
      same contents: data has only been removed. */
  ghost predicate Drains(before: Store, after: Store) {
    && (forall k :: k in after.strings ==> k in before.strings && after.strings[k] == before.strings[k])
    && (forall k :: k in after.hashes ==> k in before.hashes && after.hashes[k] == before.hashes[k])
  }

  lemma DrainsTransitive(a: Store, b: Store, c: Store)
    requires Drains(a, b) && Drains(b, c)
    ensures Drains(a, c)
  {
  }

  /** No migrator write adds or changes data in origin. */
  lemma EffectDrainsOrigin(b: Backends, c: Command)
    ensures Drains(b.origin, Effect(b, c).origin)
  {
  }

  /** However many writes go through the migrator, origin only loses data:
      every create reaches destination alone. */
  lemma {:induction false} ReplayDrainsOrigin(b: Backends, cmds: seq<Command>)
    ensures Drains(b.origin, Replay(b, cmds).origin)
    decreases |cmds|
  {
    if cmds != [] {
      EffectDrainsOrigin(b, cmds[0]);
      ReplayDrainsOrigin(Effect(b, cmds[0]), cmds[1..]);
      DrainsTransitive(b.origin, Effect(b, cmds[0]).origin, Replay(b, cmds).origin);
    }
  }

  predicate Mentions(c: Command, key: Key) {
    match c
    case SetEXCmd(k, _, _) => k == key
    case HSetCmd(k, _, _) => k == key
    case ExpireCmd(k, _) => k == key
    case DelCmd(keys) => key in keys
  }

  /** A write about other keys leaves destination's string under `key` alone. */
  lemma EffectKeepsOtherString(b: Backends, c: Command, key: Key)
    requires !Mentions(c, key)
    ensures Lookup(Effect(b, c).destination.strings, key) == Lookup(b.destination.strings, key)
  {
    if c.DelCmd? {
      assert key !in S.KeySet(c.keys);
    }
  }

  /** Once a SetEX has reached a healthy destination, Get answers with its
      value whatever origin holds, for as long as no later write touches the key. */
  lemma {:induction false} SetEXStaysVisible(b: Backends, key: Key, seconds: int, value: Bytes, cmds: seq<Command>)
    requires b.destination.fault.None?
    requires forall i :: 0 <= i < |cmds| ==> !Mentions(cmds[i], key)
    ensures Get(Replay(Effect(b, SetEXCmd(key, seconds, value)), cmds), key) == S.Reply(Some(value), None)
  {
    SetEXStaysVisibleFrom(Effect(b, SetEXCmd(key, seconds, value)), key, value, cmds);
  }

  lemma {:induction false} SetEXStaysVisibleFrom(b: Backends, key: Key, value: Bytes, cmds: seq<Command>)
    requires b.destination.fault.None?
    requires Lookup(b.destination.strings, key) == Some(value)
    requires forall i :: 0 <= i < |cmds| ==> !Mentions(cmds[i], key)
    ensures Get(Replay(b, cmds), key) == S.Reply(Some(value), None)
    decreases |cmds|
  {
    if cmds != [] {
      assert !Mentions(cmds[0], key);
      EffectKeepsOtherString(b, cmds[0], key);
      assert forall i :: 0 <= i < |cmds[1..]| ==> !Mentions(cmds[1..][i], key) by {
        forall i | 0 <= i < |cmds[1..]| ensures !Mentions(cmds[1..][i], key) {
          assert cmds[1..][i] == cmds[i + 1];
        }
      }
      SetEXStaysVisibleFrom(Effect(b, cmds[0]), key, value, cmds[1..]);
    }
  }

  class RedisMigrator {
    var origin: Store
    var destination: Store
    /** Every command this client has handed to an instance, in order. */
    ghost var sent: seq<Call>
    /** Origin as it was when the client was built. */
    ghost const initialOrigin: Store

    function State(): Backends
      reads this
    {
      Backends(origin, destination)
    }

    /** Origin has only lost data since the client was built. */
    ghost predicate Valid()
      reads this
    {
      Drains(initialOrigin, origin)
    }

    constructor (origin: Store, destination: Store)
      ensures State() == Backends(origin, destination)
      ensures initialOrigin == origin && sent == []
      ensures Valid()
    {
      this.origin := origin;
      this.destination := destination;
      this.initialOrigin := origin;
      this.sent := [];
    }

    /** Creates `key` in destination only. */
    method SetEX(key: Key, seconds: int, value: Bytes) returns (err: Option<Error>)
      requires Valid()
      modifies this
      ensures Valid()
      ensures State() == Effect(old(State()), SetEXCmd(key, seconds, value))
      ensures origin == old(origin)
      ensures err == Wrap(OpSetEX, S.SetEX(old(destination), key, seconds, value).err)
      ensures err.None? ==> Get(State(), key) == S.Reply(Some(value), None)
      ensures sent == old(sent) + [Call(Destination, SetEXCmd(key, seconds, value))]
    {
      var d := S.SetEX(destination, key, seconds, value);
      destination := d.store;
      sent := sent + [Call(Destination, SetEXCmd(key, seconds, value))];
      if d.err.Some? {
        return Wrap(OpSetEX, d.err);
      }
      return None;
    }

    /** Sets a hash field in destination only. */
    method HSet(key: Key, field: Field, value: Bytes) returns (res: bool, err: Option<Error>)
      requires Valid()
      modifies this
      ensures Valid()
      ensures State() == Effect(old(State()), HSetCmd(key, field, value))
      ensures origin == old(origin)
      ensures var d := S.HSet(old(destination), key, field, value);
              if d.err.Some? then !res && err == Wrap(OpHSet, d.err) else res == d.value && err.None?
      ensures err.None? ==> HGet(State(), key, field) == S.Reply(Some(value), None)
      ensures sent == old(sent) + [Call(Destination, HSetCmd(key, field, value))]
    {
      var d := S.HSet(destination, key, field, value);
      destination := d.store;
      sent := sent + [Call(Destination, HSetCmd(key, field, value))];
      if d.err.Some? {
        return false, Wrap(OpHSet, d.err);
      }
      return d.value, None;
    }

    /** Sets the expiry in origin, then in destination, and answers with
        destination's reply alone. */
    method Expire(key: Key, seconds: int) returns (res: bool, err: Option<Error>)
      requires Valid()
      modifies this
      ensures Valid()
      ensures State() == Effect(old(State()), ExpireCmd(key, seconds))
      ensures res == S.Expire(old(destination), key, seconds).value
      ensures err == S.Expire(old(destination), key, seconds).err
      ensures sent == old(sent) + [Call(Origin, ExpireCmd(key, seconds)), Call(Destination, ExpireCmd(key, seconds))]
    {
      var o := S.Expire(origin, key, seconds);
      origin := o.store;
      sent := sent + [Call(Origin, ExpireCmd(key, seconds))];
      res, err := o.value, o.err;
      var d := S.Expire(destination, key, seconds);
      destination := d.store;
      sent := sent + [Call(Destination, ExpireCmd(key, seconds))];
      res, err := d.value, d.err;
      EffectDrainsOrigin(old(State()), ExpireCmd(key, seconds));
      DrainsTransitive(initialOrigin, old(origin), origin);
    }

    /** Deletes the keys in origin, then in destination, and answers with
        destination's count and error alone. */
    method Del(keys: seq<Key>) returns (res: int, err: Option<Error>)
      requires Valid()
      modifies this
      ensures Valid()
      ensures State() == Effect(old(State()), DelCmd(keys))
      ensures res == S.Del(old(destination), keys).value
      ensures err == S.Del(old(destination), keys).err
      ensures err.None? ==> forall k :: k in keys ==> !S.Has(destination, k)
      ensures old(origin).fault.None? ==> forall k :: k in keys ==> !S.Has(origin, k)
      ensures sent == old(sent) + [Call(Origin, DelCmd(keys)), Call(Destination, DelCmd(keys))]
    {
      var o := S.Del(origin, keys);
      origin := o.store;
      sent := sent + [Call(Origin, DelCmd(keys))];
      res, err := o.value, o.err;
      var d := S.Del(destination, keys);
      destination := d.store;
      sent := sent + [Call(Destination, DelCmd(keys))];
      res, err := d.value, d.err;
      EffectDrainsOrigin(old(State()), DelCmd(keys));
      DrainsTransitive(initialOrigin, old(origin), origin);
    }
  }

  /** The package-level once-state behind NewRedisMigrator. */
  class MigratorOnce {
    var done: bool
    var res: RedisMigrator?
    var err: Option<Error>

    ghost predicate Valid()
      reads this, res
    {
      (done <==> res != null) && err.None? && (res != null ==> res.Valid())
    }

    /** The state at program start: nothing built yet. */
    constructor ()
      ensures Valid() && !done
    {
      done := false;
      res := null;
      err := None;
    }

    /** Builds the client on the first call; every later call returns that
        same client and ignores its arguments. The error is always nil. */
    method NewRedisMigrator(origin: Store, destination: Store) returns (m: RedisMigrator, e: Option<Error>)
      requires Valid()
      modifies this
      ensures Valid() && done && res == m
      ensures e.None?
      ensures old(done) ==> m == old(res) && unchanged(m)
      ensures !old(done) ==> fresh(m) && m.State() == Backends(origin, destination) && m.sent == []
      ensures m.Valid()
    {
      if !done {
        res := new RedisMigrator(origin, destination);
        done := true;
      }
      return res, err;
    }
  }

  /** Two calls with different instances: both answer with the client built
      on the first call, over the first call's instances, and no error. */
  method SecondCallKeepsFirstClient(o1: Store, d1: Store, o2: Store, d2: Store)
    returns (same: bool, state: Backends, e1: Option<Error>, e2: Option<Error>)
    ensures same && state == Backends(o1, d1)
    ensures e1.None? && e2.None?
  {
    var once := new MigratorOnce();
    var m1, err1 := once.NewRedisMigrator(o1, d1);
    var m2, err2 := once.NewRedisMigrator(o2, d2);
    same, state, e1, e2 := m1 == m2, m2.State(), err1, err2;
  }

  /** A key held by both instances: Del removes it from both and counts 1,
      destination's count, not the sum of the two. */
  method DelCountsDestinationOnly(key: Key, value: Bytes) returns (count: int, err: Option<Error>, state: Backends)
    ensures count == 1 && err.None?
    ensures !S.Has(state.origin, key) && !S.Has(state.destination, key)
  {
    var s := S.Store(map[key := value], map[], map[], None);
    var m := new RedisMigrator(s, s);
    count, err := m.Del([key]);
    state := m.State();
    assert (set k | k in S.KeySet([key]) && S.Has(s, k)) == {key};
  }

  /** Expire answers with destination alone: an origin failure is dropped,
      and a destination failure comes back as the instance gave it, unwrapped. */
  method ExpireAnswersForDestination(key: Key, value: Bytes, seconds: int, message: string)
    returns (res1: bool, err1: Option<Error>, res2: bool, err2: Option<Error>)
    ensures res1 && err1.None?
    ensures !res2 && err2 == Some(S.Cause(message))
  {
    var healthy := S.Store(map[key := value], map[], map[], None);
    var faulty := S.Store(map[key := value], map[], map[], Some(message));
    var m1 := new RedisMigrator(faulty, healthy);
    res1, err1 := m1.Expire(key, seconds);
    var m2 := new RedisMigrator(healthy, faulty);
    res2, err2 := m2.Expire(key, seconds);
  }
}
