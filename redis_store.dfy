/**
 * One backing Redis instance as the migrator's RedisItf collaborator sees
 * it: string keys, hash keys, expiry times and an availability fault. When
 * the instance is faulty every command answers with that fault and changes
 * nothing; otherwise commands follow Redis's documented replies.
 */
module RedisStore {
  import opened Wrappers

  type Key = string
  type Field = string
  /** A stored value; a Go []byte reply is its byte string. */
  type Bytes = string

  /** A failure as it travels back to the caller: the instance's own
      message, possibly wrapped with the operation that passed it on. */
  datatype Error = Cause(message: string) | Wrapped(op: string, cause: Error)

  /** Go's (value, error) pair. */
  datatype Reply<T> = Reply(value: T, err: Option<Error>)

  datatype Store = Store(
    strings: map<Key, Bytes>,
    hashes: map<Key, map<Field, Bytes>>,
    ttls: map<Key, int>,
    fault: Option<string>)

  /** The new state of an instance after a write, and its reply. */
  datatype Written<T> = Written(store: Store, value: T, err: Option<Error>)

  predicate Has(s: Store, key: Key) {
    key in s.strings || key in s.hashes
  }

  function FaultError(s: Store): Option<Error> {
    if s.fault.Some? then Some(Cause(s.fault.value)) else None
  }

  function Get(s: Store, key: Key): Reply<Option<Bytes>> {
    if s.fault.Some? then Reply(None, FaultError(s))
    else Reply(if key in s.strings then Some(s.strings[key]) else None, None)
  }

  function Exists(s: Store, key: Key): Reply<bool> {
    if s.fault.Some? then Reply(false, FaultError(s))
    else Reply(Has(s, key), None)
  }

  /** Seconds to live: -2 for a missing key, -1 for a key without expiry. */
  function TTL(s: Store, key: Key): Reply<int> {
    if s.fault.Some? then Reply(0, FaultError(s))
    else if !Has(s, key) then Reply(-2, None)
    else if key in s.ttls then Reply(s.ttls[key], None)
    else Reply(-1, None)
  }

  function HGet(s: Store, key: Key, field: Field): Reply<Option<Bytes>> {
    if s.fault.Some? then Reply(None, FaultError(s))
    else if key in s.hashes && field in s.hashes[key] then Reply(Some(s.hashes[key][field]), None)
    else Reply(None, None)
  }

  function HExists(s: Store, key: Key, field: Field): Reply<bool> {
    if s.fault.Some? then Reply(false, FaultError(s))
    else Reply(key in s.hashes && field in s.hashes[key], None)
  }

  function SetEX(s: Store, key: Key, seconds: int, value: Bytes): Written<()> {
    if s.fault.Some? then Written(s, (), FaultError(s))
    else Written(s.(strings := s.strings[key := value],
                    hashes := s.hashes - {key},
                    ttls := s.ttls[key := seconds]), (), None)
  }

  /** Sets one field; the reply says whether the field is new. */
  function HSet(s: Store, key: Key, field: Field, value: Bytes): Written<bool> {
    if s.fault.Some? then Written(s, false, FaultError(s))
    else
      var fields := if key in s.hashes then s.hashes[key] else map[];
      Written(s.(hashes := s.hashes[key := fields[field := value]]), field !in fields, None)
  }

  /** Sets the expiry of an existing key; the reply says whether it existed. */
  function Expire(s: Store, key: Key, seconds: int): Written<bool> {
    if s.fault.Some? then Written(s, false, FaultError(s))
    else if !Has(s, key) then Written(s, false, None)
    else Written(s.(ttls := s.ttls[key := seconds]), true, None)
  }

  function KeySet(keys: seq<Key>): set<Key> {
    set k | k in keys
  }

  /** Removes every listed key; the reply counts the distinct keys that existed. */
  function Del(s: Store, keys: seq<Key>): Written<int> {
    if s.fault.Some? then Written(s, 0, FaultError(s))
    else
      var gone := KeySet(keys);
      Written(s.(strings := s.strings - gone, hashes := s.hashes - gone, ttls := s.ttls - gone),
              |set k | k in gone && Has(s, k)|, None)
  }
}
