/**
 * The storage contract (`get` / `set` / `delete` over byte values keyed by
 * text) and its backends: the no-op `DummyStorage` and a conforming key-value
 * store standing for any real backend.
 */
module Storages {
  import opened Wrappers
  import opened Http
  import opened Errors

  datatype Backend =
    | Dummy      // returns nothing, stores nothing
    | KeyValue   // a store that keeps what it is given

  /** One call made on a storage object, as a caller observes it. */
  datatype Call =
    | GetCall(key: string)
    | SetCall(key: string, value: Bytes, expire: Option<int>)
    | DeleteCall(key: string)

  datatype Entry = Entry(value: Bytes, expire: Option<int>)

  /**
   * The whole observable state of a storage object: its backend, whether its
   * server can be reached, the entries it holds and every call made on it.
   */
  datatype StoreState = StoreState(
    backend: Backend,
    reachable: bool,
    entries: map<string, Entry>,
    log: seq<Call>)

  /** `get(key) -> Optional[bytes]`. */
  function GetStep(st: StoreState, key: string): (Result<Option<Bytes>, Exc>, StoreState) {
    var st' := st.(log := st.log + [GetCall(key)]);
    match st.backend
    case Dummy => (Ok(None), st')
    case KeyValue =>
      if !st.reachable then (Err(StorageError(key)), st')
      else (Ok(if key in st.entries then Some(st.entries[key].value) else None), st')
  }

  /** `set(key, value, expire=None) -> bool`; the dummy backend returns `None`. */
  function SetStep(st: StoreState, key: string, value: Bytes, expire: Option<int>)
    : (Result<Option<bool>, Exc>, StoreState)
  {
    var logged := st.(log := st.log + [SetCall(key, value, expire)]);
    match st.backend
    case Dummy => (Ok(None), logged)
    case KeyValue =>
      if !st.reachable then (Err(StorageError(key)), logged)
      else (Ok(Some(true)), logged.(entries := st.entries[key := Entry(value, expire)]))
  }

  /** `delete(key) -> bool`; the dummy backend returns `None`. */
  function DeleteStep(st: StoreState, key: string): (Result<Option<bool>, Exc>, StoreState) {
    var logged := st.(log := st.log + [DeleteCall(key)]);
    match st.backend
    case Dummy => (Ok(None), logged)
    case KeyValue =>
      if !st.reachable then (Err(StorageError(key)), logged)
      else (Ok(Some(key in st.entries)), logged.(entries := st.entries - {key}))
  }

  class Storage {
    const backend: Backend
    const reachable: bool
    var entries: map<string, Entry>
    /** The storage calls made so far, kept for the proofs only. */
    ghost var log: seq<Call>

    constructor (backend: Backend, reachable: bool)
      ensures State() == StoreState(backend, reachable, map[], [])
    {
      this.backend := backend;
      this.reachable := reachable;
      entries := map[];
      log := [];
    }

    ghost function State(): StoreState
      reads this
    {
      StoreState(backend, reachable, entries, log)
    }

    method Get(key: string) returns (r: Result<Option<Bytes>, Exc>)
      modifies this
      ensures (r, State()) == GetStep(old(State()), key)
    {
      log := log + [GetCall(key)];
      match backend
      case Dummy =>
        r := Ok(None);
      case KeyValue =>
        if !reachable {
          r := Err(StorageError(key));
        } else if key in entries {
          r := Ok(Some(entries[key].value));
        } else {
          r := Ok(None);
        }
    }

    method Set(key: string, value: Bytes, expire: Option<int> := None) returns (r: Result<Option<bool>, Exc>)
      modifies this
      ensures (r, State()) == SetStep(old(State()), key, value, expire)
    {
      log := log + [SetCall(key, value, expire)];
      match backend
      case Dummy =>
        r := Ok(None);
      case KeyValue =>
        if !reachable {
          r := Err(StorageError(key));
        } else {
          entries := entries[key := Entry(value, expire)];
          r := Ok(Some(true));
        }
    }

    method Delete(key: string) returns (r: Result<Option<bool>, Exc>)
      modifies this
      ensures (r, State()) == DeleteStep(old(State()), key)
    {
      log := log + [DeleteCall(key)];
      match backend
      case Dummy =>
        r := Ok(None);
      case KeyValue =>
        if !reachable {
          r := Err(StorageError(key));
        } else {
          r := Ok(Some(key in entries));
          entries := entries - {key};
        }
    }
  }

  /** Every operation records exactly its own call and nothing else. */
  lemma CallsAreLogged(st: StoreState, key: string, value: Bytes, expire: Option<int>)
    ensures GetStep(st, key).1.log == st.log + [GetCall(key)]
    ensures SetStep(st, key, value, expire).1.log == st.log + [SetCall(key, value, expire)]
    ensures DeleteStep(st, key).1.log == st.log + [DeleteCall(key)]
    ensures GetStep(st, key).1.entries == st.entries
  {
  }

  /** The dummy backend answers "absent" to every `get`, and a `set` does not change that. */
  lemma DummyNeverStores(st: StoreState, key: string, value: Bytes, expire: Option<int>, key': string)
    requires st.backend == Dummy
    ensures GetStep(st, key).0 == Ok(None)
    ensures GetStep(SetStep(st, key, value, expire).1, key').0 == Ok(None)
    ensures GetStep(DeleteStep(st, key).1, key').0 == Ok(None)
  {
  }

  /** The dummy backend returns `None` where the contract declares a bool. */
  lemma DummyReturnsNone(st: StoreState, key: string, value: Bytes, expire: Option<int>)
    requires st.backend == Dummy
    ensures SetStep(st, key, value, expire).0 == Ok(None)
    ensures DeleteStep(st, key).0 == Ok(None)
    ensures SetStep(st, key, value, expire).1.entries == st.entries
    ensures DeleteStep(st, key).1.entries == st.entries
  {
  }

  /**
   * A reachable key-value store gives back what was last set under a key, and
   * nothing once it is deleted; other keys are untouched.
   */
  lemma KeyValueStores(st: StoreState, key: string, value: Bytes, expire: Option<int>, other: string)
    requires st.backend == KeyValue && st.reachable
    requires other != key
    ensures GetStep(SetStep(st, key, value, expire).1, key).0 == Ok(Some(value))
    ensures GetStep(DeleteStep(st, key).1, key).0 == Ok(None)
    ensures GetStep(SetStep(st, key, value, expire).1, other).0 == GetStep(st, other).0
    ensures GetStep(DeleteStep(st, key).1, other).0 == GetStep(st, other).0
    ensures DeleteStep(st, key).0 == Ok(Some(key in st.entries))
  {
  }

  /** An unreachable key-value store raises on every operation. */
  lemma UnreachableRaises(st: StoreState, key: string, value: Bytes, expire: Option<int>)
    requires st.backend == KeyValue && !st.reachable
    ensures GetStep(st, key).0 == Err(StorageError(key))
    ensures SetStep(st, key, value, expire).0 == Err(StorageError(key))
    ensures DeleteStep(st, key).0 == Err(StorageError(key))
  {
  }
}
