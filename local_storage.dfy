/**
 * `useLocalStorage`: an in-memory value kept in step with one entry of the
 * browser's key-value storage. JSON encoding is an abstract encode/decode pair
 * in which decoding can fail.
 */
module LocalStorage {
  import opened Wrappers

  /** The browser's `localStorage`, shared by every cell: string keys to string entries. */
  class Storage {
    var entries: map<string, string>

    constructor (initial: map<string, string>)
      ensures entries == initial
    {
      entries := initial;
    }
  }

  /** `JSON.stringify` and `JSON.parse` as a lawful pair: parsing a stringified value gives
      the value back, and stringifying never yields the empty string. */
  ghost predicate Lawful<T(!new)>(encode: T -> string, decode: string -> Option<T>) {
    forall v: T :: decode(encode(v)) == Some(v) && encode(v) != ""
  }

  /** `read`: the decoded entry, or the initial value when `getItem` throws (`readFails`, for
      instance when storage is disabled), or the entry is absent, empty or does not parse. */
  function Read<T>(entries: map<string, string>, key: string, initial: T, decode: string -> Option<T>,
                   readFails: bool): (r: T)
    ensures readFails ==> r == initial
    ensures key !in entries || entries[key] == "" || decode(entries[key]).None? ==> r == initial
    ensures !readFails && key in entries && entries[key] != "" && decode(entries[key]).Some? ==>
      r == decode(entries[key]).value
  {
    if readFails || key !in entries || entries[key] == "" then initial
    else match decode(entries[key])
      case None => initial
      case Some(v) => v
  }

  /** Reading back what was just written gives the value written. */
  lemma ReadAfterWrite<T(!new)>(entries: map<string, string>, key: string, initial: T,
                               encode: T -> string, decode: string -> Option<T>, v: T)
    requires Lawful(encode, decode)
    ensures Read(entries[key := encode(v)], key, initial, decode, false) == v
  {
    assert decode(encode(v)) == Some(v) && encode(v) != "";
  }

  /** Reading after the entry is removed falls back to the initial value. */
  lemma ReadAfterRemove<T>(entries: map<string, string>, key: string, initial: T, decode: string -> Option<T>)
    ensures Read(entries - {key}, key, initial, decode, false) == initial
  {
  }

  /** A read depends on entry `key` alone. */
  lemma ReadIsLocal<T>(e1: map<string, string>, e2: map<string, string>, key: string, initial: T,
                       decode: string -> Option<T>, readFails: bool)
    requires key in e1 <==> key in e2
    requires key in e1 ==> e1[key] == e2[key]
    ensures Read(e1, key, initial, decode, readFails) == Read(e2, key, initial, decode, readFails)
  {
  }

  /** The argument of the setter: a value, or an updater applied to the current value. */
  datatype Next<!T> = Value(v: T) | Updater(f: T -> T)

  /** `next instanceof Function ? next(prev) : next`. */
  function Resolve<T>(next: Next<T>, prev: T): T {
    match next
    case Value(v) => v
    case Updater(f) => f(prev)
  }

  /** One `useLocalStorage(key, initialValue)` cell. */
  class PersistedCell<T(!new)> {
    const key: string
    const initialValue: T
    const encode: T -> string
    const decode: string -> Option<T>
    const storage: Storage
    var value: T

    ghost predicate Valid() {
      Lawful(encode, decode)
    }

    /** The in-memory value is what a fresh read of the storage would give. */
    ghost predicate InStep()
      reads this, storage
    {
      value == Read(storage.entries, key, initialValue, decode, false)
    }

    /** `useState(read)`: the first value comes from the storage. */
    constructor (storage: Storage, key: string, initialValue: T, encode: T -> string, decode: string -> Option<T>,
                 readFails: bool)
      requires Lawful(encode, decode)
      ensures Valid() && (!readFails ==> InStep())
      ensures this.storage == storage && this.key == key && this.initialValue == initialValue
      ensures this.encode == encode && this.decode == decode
      ensures value == Read(storage.entries, key, initialValue, decode, readFails)
    {
      this.key := key;
      this.initialValue := initialValue;
      this.encode := encode;
      this.decode := decode;
      this.storage := storage;
      value := Read(storage.entries, key, initialValue, decode, readFails);
    }

    /** The mount effect `setValue(read())`. */
    method Reload(readFails: bool)
      modifies this
      ensures value == Read(storage.entries, key, initialValue, decode, readFails)
      ensures !readFails ==> InStep()
    {
      value := Read(storage.entries, key, initialValue, decode, readFails);
    }

    /** `set(next)`: the new value replaces the old one and its encoding is written to entry
        `key`; a failing write (`writeFails`) is swallowed and leaves the storage as it was. */
    method Set(next: Next<T>, writeFails: bool)
      requires Valid()
      modifies this, storage
      ensures value == Resolve(next, old(value))
      ensures storage.entries == if writeFails then old(storage.entries) else old(storage.entries)[key := encode(value)]
      ensures !writeFails ==> InStep()
    {
      var v := Resolve(next, value);
      if !writeFails {
        storage.entries := storage.entries[key := encode(v)];
        ReadAfterWrite(old(storage.entries), key, initialValue, encode, decode, v);
      }
      value := v;
    }

    /** `remove()`: entry `key` is deleted (a failing delete is swallowed) and the value goes
        back to the initial one. */
    method Remove(removeFails: bool)
      modifies this, storage
      ensures value == initialValue
      ensures storage.entries == if removeFails then old(storage.entries) else old(storage.entries) - {key}
      ensures !removeFails ==> InStep()
    {
      if !removeFails {
        storage.entries := storage.entries - {key};
      }
      value := initialValue;
    }
  }

  /** How a caller passes `initialValue`: an array literal written in the call is a new
      object at every render; a module-level constant is the same object at every render. */
  datatype InitialArg = LiteralEachRender | Hoisted

  /** The identity of the `initialValue` object at render `n`. */
  function InitialId(arg: InitialArg, n: nat): (id: nat)
    ensures arg.Hoisted? ==> id == InitialId(arg, 0)
    ensures arg.LiteralEachRender? ==> forall m: nat :: m < n ==> InitialId(arg, m) != id
  {
    match arg
    case LiteralEachRender => n
    case Hoisted => 0
  }

  /** `read` is memoised on `[key, initialValue]` and the mount effect on `[read]`; with a
      fixed key the effect runs at render `n` exactly when `initialValue` is not the object
      of the previous render. */
  predicate ReadEffectRuns(arg: InitialArg, n: nat) {
    n == 0 || InitialId(arg, n) != InitialId(arg, n - 1)
  }

  /** The identity of a value the cell holds: an array produced by `JSON.parse` (each parse
      makes a new one) or the `initialValue` object of some render. */
  datatype ValueId = Parsed(serial: nat) | InitialObject(id: nat)

  /** What `read()` returns at render `n`, with the entry present (`stored`) or absent: the
      `useState` initialiser's parse is serial 0 and the effect's parse at render `n` is
      serial `n + 1`. */
  function ReadAt(arg: InitialArg, stored: bool, n: nat): ValueId {
    if stored then Parsed(n + 1) else InitialObject(InitialId(arg, n))
  }

  /** The value held when render `n` commits: `useState(read)` at the first render, then
      whatever the previous render's effect set. */
  function Held(arg: InitialArg, stored: bool, n: nat): ValueId {
    if n == 0 then (if stored then Parsed(0) else InitialObject(InitialId(arg, 0)))
    else if ReadEffectRuns(arg, n - 1) then ReadAt(arg, stored, n - 1)
    else Held(arg, stored, n - 1)
  }

  /** Render `n`'s effect calls `setValue` with an object that is not the held one, and the
      `!==` check of `setValue` therefore schedules another render. */
  predicate AsksForRender(arg: InitialArg, stored: bool, n: nat) {
    ReadEffectRuns(arg, n) && ReadAt(arg, stored, n) != Held(arg, stored, n)
  }

  /** As called by the trip store, with `[]` written in the call: once the component renders
      a second time, every render's effect asks for another one, so the cell re-reads the
      storage and re-renders for ever; with trips in storage this starts at the first render. */
  lemma LiteralInitialNeverSettles(stored: bool, n: nat)
    requires n >= 1 || stored
    ensures ReadEffectRuns(LiteralEachRender, n)
    ensures AsksForRender(LiteralEachRender, stored, n)
  {
  }

  /** With the initial value hoisted to one constant, the effect runs on mount only and asks
      for at most one more render (to show the parsed trips), after which the cell is stable. */
  lemma {:induction false} HoistedInitialSettles(stored: bool, n: nat)
    ensures ReadEffectRuns(Hoisted, n) <==> n == 0
    ensures AsksForRender(Hoisted, stored, n) <==> n == 0 && stored
  {
  }
}
