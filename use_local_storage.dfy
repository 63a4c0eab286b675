/** The `useLocalStorage` hook: a piece of component state mirrored into one storage key. */
module LocalStorageHook {
  import opened Wrappers
  import opened Json
  import opened Storage

  /** The state the hook starts with. `hasWindow` is false when no browser window exists. */
  function InitialRead(hasWindow: bool, stored: Option<string>, initial: Value, c: Codec): (r: Value)
    ensures !hasWindow || stored.None? ==> r == initial
    ensures hasWindow && stored.Some? ==>
      r == match ParseRevived(c, stored.value) case Success(v) => v case Failure(_) => initial
  {
    if !hasWindow then initial
    else match stored
      case None => initial
      case Some(text) =>
        match ParseRevived(c, text)
        case Success(v) => v
        case Failure(_) => initial
  }

  /** The argument of `setValue`: a value, or a function of the current value that may throw. */
  datatype Update = Literal(v: Value) | Apply(f: Value -> Result<Value, Fault>)

  /** `value instanceof Function ? value(storedValue) : value`. */
  function ValueToStore(update: Update, current: Value): (r: Result<Value, Fault>)
    ensures update.Literal? ==> r == Success(update.v)
    ensures update.Apply? ==> r == update.f(current)
  {
    match update
    case Literal(v) => Success(v)
    case Apply(f) => f(current)
  }

  /** What the cross-tab storage listener does with an event: `Some` new state, or `None`
      to keep the current one. */
  function EventValue(key: string, eventKey: Option<string>, newValue: Option<string>, c: Codec): (r: Option<Value>)
    ensures r.Some? <==> eventKey == Some(key) && newValue.Some? && c.parse(newValue.value).Success?
    ensures r.Some? ==> r.value == Revive(c.parse(newValue.value).value)
  {
    if eventKey == Some(key) && newValue.Some? then
      match ParseRevived(c, newValue.value)
      case Success(v) => Some(v)
      case Failure(_) => None
    else None
  }

  class PersistedState {
    const key: string
    const store: LocalStorage
    const codec: Codec
    const hasWindow: bool
    var value: Value

    /** The lazy initial read of `useState`. */
    constructor (key: string, initial: Value, store: LocalStorage, codec: Codec, hasWindow: bool)
      ensures this.key == key && this.store == store && this.codec == codec && this.hasWindow == hasWindow
      ensures value == InitialRead(hasWindow, store.GetItem(key), initial, codec)
    {
      this.key := key;
      this.store := store;
      this.codec := codec;
      this.hasWindow := hasWindow;
      value := InitialRead(hasWindow, store.GetItem(key), initial, codec);
    }

    /** `setValue`: a thrown update is caught and changes nothing; otherwise both the state and
        the stored text change. */
    method SetValue(update: Update)
      modifies this, store
      ensures ValueToStore(update, old(value)).Failure? ==>
        value == old(value) && store.items == old(store.items)
      ensures ValueToStore(update, old(value)).Success? ==>
        var v := ValueToStore(update, old(value)).value;
        value == v
        && store.items == if hasWindow then old(store.items)[key := codec.stringify(v)] else old(store.items)
    {
      var next := ValueToStore(update, value);
      if next.Success? {
        value := next.value;
        if hasWindow {
          store.SetItem(key, codec.stringify(next.value));
        }
      }
    }

    /** The `storage` event listener. */
    method HandleStorageEvent(eventKey: Option<string>, newValue: Option<string>)
      modifies this
      ensures value == EventValue(key, eventKey, newValue, codec).GetOr(old(value))
    {
      var next := EventValue(key, eventKey, newValue, codec);
      if next.Some? {
        value := next.value;
      }
    }
  }

  /** A value written by `setValue` is what the next initial read of the key returns, with
      its dates revived: written state survives a reload. */
  lemma WriteThenRead(c: Codec, v: Value, initial: Value)
    requires RoundTrips(c) && !v.Undefined?
    ensures InitialRead(true, Some(c.stringify(v)), initial, c) == Revive(Jsonify(c, v))
  {
    WrittenValueReadsBack(c, v);
  }

  /** The listener ignores events for other keys and removals (`newValue === null`). */
  lemma EventForOtherKeyIgnored(key: string, eventKey: Option<string>, newValue: Option<string>, c: Codec)
    requires eventKey != Some(key) || newValue.None?
    ensures EventValue(key, eventKey, newValue, c) == None
  {
  }

  /** `clearLocalStorage(key)`. */
  method ClearLocalStorage(store: LocalStorage, key: string, hasWindow: bool)
    modifies store
    ensures store.items == if hasWindow then old(store.items) - {key} else old(store.items)
  {
    if hasWindow {
      store.RemoveItem(key);
    }
  }

  /** `getLocalStorageSize()`: value length plus key length, summed over all entries. */
  method GetLocalStorageSize(store: LocalStorage, hasWindow: bool) returns (total: nat)
    ensures total == if hasWindow then TotalSize(store.items) else 0
    ensures store.items == map[] ==> total == 0
  {
    total := 0;
    if hasWindow {
      var rest := store.items.Keys;
      assert Restrict(store.items, rest) == store.items;
      while rest != {}
        invariant rest <= store.items.Keys
        invariant total + TotalSize(Restrict(store.items, rest)) == TotalSize(store.items)
        decreases |rest|
      {
        var k :| k in rest;
        TotalSizeRemove(Restrict(store.items, rest), k);
        assert Restrict(store.items, rest) - {k} == Restrict(store.items, rest - {k});
        total := total + EntrySize(k, store.items[k]);
        rest := rest - {k};
      }
      assert Restrict(store.items, rest) == map[];
    }
  }
}
