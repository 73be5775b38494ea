/**
 * The fault-tolerant key-value layer over the browser's localStorage
 * (client/lib/localStorage.ts): the safe primitive, the JSON codec on top of
 * it, and the generic per-key storage manager.
 */
module LocalStorage {
  import opened Wrappers
  import opened Json

  /** The key the availability probe writes and removes again. */
  const TestKey := "__localStorage_test__"

  /** `m` and `m'` agree on every key outside `keys`: same presence, same string. */
  ghost predicate SameExcept(m: map<string, string>, m': map<string, string>, keys: set<string>) {
    forall k :: k !in keys ==> (k in m <==> k in m') && (k in m ==> m[k] == m'[k])
  }

  /**
   * The browser's localStorage as seen by one page, wrapped by `safeLocalStorage`.
   * The flags say how the host behaves: whether a window exists at all (it does
   * not during server-side rendering), whether every call into localStorage
   * throws (storage disabled or denied), and whether writes throw (quota exceeded).
   * Every operation catches those exceptions and reports a sentinel instead.
   */
  class BrowserStorage {
    var items: map<string, string>
    const hasWindow: bool
    const blocked: bool
    const full: bool

    constructor (items: map<string, string>, hasWindow: bool, blocked: bool, full: bool)
      ensures this.items == items
      ensures this.hasWindow == hasWindow && this.blocked == blocked && this.full == full
    {
      this.items := items;
      this.hasWindow := hasWindow;
      this.blocked := blocked;
      this.full := full;
    }

    /** localStorage can be called without throwing. */
    predicate Reachable() {
      hasWindow && !blocked
    }

    /** localStorage accepts writes. */
    predicate Writable() {
      Reachable() && !full
    }

    /** `getItem`: the stored string, or None (`null`) when there is no window, the call throws, or the key is absent. */
    function GetItem(key: string): (r: Option<string>)
      reads this
      ensures r.Some? <==> Reachable() && key in items
      ensures r.Some? ==> r.value == items[key]
    {
      if !hasWindow then None
      else if blocked then None  // localStorage.getItem threw
      else if key in items then Some(items[key])
      else None
    }

    /** `setItem`: true iff the write happened; a failed write changes nothing. */
    method SetItem(key: string, value: string) returns (ok: bool)
      modifies this`items
      ensures ok <==> Writable()
      ensures items == if ok then old(items)[key := value] else old(items)
      ensures ok ==> GetItem(key) == Some(value)
      ensures SameExcept(old(items), items, {key})
    {
      if !hasWindow {
        return false;
      }
      if blocked || full {
        return false;  // localStorage.setItem threw
      }
      items := items[key := value];
      ok := true;
    }

    /** `removeItem`: true iff the removal happened; a failed removal changes nothing. */
    method RemoveItem(key: string) returns (ok: bool)
      modifies this`items
      ensures ok <==> Reachable()
      ensures items == if ok then old(items) - {key} else old(items)
      ensures ok ==> key !in items && GetItem(key) == None
      ensures SameExcept(old(items), items, {key})
    {
      if !hasWindow {
        return false;
      }
      if blocked {
        return false;  // localStorage.removeItem threw
      }
      items := items - {key};
      ok := true;
    }

    /**
     * `isAvailable`: writes the probe key and removes it again. True iff both
     * succeed; the probe key is then gone (even if it was there before) and
     * every other key is as it was.
     */
    method IsAvailable() returns (ok: bool)
      modifies this`items
      ensures ok <==> Writable()
      ensures items == if ok then old(items) - {TestKey} else old(items)
      ensures ok ==> TestKey !in items
      ensures SameExcept(old(items), items, {TestKey})
    {
      if !hasWindow {
        return false;
      }
      if blocked || full {
        return false;  // localStorage.setItem threw before anything was written
      }
      items := items[TestKey := "test"];
      // localStorage.removeItem throws only when storage is blocked, excluded above
      items := items - {TestKey};
      ok := true;
    }

    /** `clear`: true iff every key was removed; a failed clear changes nothing. */
    method Clear() returns (ok: bool)
      modifies this`items
      ensures ok <==> Reachable()
      ensures items == if ok then map[] else old(items)
    {
      if !hasWindow {
        return false;
      }
      if blocked {
        return false;  // localStorage.clear threw
      }
      items := map[];
      ok := true;
    }
  }

  /** A non-empty string that parses is stored under `key` and can be read. */
  ghost predicate Decodes<V>(store: BrowserStorage, codec: Codec<V>, key: string)
    reads store
  {
    && store.Reachable()
    && key in store.items
    && store.items[key] != ""
    && codec.parse(store.items[key]).Some?
  }

  /**
   * `getStoredJSON`: the parsed value stored under `key`, or `fallback` when
   * there is no window, the read throws, the key is absent, the stored string
   * is empty (falsy), or it does not parse.
   */
  function GetStoredJSON<V>(store: BrowserStorage, codec: Codec<V>, key: string, fallback: V): (r: V)
    reads store
    ensures (|| !store.Reachable()
             || key !in store.items
             || store.items[key] == ""
             || codec.parse(store.items[key]).None?) ==> r == fallback
    ensures (&& store.Reachable()
             && key in store.items
             && store.items[key] != ""
             && codec.parse(store.items[key]).Some?) ==> r == codec.parse(store.items[key]).value
  {
    var stored := store.GetItem(key);
    if stored.None? || stored.value == "" then fallback
    else match codec.parse(stored.value)
      case None => fallback  // JSON.parse threw
      case Some(v) => v
  }

  /** A string a lawful codec produced for `value` reads back as `value`, whatever the fallback. */
  lemma StoredJSONRoundTrip<V(!new)>(store: BrowserStorage, codec: Codec<V>, key: string, value: V, fallback: V)
    requires Lawful(codec)
    requires store.Reachable() && key in store.items && store.items[key] == codec.serialize(value)
    ensures GetStoredJSON(store, codec, key, fallback) == value
  {
  }

  /**
   * `setStoredJSON`: serializes and writes; true iff the write happened. After a
   * successful write, reading the key back yields `value` (for a lawful codec).
   */
  method SetStoredJSON<V(!new)>(store: BrowserStorage, codec: Codec<V>, key: string, value: V) returns (ok: bool)
    modifies store`items
    ensures ok <==> store.Writable()
    ensures store.items == if ok then old(store.items)[key := codec.serialize(value)] else old(store.items)
    ensures ok && Lawful(codec) ==> forall fb :: GetStoredJSON(store, codec, key, fb) == value
  {
    ok := store.SetItem(key, codec.serialize(value));
    if ok && Lawful(codec) {
      forall fb ensures GetStoredJSON(store, codec, key, fb) == value {
        StoredJSONRoundTrip(store, codec, key, value, fb);
      }
    }
  }

  /** `StorageManager<T>`: get/set/remove/exists bound to one key and its default. */
  class StorageManager<T(!new)> {
    const store: BrowserStorage
    const codec: Codec<T>
    const key: string
    const defaultValue: T

    constructor (store: BrowserStorage, codec: Codec<T>, key: string, defaultValue: T)
      ensures this.store == store && this.codec == codec
      ensures this.key == key && this.defaultValue == defaultValue
    {
      this.store := store;
      this.codec := codec;
      this.key := key;
      this.defaultValue := defaultValue;
    }

    /** `get`: the stored value, or the default on any failure. */
    function Get(): (r: T)
      reads store
      ensures !Decodes(store, codec, key) ==> r == defaultValue
      ensures Decodes(store, codec, key) ==> r == codec.parse(store.items[key]).value
    {
      GetStoredJSON(store, codec, key, defaultValue)
    }

    /** `set`: true iff the value was written; it then reads back (for a lawful codec). */
    method Set(value: T) returns (ok: bool)
      modifies store`items
      ensures ok <==> store.Writable()
      ensures store.items == if ok then old(store.items)[key := codec.serialize(value)] else old(store.items)
      ensures ok ==> Exists()
      ensures ok && Lawful(codec) ==> Get() == value
    {
      ok := SetStoredJSON(store, codec, key, value);
    }

    /** `remove`: true iff the key was removed; then nothing exists and `get` gives the default. */
    method Remove() returns (ok: bool)
      modifies store`items
      ensures ok <==> store.Reachable()
      ensures store.items == if ok then old(store.items) - {key} else old(store.items)
      ensures ok ==> !Exists() && Get() == defaultValue
    {
      ok := store.RemoveItem(key);
    }

    /** `exists`: some string is stored under the key and can be read. */
    function Exists(): (r: bool)
      reads store
      ensures r <==> store.Reachable() && key in store.items
    {
      store.GetItem(key) != None
    }
  }

  /**
   * `exists` does not promise a decodable value: an empty or unparsable stored
   * string exists, yet `get` still returns the default.
   */
  lemma ExistsWithoutValue<T(!new)>(m: StorageManager<T>)
    requires m.store.Reachable() && m.key in m.store.items
    requires m.store.items[m.key] == "" || m.codec.parse(m.store.items[m.key]).None?
    ensures m.Exists() && m.Get() == m.defaultValue
  {
  }
}
