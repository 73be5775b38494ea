/**
 * The state-sync hooks of client/lib/useLocalStorage.ts with React taken away:
 * a hook instance is an object holding the in-memory cache of one key, written
 * through to storage on every update. Calls are strictly sequential.
 */
module UseLocalStorage {
  import opened Wrappers
  import opened Json
  import opened LocalStorage

  /** The argument of `setValue`: a literal value, or an updater applied to the previous value. */
  datatype SetAction<!V> = Value(v: V) | Updater(f: V -> V)

  /** The value `setValue` stores for `action`, given the current cache. */
  function Resolve<V>(action: SetAction<V>, prev: V): V {
    match action
    case Value(v) => v
    case Updater(f) => f(prev)
  }

  /** One `useLocalStorage(key, initialValue)` (and `useLocalStorageSync`) instance. */
  class LocalStorageHook<V(!new)> {
    const store: BrowserStorage
    const codec: Codec<V>
    const key: string
    const initialValue: V
    var cache: V

    /** A fresh mount would read exactly the cached value. */
    ghost predicate InSync()
      reads this, store
    {
      GetStoredJSON(store, codec, key, initialValue) == cache
    }

    /** Storage holds the serialized cache if it accepts writes, and is as it was (`before`) otherwise. */
    ghost predicate WroteThrough(before: map<string, string>)
      reads this, store
    {
      store.items == if store.Writable() then before[key := codec.serialize(cache)] else before
    }

    /** The initial mount: reads the key once through the codec, seeded with the default. */
    constructor (store: BrowserStorage, codec: Codec<V>, key: string, initialValue: V)
      ensures this.store == store && this.codec == codec
      ensures this.key == key && this.initialValue == initialValue
      ensures cache == GetStoredJSON(store, codec, key, initialValue)
      ensures InSync()
    {
      this.store := store;
      this.codec := codec;
      this.key := key;
      this.initialValue := initialValue;
      cache := GetStoredJSON(store, codec, key, initialValue);
    }

    /**
     * `setValue`: updates the cache, then persists it. The cache takes the new
     * value even when the write fails; when storage accepts writes the cache and
     * storage agree afterwards (for a lawful codec).
     */
    method SetValue(action: SetAction<V>)
      modifies this`cache, store`items
      ensures cache == Resolve(action, old(cache))
      ensures WroteThrough(old(store.items))
      ensures store.Writable() && Lawful(codec) ==> InSync()
    {
      cache := Resolve(action, cache);
      var _ := SetStoredJSON(store, codec, key, cache);
    }

    /**
     * `removeValue`: the cache goes back to the mount's default (not to any
     * earlier stored value) and the key is removed; when storage can be reached
     * the two agree afterwards.
     */
    method RemoveValue()
      modifies this`cache, store`items
      ensures cache == initialValue
      ensures store.items == if store.Reachable() then old(store.items) - {key} else old(store.items)
      ensures store.Reachable() ==> InSync()
    {
      cache := initialValue;
      var _ := store.RemoveItem(key);
    }

    /**
     * The `storage` event handler of `useLocalStorageSync`: an event for this key
     * carrying a parseable new value replaces the cache through `setValue`
     * (which writes it back); any other event changes nothing.
     */
    method HandleStorageEvent(eventKey: Option<string>, newValue: Option<string>)
      modifies this`cache, store`items
      ensures (|| eventKey != Some(key)
               || newValue.None?
               || codec.parse(newValue.value).None?) ==> cache == old(cache) && store.items == old(store.items)
      ensures (&& eventKey == Some(key)
               && newValue.Some?
               && codec.parse(newValue.value).Some?) ==>
                cache == codec.parse(newValue.value).value && WroteThrough(old(store.items))
      ensures old(InSync()) && store.Writable() && Lawful(codec) ==> InSync()
      ensures Lawful(codec) && newValue == Some("") ==> cache == old(cache) && store.items == old(store.items)
    {
      if eventKey == Some(key) && newValue.Some? {
        match codec.parse(newValue.value) {
          case None =>  // JSON.parse threw: logged and ignored
          case Some(v) => SetValue(Value(v));
        }
      }
    }
  }

  // useLocalStorageBoolean: updaters over the previous boolean

  /** The updater of `toggle`: `prev => !prev`. */
  function Toggled(prev: bool): (r: bool)
    ensures r != prev
  {
    !prev
  }

  /** Toggling twice restores the original value. */
  lemma ToggleTwice(b: bool)
    ensures Toggled(Toggled(b)) == b
  {
  }

  method Toggle(h: LocalStorageHook<bool>)
    modifies h`cache, h.store`items
    ensures h.cache == !old(h.cache)
    ensures h.WroteThrough(old(h.store.items))
  {
    h.SetValue(Updater(Toggled));
  }

  /** `setTrue` ignores the previous value (defined by the hook, though not among the values it returns). */
  method SetTrue(h: LocalStorageHook<bool>)
    modifies h`cache, h.store`items
    ensures h.cache
    ensures h.WroteThrough(old(h.store.items))
  {
    h.SetValue(Value(true));
  }

  /** `setFalse` ignores the previous value (defined by the hook, though not among the values it returns). */
  method SetFalse(h: LocalStorageHook<bool>)
    modifies h`cache, h.store`items
    ensures !h.cache
    ensures h.WroteThrough(old(h.store.items))
  {
    h.SetValue(Value(false));
  }

  method SetBoolean(h: LocalStorageHook<bool>, b: bool)
    modifies h`cache, h.store`items
    ensures h.cache == b
    ensures h.WroteThrough(old(h.store.items))
  {
    h.SetValue(Value(b));
  }

  // useLocalStorageArray: updaters over the previous array

  /** The updater of `add`: `prev => [...prev, item]`. */
  function Appended<T>(prev: seq<T>, item: T): (r: seq<T>)
    ensures |r| == |prev| + 1 && r[|prev|] == item && r[..|prev|] == prev
  {
    prev + [item]
  }

  /** `s.filter((_, i) => i !== index)` where `s` starts at position `offset` of the array being filtered. */
  function WithoutPosition<T>(s: seq<T>, index: int, offset: int): seq<T>
    decreases |s|
  {
    if s == [] then []
    else (if offset == index then [] else [s[0]]) + WithoutPosition(s[1..], index, offset + 1)
  }

  lemma {:induction false} WithoutPositionDrops<T>(s: seq<T>, index: int, offset: int)
    ensures offset <= index < offset + |s| ==>
              WithoutPosition(s, index, offset) == s[..index - offset] + s[index - offset + 1..]
    ensures !(offset <= index < offset + |s|) ==> WithoutPosition(s, index, offset) == s
    decreases |s|
  {
    if s != [] {
      var rest := WithoutPosition(s[1..], index, offset + 1);
      WithoutPositionDrops(s[1..], index, offset + 1);
      if offset == index {
        assert rest == s[1..];
        assert WithoutPosition(s, index, offset) == rest;
      } else if offset < index < offset + |s| {
        var i := index - offset;
        assert rest == s[1..][..i - 1] + s[1..][i..];
        assert WithoutPosition(s, index, offset) == [s[0]] + rest;
        assert [s[0]] + s[1..][..i - 1] == s[..i];
        assert s[1..][i..] == s[i + 1..];
      } else {
        assert rest == s[1..];
        assert WithoutPosition(s, index, offset) == [s[0]] + s[1..];
      }
    }
  }

  /**
   * The updater of `remove(index)`: an in-range index drops exactly that element;
   * any other index (negative or past the end) leaves the array as it was.
   */
  function Removed<T>(prev: seq<T>, index: int): (r: seq<T>)
    ensures 0 <= index < |prev| ==> r == prev[..index] + prev[index + 1..] && |r| == |prev| - 1
    ensures !(0 <= index < |prev|) ==> r == prev
  {
    WithoutPositionDrops(prev, index, 0);
    WithoutPosition(prev, index, 0)
  }

  /** `s.map((existing, i) => i === index ? item : existing)` where `s` starts at position `offset`. */
  function ReplacingPosition<T>(s: seq<T>, index: int, item: T, offset: int): seq<T>
    decreases |s|
  {
    if s == [] then []
    else [if offset == index then item else s[0]] + ReplacingPosition(s[1..], index, item, offset + 1)
  }

  lemma {:induction false} ReplacingPositionAt<T>(s: seq<T>, index: int, item: T, offset: int)
    ensures |ReplacingPosition(s, index, item, offset)| == |s|
    ensures forall j :: 0 <= j < |s| ==>
              ReplacingPosition(s, index, item, offset)[j] == if offset + j == index then item else s[j]
    decreases |s|
  {
    if s != [] {
      ReplacingPositionAt(s[1..], index, item, offset + 1);
      var r := ReplacingPosition(s, index, item, offset);
      assert r == [if offset == index then item else s[0]] + ReplacingPosition(s[1..], index, item, offset + 1);
      forall j | 0 < j < |s|
        ensures r[j] == if offset + j == index then item else s[j]
      {
        assert r[j] == ReplacingPosition(s[1..], index, item, offset + 1)[j - 1];
      }
    }
  }

  /**
   * The updater of `update(index, item)`: same length, position `index` holds
   * `item`, every other position is unchanged; an out-of-range index changes nothing.
   */
  function Replaced<T>(prev: seq<T>, index: int, item: T): (r: seq<T>)
    ensures |r| == |prev|
    ensures 0 <= index < |prev| ==> r[index] == item
    ensures forall j :: 0 <= j < |prev| && j != index ==> r[j] == prev[j]
    ensures !(0 <= index < |prev|) ==> r == prev
  {
    ReplacingPositionAt(prev, index, item, 0);
    ReplacingPosition(prev, index, item, 0)
  }

  method Add<T(!new)>(h: LocalStorageHook<seq<T>>, item: T)
    modifies h`cache, h.store`items
    ensures h.cache == Appended(old(h.cache), item)
    ensures h.WroteThrough(old(h.store.items))
  {
    h.SetValue(Updater(prev => Appended(prev, item)));
  }

  method Remove<T(!new)>(h: LocalStorageHook<seq<T>>, index: int)
    modifies h`cache, h.store`items
    ensures h.cache == Removed(old(h.cache), index)
    ensures h.WroteThrough(old(h.store.items))
  {
    h.SetValue(Updater(prev => Removed(prev, index)));
  }

  method Update<T(!new)>(h: LocalStorageHook<seq<T>>, index: int, item: T)
    modifies h`cache, h.store`items
    ensures h.cache == Replaced(old(h.cache), index, item)
    ensures h.WroteThrough(old(h.store.items))
  {
    h.SetValue(Updater(prev => Replaced(prev, index, item)));
  }

  method Clear<T(!new)>(h: LocalStorageHook<seq<T>>)
    modifies h`cache, h.store`items
    ensures h.cache == []
    ensures h.WroteThrough(old(h.store.items))
  {
    h.SetValue(Value([]));
  }

  method Set<T(!new)>(h: LocalStorageHook<seq<T>>, items: seq<T>)
    modifies h`cache, h.store`items
    ensures h.cache == items
    ensures h.WroteThrough(old(h.store.items))
  {
    h.SetValue(Value(items));
  }
}
