/**
 * The visitor's user id: read from the browser's persistent key-value
 * storage, or generated, persisted and returned when no usable value is
 * stored there (src/ts/utils/id-generator.ts).
 *
 * The storage is an object passed in (the `localStorage` port), and the
 * random source is the string `Math.random().toString(36)` passed in as
 * `randomBase36`.
 */
module IdGenerator {
  import opened Wrappers

  /** The key under which the user id is persisted. */
  const STORAGE_KEY: string := "msawicki.dev:user_id"

  /**
   * JavaScript's `s.substr(start, length)` for non-negative arguments: the
   * longest run of at most `length` characters of `s` starting at `start`.
   */
  function Substr(s: string, start: nat, length: nat): (r: string)
    ensures |r| <= length
    ensures start >= |s| ==> r == []
    ensures start < |s| ==> start + |r| <= |s| && r == s[start..start + |r|]
    ensures start < |s| ==> |r| == length || start + |r| == |s|
  {
    if start >= |s| then []
    else if start + length <= |s| then s[start..start + length]
    else s[start..]
  }

  /**
   * A fresh id: an underscore followed by up to nine characters of the
   * random string, skipping its leading "0." (the characters from index 2).
   */
  function GenerateRandomId(randomBase36: string): (r: string)
    ensures |r| >= 1 && r[0] == '_'
    ensures |r| <= 10
    ensures forall i :: 1 <= i < |r| ==> i + 1 < |randomBase36| && r[i] == randomBase36[i + 1]
  {
    "_" + Substr(randomBase36, 2, 9)
  }

  /**
   * `existingValue && typeof existingValue === 'string'`: a stored string is
   * usable when it is present and non-empty.
   */
  predicate IsTruthy(v: Option<string>)
  {
    v.Some? && v.value != ""
  }

  /** The browser's persistent key-value storage (`localStorage`). */
  class LocalStorage {
    var items: map<string, string>

    constructor (items: map<string, string>)
      ensures this.items == items
    {
      this.items := items;
    }

    /** `getItem`: the stored string, or None (`null`) when the key is absent. */
    method GetItem(key: string) returns (v: Option<string>)
      ensures v.Some? <==> key in items
      ensures v.Some? ==> v.value == items[key]
    {
      v := if key in items then Some(items[key]) else None;
    }

    /** `setItem`: stores `value` under `key`, leaving every other key alone. */
    method SetItem(key: string, value: string)
      modifies this
      ensures items == old(items)[key := value]
    {
      items := items[key := value];
    }
  }

  /** The outcome of one `getUserId` call: the id returned and the storage afterwards. */
  datatype UserIdLookup = UserIdLookup(id: string, items: map<string, string>)

  /** The value under STORAGE_KEY, when it is usable. */
  function StoredId(items: map<string, string>): Option<string>
  {
    var existing := if STORAGE_KEY in items then Some(items[STORAGE_KEY]) else None;
    if IsTruthy(existing) then existing else None
  }

  /**
   * Get-or-create over the storage contents: what `getUserId` returns and
   * what the storage holds afterwards.
   */
  function GetOrCreate(items: map<string, string>, randomBase36: string): (r: UserIdLookup)
    // afterwards the storage holds exactly the id returned
    ensures STORAGE_KEY in r.items && r.items[STORAGE_KEY] == r.id
    ensures r.id != ""
    // a usable stored id is returned as it is, and the storage is left alone
    ensures StoredId(items).Some? ==> r.id == StoredId(items).value && r.items == items
    // otherwise a freshly generated id is stored and returned
    ensures StoredId(items).None? ==> r.id == GenerateRandomId(randomBase36)
    // no other key is touched
    ensures forall k :: k != STORAGE_KEY ==> (k in r.items <==> k in items)
    ensures forall k :: k != STORAGE_KEY && k in items ==> r.items[k] == items[k]
  {
    var existing := StoredId(items);
    if existing.Some? then
      UserIdLookup(existing.value, items)
    else
      var id := GenerateRandomId(randomBase36);
      UserIdLookup(id, items[STORAGE_KEY := id])
  }

  /** `getUserId`: reads the stored id, and generates and stores one when it is missing or empty. */
  method GetUserId(storage: LocalStorage, randomBase36: string) returns (id: string)
    modifies storage
    ensures UserIdLookup(id, storage.items) == GetOrCreate(old(storage.items), randomBase36)
  {
    var existingValue := storage.GetItem(STORAGE_KEY);
    if IsTruthy(existingValue) {
      return existingValue.value;
    }
    var randomId := GenerateRandomId(randomBase36);
    storage.SetItem(STORAGE_KEY, randomId);
    return randomId;
  }

  /** The id returned is never empty, so it is usable by the next call. */
  lemma ReturnedIdIsUsable(items: map<string, string>, randomBase36: string)
    ensures StoredId(GetOrCreate(items, randomBase36).items) == Some(GetOrCreate(items, randomBase36).id)
  {
  }

  /**
   * Idempotence: a second call, whatever its random input, returns the id
   * of the first and leaves the storage as the first call left it.
   */
  lemma GetOrCreateIdempotent(items: map<string, string>, first: string, second: string)
    ensures GetOrCreate(GetOrCreate(items, first).items, second) == GetOrCreate(items, first)
  {
  }

  /** Two successive `getUserId` calls on one storage return the same id. */
  method GetUserIdTwice(storage: LocalStorage, first: string, second: string) returns (a: string, b: string)
    modifies storage
    ensures a == b
    ensures UserIdLookup(b, storage.items) == GetOrCreate(old(storage.items), first)
  {
    a := GetUserId(storage, first);
    GetOrCreateIdempotent(old(storage.items), first, second);
    b := GetUserId(storage, second);
  }
}
