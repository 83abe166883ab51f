/**
 * DataStorage: the key/value container behind ArrayAccess and Countable that
 * the loader uses as a cache from template slugs to rendered file paths.
 */
module Storage {
  import opened Wrappers

  /** A stored value: PHP null, or a string (the loader stores file paths). */
  datatype Value = Null | Str(s: string)

  /** The OutOfBoundsException offsetGet throws for a key that is not set. */
  datatype OutOfBounds = OutOfBounds(key: string)
  {
    /** The exception's message. */
    function Message(): (m: string)
      ensures |m| == |key| + 20
      ensures m[..4] == "Key " && m[4..4 + |key|] == key && m[4 + |key|..] == " does not exists"
    {
      "Key " + key + " does not exists"
    }
  }

  /** The message names the missing key: different keys give different messages. */
  lemma MessageIdentifiesKey(a: string, b: string)
    ensures OutOfBounds(a).Message() == OutOfBounds(b).Message() ==> a == b
  {
    var m := OutOfBounds(a).Message();
    if m == OutOfBounds(b).Message() {
      assert |a| == |b|;
      assert a == m[4..4 + |a|];
    }
  }

  /** PHP's isset($data[$key]): the key is present and its value is not null. */
  predicate IsSet(data: map<string, Value>, key: string) {
    key in data && data[key] != Null
  }

  /** offsetGet on a container holding data. */
  function Get(data: map<string, Value>, key: string): (r: Result<Value, OutOfBounds>)
    ensures r.Success? <==> IsSet(data, key)
    ensures r.Success? ==> key in data && r.value == data[key] && r.value != Null
    ensures r.Failure? ==> r.error == OutOfBounds(key)
  {
    if IsSet(data, key) then Success(data[key]) else Failure(OutOfBounds(key))
  }

  class DataStorage {
    /** The container. */
    var data: map<string, Value>

    /** A new storage is empty. */
    constructor()
      ensures data == map[]
    {
      data := map[];
    }

    predicate OffsetExists(key: string)
      reads this
    {
      IsSet(data, key)
    }

    function OffsetGet(key: string): (r: Result<Value, OutOfBounds>)
      reads this
      ensures r == Get(data, key)
    {
      Get(data, key)
    }

    /** $storage[$key] = $value: adds the key or overwrites its value. */
    method OffsetSet(key: string, value: Value)
      modifies this
      ensures data == old(data)[key := value]
    {
      data := data[key := value];
    }

    /** unset($storage[$key]): removes the key; an absent key is left absent. */
    method OffsetUnset(key: string)
      modifies this
      ensures data == old(data) - {key}
    {
      data := data - {key};
    }

    /** count($storage): every key, including one that holds null. */
    function Count(): nat
      reads this
    {
      |data|
    }
  }

  /**
   * After a set, getting the key yields the value unless it is null, and
   * every other key reads as before.
   */
  lemma GetAfterSet(data: map<string, Value>, key: string, value: Value, other: string)
    ensures Get(data[key := value], key) == if value != Null then Success(value) else Failure(OutOfBounds(key))
    ensures IsSet(data[key := value], key) <==> value != Null
    ensures other != key ==> Get(data[key := value], other) == Get(data, other)
  {
  }

  /** A set raises the count by one exactly when the key was new; an overwrite keeps it. */
  lemma CountAfterSet(data: map<string, Value>, key: string, value: Value)
    ensures |data[key := value]| == if key in data then |data| else |data| + 1
  {
  }

  /** An unset drops the count by one exactly when the key was present, and keeps every other key. */
  lemma {:induction false} CountAfterUnset(data: map<string, Value>, key: string, other: string)
    ensures |data - {key}| == if key in data then |data| - 1 else |data|
    ensures other != key ==> Get(data - {key}, other) == Get(data, other)
    ensures !IsSet(data - {key}, key)
  {
    if key in data {
      assert data.Keys == (data - {key}).Keys + {key};
    } else {
      assert data - {key} == data;
    }
  }

  /** isset ignores a key holding null, but count still counts it. */
  lemma NullIsCountedButNotSet(data: map<string, Value>, key: string)
    ensures key in data[key := Null]
    ensures |data[key := Null]| == if key in data then |data| else |data| + 1
    ensures !IsSet(data[key := Null], key)
    ensures Get(data[key := Null], key).Failure?
  {
  }

  /**
   * The sequence of tests/src/DataStorageTest.php on one storage: after
   * storing 'value' under 'key' the count is 1, the key is set and reads
   * back; after unsetting it the storage is empty.
   */
  method StorageRoundTrip() returns (countAfterSet: nat, existsAfterSet: bool, got: Result<Value, OutOfBounds>, countAfterUnset: nat)
    ensures countAfterSet == 1 && existsAfterSet
    ensures got == Success(Str("value"))
    ensures countAfterUnset == 0
  {
    var storage := new DataStorage();
    storage.OffsetSet("key", Str("value"));
    countAfterSet := storage.Count();
    existsAfterSet := storage.OffsetExists("key");
    got := storage.OffsetGet("key");
    storage.OffsetUnset("key");
    assert storage.data == map[];
    countAfterUnset := storage.Count();
  }
}
