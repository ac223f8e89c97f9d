/** The three id-keyed list transformations that the reducers and the line-item
    list are built from: `array.map` that rewrites the entries carrying one key,
    and `array.filter` that drops them. `key` reads the identifying field of an
    entry (`id` of a record, `productoId` of a line item). */
module Collection {

  /** Some entry carries key `id`. */
  predicate HasKey<T>(s: seq<T>, key: T -> int, id: int)
  {
    exists i :: 0 <= i < |s| && key(s[i]) == id
  }

  /** No two entries carry the same key. */
  predicate UniqueKeys<T>(s: seq<T>, key: T -> int)
  {
    forall i, j :: 0 <= i < j < |s| ==> key(s[i]) != key(s[j])
  }

  /** Number of entries carrying key `id`. */
  function CountKey<T>(s: seq<T>, key: T -> int, id: int): nat
  {
    if s == [] then 0 else (if key(s[0]) == id then 1 else 0) + CountKey(s[1..], key, id)
  }

  /** `s.map(x => key(x) === id ? f(x) : x)`. */
  function MapKey<T>(s: seq<T>, key: T -> int, id: int, f: T -> T): (r: seq<T>)
    ensures |r| == |s|
    ensures forall i :: 0 <= i < |s| ==> r[i] == if key(s[i]) == id then f(s[i]) else s[i]
  {
    if s == [] then [] else [if key(s[0]) == id then f(s[0]) else s[0]] + MapKey(s[1..], key, id, f)
  }

  /** `s.filter(x => key(x) !== id)`. */
  function RemoveKey<T>(s: seq<T>, key: T -> int, id: int): (r: seq<T>)
    ensures |r| == |s| - CountKey(s, key, id)
    ensures forall i :: 0 <= i < |r| ==> key(r[i]) != id
  {
    if s == [] then [] else (if key(s[0]) == id then [] else [s[0]]) + RemoveKey(s[1..], key, id)
  }

  /** The filtered list holds exactly the entries of `s` whose key differs from `id`. */
  lemma {:induction false} RemoveKeyMembers<T>(s: seq<T>, key: T -> int, id: int)
    ensures forall i :: 0 <= i < |RemoveKey(s, key, id)| ==> RemoveKey(s, key, id)[i] in s
    ensures forall i :: 0 <= i < |s| && key(s[i]) != id ==> s[i] in RemoveKey(s, key, id)
  {
    if s != [] {
      RemoveKeyMembers(s[1..], key, id);
      var tail := RemoveKey(s[1..], key, id);
      assert RemoveKey(s, key, id) == (if key(s[0]) == id then [] else [s[0]]) + tail;
      assert forall i :: 1 <= i < |s| ==> s[i] == s[1..][i - 1];
    }
  }

  /** No entry is counted exactly when no entry carries the key. */
  lemma {:induction false} CountKeyZero<T>(s: seq<T>, key: T -> int, id: int)
    ensures CountKey(s, key, id) == 0 <==> !HasKey(s, key, id)
  {
    if s != [] {
      CountKeyZero(s[1..], key, id);
      if key(s[0]) != id && HasKey(s, key, id) {
        var i :| 0 <= i < |s| && key(s[i]) == id;
        assert key(s[1..][i - 1]) == id;
      }
    }
  }

  /** Filtering works entry by entry: it distributes over concatenation, so the
      entries it keeps stay in their original relative order. */
  lemma {:induction false} RemoveKeyAppend<T>(s: seq<T>, t: seq<T>, key: T -> int, id: int)
    ensures RemoveKey(s + t, key, id) == RemoveKey(s, key, id) + RemoveKey(t, key, id)
  {
    if s != [] {
      assert (s + t)[1..] == s[1..] + t;
      RemoveKeyAppend(s[1..], t, key, id);
    } else {
      assert s + t == t;
    }
  }

  /** Dropping a key that no entry carries changes nothing. */
  lemma {:induction false} RemoveKeyAbsent<T>(s: seq<T>, key: T -> int, id: int)
    requires !HasKey(s, key, id)
    ensures RemoveKey(s, key, id) == s
  {
    if s != [] {
      assert !HasKey(s[1..], key, id);
      RemoveKeyAbsent(s[1..], key, id);
      assert s == [s[0]] + s[1..];
    }
  }

  /** Dropping a key a second time changes nothing. */
  lemma RemoveKeyIdempotent<T>(s: seq<T>, key: T -> int, id: int)
    ensures RemoveKey(RemoveKey(s, key, id), key, id) == RemoveKey(s, key, id)
  {
    var r := RemoveKey(s, key, id);
    assert !HasKey(r, key, id);
    RemoveKeyAbsent(r, key, id);
  }

  /** Rewriting a key that no entry carries changes nothing. */
  lemma MapKeyAbsent<T>(s: seq<T>, key: T -> int, id: int, f: T -> T)
    requires !HasKey(s, key, id)
    ensures MapKey(s, key, id, f) == s
  {
    var r := MapKey(s, key, id, f);
    assert forall i :: 0 <= i < |s| ==> r[i] == s[i];
  }
}
