/** The terminal's virtual file system (`FileSystemNode` in `src/types.d.ts`):
 *  a directory maps names to a child directory or to the file marker
 *  `"FILE"`. The entries are kept as an association list in insertion order,
 *  which is the order `Object.keys` reports for the names the terminal
 *  creates. */
module FsTree {
  import opened Wrappers

  datatype Node = File | Dir(entries: seq<(string, Node)>)

  type Entries = seq<(string, Node)>

  /** `dir[key]` (a missing key reads as `undefined`). */
  function Get(es: Entries, key: string): (r: Option<Node>)
    ensures r.Some? ==> exists i :: 0 <= i < |es| && es[i] == (key, r.value)
    ensures r.None? ==> forall i :: 0 <= i < |es| ==> es[i].0 != key
  {
    if es == [] then None
    else if es[0].0 == key then Some(es[0].1)
    else
      var r := Get(es[1..], key);
      assert r.Some? ==> es[1..][0] == es[1];
      r
  }

  /** `Object.keys(dir)`. */
  function Keys(es: Entries): (r: seq<string>)
    ensures |r| == |es|
    ensures forall i :: 0 <= i < |es| ==> r[i] == es[i].0
  {
    if es == [] then [] else [es[0].0] + Keys(es[1..])
  }

  /** No name occurs twice, as in any JavaScript object. */
  predicate Distinct(es: Entries)
  {
    forall i, j :: 0 <= i < j < |es| ==> es[i].0 != es[j].0
  }

  /** `dir[key] = v`: an existing key keeps its place and takes the new
   *  value, a new key goes at the end. */
  function Put(es: Entries, key: string, v: Node): (r: Entries)
  {
    if es == [] then [(key, v)]
    else if es[0].0 == key then [(key, v)] + es[1..]
    else [es[0]] + Put(es[1..], key, v)
  }

  /** `delete dir[key]`. */
  function Delete(es: Entries, key: string): (r: Entries)
    ensures |r| <= |es|
  {
    if es == [] then []
    else if es[0].0 == key then Delete(es[1..], key)
    else [es[0]] + Delete(es[1..], key)
  }

  /** After `dir[key] = v` the key reads back `v` and every other key reads
   *  what it read before. */
  lemma {:induction false} GetPut(es: Entries, key: string, v: Node, other: string)
    ensures Get(Put(es, key, v), key) == Some(v)
    ensures other != key ==> Get(Put(es, key, v), other) == Get(es, other)
  {
    if es != [] && es[0].0 != key {
      GetPut(es[1..], key, v, other);
      assert Put(es, key, v)[1..] == Put(es[1..], key, v);
    }
  }

  /** A new key is appended after the existing entries. */
  lemma {:induction false} PutNew(es: Entries, key: string, v: Node)
    requires Get(es, key).None?
    ensures Put(es, key, v) == es + [(key, v)]
  {
    if es != [] {
      PutNew(es[1..], key, v);
      assert [es[0]] + (es[1..] + [(key, v)]) == es + [(key, v)];
    }
  }

  /** The key list after `dir[key] = v`: unchanged for an existing key,
   *  extended by `key` at the end for a new one. */
  lemma {:induction false} KeysPut(es: Entries, key: string, v: Node)
    ensures Get(es, key).Some? ==> Keys(Put(es, key, v)) == Keys(es)
    ensures Get(es, key).None? ==> Keys(Put(es, key, v)) == Keys(es) + [key]
  {
    if es != [] && es[0].0 != key {
      KeysPut(es[1..], key, v);
      assert Put(es, key, v) == [es[0]] + Put(es[1..], key, v);
      assert Keys(Put(es, key, v)) == [es[0].0] + Keys(Put(es[1..], key, v));
      assert Keys(es) == [es[0].0] + Keys(es[1..]);
    }
  }

  /** After `delete dir[key]` the key is gone and every other key reads what
   *  it read before. */
  lemma {:induction false} GetDelete(es: Entries, key: string, other: string)
    ensures Get(Delete(es, key), key).None?
    ensures other != key ==> Get(Delete(es, key), other) == Get(es, other)
  {
    if es != [] {
      GetDelete(es[1..], key, other);
      if es[0].0 != key {
        assert Delete(es, key)[1..] == Delete(es[1..], key);
      }
    }
  }

  /** Deleting a name that is present removes exactly one entry from an
   *  object, and the remaining names stay distinct. */
  lemma {:induction false} DeleteDistinct(es: Entries, key: string)
    requires Distinct(es) && Get(es, key).Some?
    ensures |Delete(es, key)| == |es| - 1
    ensures Distinct(Delete(es, key))
  {
    if es[0].0 == key {
      DeleteAbsent(es[1..], key);
    } else {
      DeleteDistinct(es[1..], key);
      DeleteSubset(es[1..], key);
      var r := Delete(es, key);
      assert r == [es[0]] + Delete(es[1..], key);
      forall j | 1 <= j < |r|
        ensures r[j].0 != r[0].0
      {
        assert r[j] in es[1..];
      }
    }
  }

  /** Deleting a name that is absent changes nothing. */
  lemma {:induction false} DeleteAbsent(es: Entries, key: string)
    requires forall i :: 0 <= i < |es| ==> es[i].0 != key
    ensures Delete(es, key) == es
  {
    if es != [] {
      DeleteAbsent(es[1..], key);
    }
  }

  lemma {:induction false} DeleteSubset(es: Entries, key: string)
    ensures forall e :: e in Delete(es, key) ==> e in es
  {
    if es != [] {
      DeleteSubset(es[1..], key);
    }
  }

  /** `dir[key] = v` keeps the names of an object distinct. */
  lemma {:induction false} PutDistinct(es: Entries, key: string, v: Node)
    requires Distinct(es)
    ensures Distinct(Put(es, key, v))
  {
    if es == [] {
    } else if es[0].0 == key {
      var r := Put(es, key, v);
      assert forall i :: 0 <= i < |r| ==> r[i].0 == es[i].0;
    } else {
      var tail := Put(es[1..], key, v);
      PutDistinct(es[1..], key, v);
      var r := [es[0]] + tail;
      assert r == Put(es, key, v);
      forall j | 1 <= j < |r|
        ensures r[j].0 != es[0].0
      {
        PutKey(es[1..], key, v, j - 1);
        assert r[j] == tail[j - 1];
      }
    }
  }

  /** Each name after `dir[key] = v` is `key` or a name that was there. */
  lemma {:induction false} PutKey(es: Entries, key: string, v: Node, j: int)
    requires 0 <= j < |Put(es, key, v)|
    ensures Put(es, key, v)[j].0 == key || (j < |es| && Put(es, key, v)[j].0 == es[j].0)
  {
    if es != [] && es[0].0 != key && j > 0 {
      PutKey(es[1..], key, v, j - 1);
      assert Put(es, key, v)[j] == Put(es[1..], key, v)[j - 1];
    }
  }
}
