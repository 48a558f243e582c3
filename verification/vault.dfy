/** The vault of markdown notes (`src/vault.ts`). The bundler hands the module
 *  a record from keys such as "../vault/food.md" to file contents; it is
 *  modelled as its entries in key order. A lookup only reads it. */
module Vault {
  import opened Wrappers
  import opened Text

  datatype Entry = Entry(key: string, content: string)

  /** `vaultFiles[key]`: the content stored under `key`, if any. */
  function Lookup(files: seq<Entry>, key: string): (r: Option<string>)
    ensures r.Some? <==> exists i :: 0 <= i < |files| && files[i].key == key
    ensures r.Some? ==> exists i :: 0 <= i < |files| && files[i] == Entry(key, r.value)
  {
    if files == [] then None
    else if files[0].key == key then Some(files[0].content)
    else Lookup(files[1..], key)
  }

  /** `Object.keys(vaultFiles).find(k => k.endsWith(suffix))`: the first key,
   *  in order, that ends with `suffix`. */
  function FirstEndingWith(files: seq<Entry>, suffix: string): (r: Option<nat>)
    ensures r.Some? ==> r.value < |files| && EndsWith(files[r.value].key, suffix)
    ensures r.Some? ==> forall i :: 0 <= i < r.value ==> !EndsWith(files[i].key, suffix)
    ensures r.None? <==> forall i :: 0 <= i < |files| ==> !EndsWith(files[i].key, suffix)
  {
    if files == [] then None
    else if EndsWith(files[0].key, suffix) then Some(0)
    else
      var rest := FirstEndingWith(files[1..], suffix);
      if rest.Some? then Some(rest.value + 1) else None
  }

  /** `getVaultContent(filename)`: the content under "../vault/<filename>"
   *  when it is non-empty, otherwise the content of the first key ending
   *  with "/<filename>", otherwise `null`. */
  function GetVaultContent(files: seq<Entry>, filename: string): (r: Option<string>)
  {
    var direct := Lookup(files, "../vault/" + filename);
    if direct.Some? && direct.value != "" then direct
    else
      var found := FirstEndingWith(files, "/" + filename);
      if found.Some? then Lookup(files, files[found.value].key) else None
  }

  // ---------------------------------------------------------------------------
  // Properties

  /** The full key wins whenever it holds something. */
  lemma FullKeyFirst(files: seq<Entry>, filename: string, content: string)
    requires Entry("../vault/" + filename, content) in files
    requires forall i, j :: 0 <= i < j < |files| ==> files[i].key != files[j].key
    requires content != ""
    ensures GetVaultContent(files, filename) == Some(content)
  {
    LookupUnique(files, "../vault/" + filename, content);
  }

  /** With distinct keys, looking a key up gives the content stored with it. */
  lemma {:induction false} LookupUnique(files: seq<Entry>, key: string, content: string)
    requires Entry(key, content) in files
    requires forall i, j :: 0 <= i < j < |files| ==> files[i].key != files[j].key
    ensures Lookup(files, key) == Some(content)
  {
    if files[0] != Entry(key, content) {
      assert files[0].key != key by {
        var k :| 0 <= k < |files| && files[k] == Entry(key, content);
        assert k != 0;
      }
      LookupUnique(files[1..], key, content);
    }
  }

  /** Otherwise the first key ending with "/<filename>" is used, even when
   *  its content is empty. */
  lemma SuffixFallback(files: seq<Entry>, filename: string, k: nat)
    requires Lookup(files, "../vault/" + filename) in {None, Some("")}
    requires k < |files| && EndsWith(files[k].key, "/" + filename)
    requires forall i :: 0 <= i < k ==> !EndsWith(files[i].key, "/" + filename)
    requires forall i, j :: 0 <= i < j < |files| ==> files[i].key != files[j].key
    ensures GetVaultContent(files, filename) == Some(files[k].content)
  {
    LookupUnique(files, files[k].key, files[k].content);
  }

  /** `null` exactly when no key ends with "/<filename>"; the full key
   *  "../vault/<filename>" is one of those, so it never escapes the scan. */
  lemma NotFoundExactly(files: seq<Entry>, filename: string)
    ensures GetVaultContent(files, filename).None?
      <==> forall i :: 0 <= i < |files| ==> !EndsWith(files[i].key, "/" + filename)
  {
    var full := "../vault/" + filename;
    var suffix := "/" + filename;
    assert full[|full| - |suffix|..] == suffix;
    var direct := Lookup(files, full);
    if direct.Some? && direct.value != "" {
      var i :| 0 <= i < |files| && files[i] == Entry(full, direct.value);
      assert EndsWith(files[i].key, suffix);
    }
  }
}
