/** The state store's key-to-file mapping: a key is made safe for a file name
    by replacing both path separators with "_", and the state for that key is
    kept in "<safe key>.json" inside the data directory. */
module Persistence {
  import opened Text

  /** A file path: the directory and the file name inside it. */
  datatype FilePath = FilePath(directory: string, fileName: string)

  predicate IsSeparator(c: char)
  {
    c == '/' || c == '\\'
  }

  /** `key.replace("/", "_").replace("\\", "_")`: the key with every separator
      turned into "_" and every other character kept. */
  function SafeKey(key: string): (r: string)
    ensures |r| == |key|
    ensures forall i :: 0 <= i < |key| ==> r[i] == (if IsSeparator(key[i]) then '_' else key[i])
    ensures '/' !in r && '\\' !in r
  {
    Replace(Replace(key, '/', '_'), '\\', '_')
  }

  /** `_get_path`: the key's file inside the data directory. */
  function GetPath(dataDir: string, key: string): (r: FilePath)
    ensures r.directory == dataDir
    ensures EndsWith(r.fileName, ".json") && r.fileName[..|r.fileName| - 5] == SafeKey(key)
  {
    FilePath(dataDir, SafeKey(key) + ".json")
  }

  /** A key without separators names its own file. */
  lemma PlainKeyUnchanged(dataDir: string, key: string)
    requires '/' !in key && '\\' !in key
    ensures GetPath(dataDir, key) == FilePath(dataDir, key + ".json")
  {
    assert SafeKey(key) == key;
  }

  /** Making a key safe twice is the same as once. */
  lemma SafeKeyIdempotent(key: string)
    ensures SafeKey(SafeKey(key)) == SafeKey(key)
  {
    PlainKeyUnchanged("", SafeKey(key));
  }

  /** Two keys share a file exactly when they have the same length and agree
      at every position where either holds something other than a separator
      or "_". */
  lemma SameFileIff(dataDir: string, a: string, b: string)
    ensures GetPath(dataDir, a) == GetPath(dataDir, b) <==>
      |a| == |b| && forall i :: 0 <= i < |a| ==>
        a[i] == b[i] || ((IsSeparator(a[i]) || a[i] == '_') && (IsSeparator(b[i]) || b[i] == '_'))
  {
    var sa, sb := SafeKey(a), SafeKey(b);
    if GetPath(dataDir, a) == GetPath(dataDir, b) {
      assert (sa + ".json")[..|sa|] == sa;
      assert (sb + ".json")[..|sb|] == sb;
      forall i | 0 <= i < |a|
        ensures a[i] == b[i] || ((IsSeparator(a[i]) || a[i] == '_') && (IsSeparator(b[i]) || b[i] == '_'))
      {
        assert sa[i] == sb[i];
      }
    }
    if |a| == |b| && forall i :: 0 <= i < |a| ==>
        a[i] == b[i] || ((IsSeparator(a[i]) || a[i] == '_') && (IsSeparator(b[i]) || b[i] == '_')) {
      assert sa == sb;
    }
  }

  /** Distinct keys can share a file: "a/b", "a\\b" and "a_b" all do. */
  lemma KeysCollide(dataDir: string)
    ensures "a/b" != "a_b" && GetPath(dataDir, "a/b") == GetPath(dataDir, "a_b")
    ensures GetPath(dataDir, "a\\b") == GetPath(dataDir, "a_b")
  {
    SameFileIff(dataDir, "a/b", "a_b");
    SameFileIff(dataDir, "a\\b", "a_b");
  }
}
