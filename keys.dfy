/**
 * Work-queue keys. A claim is queued under "namespace/name" (just "name" when the
 * namespace is empty), a descriptor event under "namespace/name" always, and the
 * reconciler splits the key back at its slash.
 */
module Keys {

  /** Key of a namespaced object as the cache computes it. */
  function ObjectKey(namespace: string, name: string): (key: string)
    ensures namespace != "" ==> key == JoinKey(namespace, name)
    ensures namespace == "" ==> key == name
  {
    if namespace != "" then namespace + "/" + name else name
  }

  /** Key formatted as "%s/%s", whatever the namespace. */
  function JoinKey(namespace: string, name: string): (key: string)
    ensures |key| == |namespace| + 1 + |name| && key[|namespace|] == '/'
  {
    namespace + "/" + name
  }

  /** Position of the first slash. */
  function FirstSlash(s: string): (i: nat)
    requires '/' in s
    ensures i < |s| && s[i] == '/' && '/' !in s[..i]
  {
    if s[0] == '/' then 0
    else
      var j := FirstSlash(s[1..]);
      assert s[1..][..j] == s[1..j + 1];
      assert s[..j + 1] == [s[0]] + s[1..j + 1];
      j + 1
  }

  /**
   * Splits a key into (namespace, name): a key without slash is a bare name, a key
   * with one slash is split there, and a key with more slashes is malformed and
   * yields ("", "") -- the reconciler ignores the error and goes on with those.
   */
  function SplitKey(key: string): (parts: (string, string))
    ensures '/' !in parts.0 && '/' !in parts.1
    ensures '/' !in key ==> parts == ("", key)
    ensures '/' in key ==> parts == ("", "") || key == parts.0 + "/" + parts.1
  {
    if '/' !in key then ("", key)
    else
      var i := FirstSlash(key);
      assert key == key[..i] + "/" + key[i + 1..];
      if '/' in key[i + 1..] then ("", "") else (key[..i], key[i + 1..])
  }

  /** Splitting a joined key gives back its parts when neither holds a slash. */
  lemma SplitJoin(namespace: string, name: string)
    requires '/' !in namespace && '/' !in name
    ensures SplitKey(JoinKey(namespace, name)) == (namespace, name)
  {
    var key := JoinKey(namespace, name);
    assert key[|namespace|] == '/';
    var i := FirstSlash(key);
    assert i == |namespace|;
    assert key[..i] == namespace;
    assert key[i + 1..] == name;
  }

  /** The key the cache gives an object splits back into its namespace and name. */
  lemma SplitObjectKey(namespace: string, name: string)
    requires '/' !in namespace && '/' !in name
    ensures SplitKey(ObjectKey(namespace, name)) == (namespace, name)
  {
    if namespace != "" {
      SplitJoin(namespace, name);
    }
  }

  /** A key with two slashes is malformed and splits into two empty parts. */
  lemma SplitMalformed(a: string, b: string, c: string)
    requires '/' !in a
    ensures SplitKey(a + "/" + b + "/" + c) == ("", "")
  {
    var key := a + "/" + b + "/" + c;
    assert key[|a|] == '/';
    var i := FirstSlash(key);
    assert i == |a|;
    assert key[i + 1..][|b|] == '/';
  }
}
