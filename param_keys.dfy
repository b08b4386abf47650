/** Parameter paths of a checkpoint: the test that routes a key to the
    backbone, Python's `key.split('.', 1)` and the inverse join. */
module ParamKeys {
  import opened Results

  /** Attribute name of the backbone (the body muxer) inside the detection model. */
  const BODY_MODULE: string := "Conv_Body"

  predicate StartsWith(s: string, prefix: string) {
    |prefix| <= |s| && s[..|prefix|] == prefix
  }

  /** `key.startswith('Conv_Body')`: a raw prefix test, not a test on the first segment. */
  predicate IsBodyKey(key: string) {
    StartsWith(key, BODY_MODULE)
  }

  /** Index of the first '.' of `s`, if any. */
  function FirstDot(s: string): (r: Option<nat>)
    ensures r.Some? ==> r.value < |s| && s[r.value] == '.' && '.' !in s[..r.value]
    ensures r.None? ==> '.' !in s
  {
    if |s| == 0 then None
    else if s[0] == '.' then Some(0)
    else match FirstDot(s[1..])
      case None => None
      case Some(i) =>
        assert s[..i + 1] == [s[0]] + s[1..][..i];
        Some(i + 1)
  }

  /** The path `child.childKey`. */
  function Join(child: string, childKey: string): string {
    child + "." + childKey
  }

  /** `child, child_key = key.split('.', 1)`: None when the key has no '.', where
      the two-way unpack raises. */
  function SplitChild(key: string): (r: Option<(string, string)>)
    ensures r.Some? <==> '.' in key
    ensures r.Some? ==> '.' !in r.value.0 && Join(r.value.0, r.value.1) == key
  {
    match FirstDot(key)
    case None => None
    case Some(i) =>
      assert key == key[..i] + "." + key[i + 1..];
      Some((key[..i], key[i + 1..]))
  }

  /** `key.split('.', 1)[-1]`: everything after the first '.', or the whole key. */
  function BodySubKey(key: string): (r: string)
    ensures '.' in key ==> Join(SplitChild(key).value.0, r) == key
    ensures '.' !in key ==> r == key
  {
    match SplitChild(key)
    case None => key
    case Some((_, childKey)) => childKey
  }

  /** Splitting a joined path gives back its two parts when the child name has no '.'. */
  lemma SplitJoin(child: string, childKey: string)
    requires '.' !in child
    ensures SplitChild(Join(child, childKey)) == Some((child, childKey))
  {
    var key := Join(child, childKey);
    assert key[|child|] == '.';
    assert key[..|child|] == child;
    assert key[|child| + 1..] == childKey;
  }

  /** Two (child, childKey) pairs with dot-free child names join to different paths. */
  lemma JoinInjective(c1: string, k1: string, c2: string, k2: string)
    requires '.' !in c1 && '.' !in c2
    requires Join(c1, k1) == Join(c2, k2)
    ensures c1 == c2 && k1 == k2
  {
    SplitJoin(c1, k1);
    SplitJoin(c2, k2);
  }

  /** The split at the first '.' is injective: different dotted keys split differently. */
  lemma SplitInjective(k1: string, k2: string)
    requires SplitChild(k1).Some? && SplitChild(k1) == SplitChild(k2)
    ensures k1 == k2
  {
  }

  /** A head key never names the backbone: its child name does not even start
      with `Conv_Body`, so `model._modules[child]` never reaches the body muxer. */
  lemma HeadChildIsNotBody(key: string)
    requires !IsBodyKey(key) && '.' in key
    ensures !StartsWith(SplitChild(key).value.0, BODY_MODULE)
    ensures SplitChild(key).value.0 != BODY_MODULE
  {
    var child := SplitChild(key).value.0;
    assert key == child + "." + SplitChild(key).value.1;
  }

  /** For keys whose first segment is exactly `Conv_Body`, the body sub-key is
      injective: stripping the segment loses nothing. */
  lemma BodySubKeyInjective(k1: string, k2: string)
    requires StartsWith(k1, BODY_MODULE + ".") && StartsWith(k2, BODY_MODULE + ".")
    requires BodySubKey(k1) == BodySubKey(k2)
    ensures k1 == k2
  {
    SplitJoin(BODY_MODULE, k1[|BODY_MODULE| + 1..]);
    SplitJoin(BODY_MODULE, k2[|BODY_MODULE| + 1..]);
    assert k1 == Join(BODY_MODULE, k1[|BODY_MODULE| + 1..]);
    assert k2 == Join(BODY_MODULE, k2[|BODY_MODULE| + 1..]);
  }

  /** `Conv_Body` itself contains no '.'. */
  lemma BodyModuleIsDotFree()
    ensures '.' !in BODY_MODULE
  {
  }

  /** The raw prefix test also routes `Conv_Body<extra>.<subKey>` to the
      backbone, for any dot-free `extra`, and strips the whole first segment:
      such a key lands on the same sub-key as `Conv_Body.<subKey>`. */
  lemma PrefixTestCollision(extra: string, subKey: string)
    requires '.' !in extra
    ensures IsBodyKey(BODY_MODULE + extra + "." + subKey)
    ensures BodySubKey(BODY_MODULE + extra + "." + subKey) == BodySubKey(BODY_MODULE + "." + subKey) == subKey
  {
    BodyModuleIsDotFree();
    var key := BODY_MODULE + extra + "." + subKey;
    assert key[..|BODY_MODULE|] == BODY_MODULE;
    assert '.' !in BODY_MODULE + extra;
    SplitJoin(BODY_MODULE + extra, subKey);
    SplitJoin(BODY_MODULE, subKey);
  }
}
