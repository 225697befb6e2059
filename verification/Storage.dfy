/** The texts under which objects are stored (tasks/storage.py). The rest of the model identifies an
    object with what its key is built from; that is justified here. */
module Storage {
  import opened Rows

  const PAYLOAD_PREFIX: string := "payloads"
  const RESULT_PREFIX: string := "results"
  const CACHE_PREFIX: string := "cache"

  function KeyText(k: ObjKey): string {
    match k
    case PayloadObj(t) => PAYLOAD_PREFIX + "/" + t + ".bin"
    case ResultObj(t) => RESULT_PREFIX + "/" + t + ".zip"
    case CacheObj(key, generation) => CACHE_PREFIX + "/" + key + "/" + generation
  }

  /** Generations are drawn as short hexadecimal ids. */
  predicate DrawnGeneration(k: ObjKey) {
    k.CacheObj? ==> '/' !in k.generation
  }

  lemma CutEqual(prefix: string, a: string, suffix: string, b: string)
    requires prefix + a + suffix == prefix + b + suffix
    ensures a == b
  {
    var s, t := prefix + a + suffix, prefix + b + suffix;
    assert |s| == |t|;
    assert a == s[|prefix|..|prefix| + |a|];
    assert b == t[|prefix|..|prefix| + |b|];
  }

  lemma NoSlashAfter(k: string, g: string)
    requires '/' !in g
    ensures forall i | |k| < i < |k + "/" + g| :: (k + "/" + g)[i] != '/'
  {
    forall i | |k| < i < |k + "/" + g|
      ensures (k + "/" + g)[i] != '/'
    {
      assert (k + "/" + g)[i] == g[i - |k| - 1];
    }
  }

  lemma LastSlashSplits(k1: string, g1: string, k2: string, g2: string)
    requires k1 + "/" + g1 == k2 + "/" + g2 && '/' !in g1 && '/' !in g2
    ensures k1 == k2 && g1 == g2
  {
    var s, t := k1 + "/" + g1, k2 + "/" + g2;
    assert s[|k1|] == '/' && t[|k2|] == '/';
    NoSlashAfter(k1, g1);
    NoSlashAfter(k2, g2);
    assert k1 == s[..|k1|] && k2 == t[..|k2|];
    assert g1 == s[|k1| + 1..] && g2 == t[|k2| + 1..];
  }

  /** Different objects have different keys: no task's payload, result or cache object overwrites, or is
      deleted as, another's. */
  lemma KeysAreDistinct(a: ObjKey, b: ObjKey)
    requires DrawnGeneration(a) && DrawnGeneration(b)
    ensures KeyText(a) == KeyText(b) <==> a == b
  {
    if KeyText(a) == KeyText(b) {
      assert KeyText(a)[0] == if a.PayloadObj? then 'p' else if a.ResultObj? then 'r' else 'c';
      assert KeyText(b)[0] == if b.PayloadObj? then 'p' else if b.ResultObj? then 'r' else 'c';
      match a
      case PayloadObj(t) => CutEqual(PAYLOAD_PREFIX + "/", t, ".bin", b.task);
      case ResultObj(t) => CutEqual(RESULT_PREFIX + "/", t, ".zip", b.task);
      case CacheObj(key, generation) =>
        var p := CACHE_PREFIX + "/";
        assert KeyText(a) == p + (key + "/" + generation);
        assert KeyText(b) == p + (b.cacheKey + "/" + b.generation);
        assert KeyText(a)[|p|..] == key + "/" + generation;
        assert KeyText(b)[|p|..] == b.cacheKey + "/" + b.generation;
        LastSlashSplits(key, generation, b.cacheKey, b.generation);
    }
  }

  // ---------- every key that is built ----------

  /** The arguments of the key builders; a cache key without a generation is built for none or an empty one. */
  datatype BuiltKey =
    | PayloadKey(task: string)
    | ResultKey(task: string, json: bool)
    | CacheEntryKey(digest: string, generation: string)

  function Suffixed(a: string, x: string): string {
    a + if x == "" then "" else "/" + x
  }

  function BuiltText(k: BuiltKey): string {
    match k
    case PayloadKey(t) => PAYLOAD_PREFIX + "/" + t + ".bin"
    case ResultKey(t, json) => RESULT_PREFIX + "/" + t + if json then ".json" else ".zip"
    case CacheEntryKey(digest, generation) => CACHE_PREFIX + "/" + Suffixed(digest, generation)
  }

  /** Digests and generations are hexadecimal. */
  predicate Hexadecimal(k: BuiltKey) {
    k.CacheEntryKey? ==> '/' !in k.digest && '/' !in k.generation
  }

  /** Where the first slash is, if there is one. */
  lemma FirstSlashAt(a: string, x: string, i: nat)
    requires '/' !in a && i < |Suffixed(a, x)|
    ensures i < |a| ==> Suffixed(a, x)[i] != '/'
    ensures i == |a| ==> Suffixed(a, x)[i] == '/'
  {
    if i < |a| {
      assert Suffixed(a, x)[i] == a[i];
    }
  }

  lemma NotShorter(a: string, x: string, b: string, y: string)
    requires '/' !in a && '/' !in b && Suffixed(a, x) == Suffixed(b, y)
    ensures |b| <= |a|
  {
    if |a| < |Suffixed(a, x)| {
      FirstSlashAt(a, x, |a|);
      FirstSlashAt(b, y, |a|);
    }
  }

  lemma FirstSlashSplits(a: string, x: string, b: string, y: string)
    requires '/' !in a && '/' !in b && Suffixed(a, x) == Suffixed(b, y)
    ensures a == b && x == y
  {
    NotShorter(a, x, b, y);
    NotShorter(b, y, a, x);
    var s, t := Suffixed(a, x), Suffixed(b, y);
    assert a == s[..|a|] && b == t[..|a|];
    assert s[|a|..] == t[|a|..];
    if x != "" {
      assert x == s[|a| + 1..];
    }
    if y != "" {
      assert y == t[|a| + 1..];
    }
  }

  lemma ResultSplits(t: string, x: bool, u: string, y: bool)
    requires BuiltText(ResultKey(t, x)) == BuiltText(ResultKey(u, y))
    ensures t == u && x == y
  {
    var p := RESULT_PREFIX + "/";
    var a, b := if x then ".json" else ".zip", if y then ".json" else ".zip";
    var s, s' := BuiltText(ResultKey(t, x)), BuiltText(ResultKey(u, y));
    assert s[|s| - 1] == a[|a| - 1] && s'[|s'| - 1] == b[|b| - 1];
    CutEqual(p, t, a, u);
  }

  /** The builders give different texts for different arguments: zipped and JSON results, and cache objects
      with and without a generation, included. */
  lemma TextsAreDistinct(a: BuiltKey, b: BuiltKey)
    requires Hexadecimal(a) && Hexadecimal(b)
    ensures BuiltText(a) == BuiltText(b) <==> a == b
  {
    if BuiltText(a) == BuiltText(b) {
      assert BuiltText(a)[0] == if a.PayloadKey? then 'p' else if a.ResultKey? then 'r' else 'c';
      assert BuiltText(b)[0] == if b.PayloadKey? then 'p' else if b.ResultKey? then 'r' else 'c';
      match a
      case PayloadKey(t) => CutEqual(PAYLOAD_PREFIX + "/", t, ".bin", b.task);
      case ResultKey(t, json) => ResultSplits(t, json, b.task, b.json);
      case CacheEntryKey(digest, generation) =>
        var p := CACHE_PREFIX + "/";
        assert BuiltText(a)[|p|..] == Suffixed(digest, generation);
        assert BuiltText(b)[|p|..] == Suffixed(b.digest, b.generation);
        FirstSlashSplits(digest, generation, b.digest, b.generation);
    }
  }
}
