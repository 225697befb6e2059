/** What a request's cache key is computed from (scheduler/cache_service.py). The SHA-256 digests are
    taken to be collision free, so the key is identified with the text that is hashed. */
module CacheKey {
  import opened Wrappers
  import opened Strings
  import opened Json

  type Record = (string, string)
  type Field = (string, string)

  datatype OptionValue = One(value: string) | Many(values: seq<string>)

  const LANG_LIST: string := "lang_list"

  // ---------- what the options mean ----------

  /** The value a field keeps: its last one. */
  function LastValue(fields: seq<Field>, name: string): Option<string> {
    if fields == [] then None
    else if fields[|fields| - 1].0 == name then Some(fields[|fields| - 1].1)
    else LastValue(fields[..|fields| - 1], name)
  }

  /** All values of the repeated field, in order. */
  function Languages(fields: seq<Field>): seq<string> {
    if fields == [] then []
    else
      var last := fields[|fields| - 1];
      Languages(fields[..|fields| - 1]) + if last.0 == LANG_LIST then [last.1] else []
  }

  function Names(fields: seq<Field>): set<string> {
    set f <- fields :: f.0
  }

  lemma {:induction false} NamedFieldsHaveValues(fields: seq<Field>, name: string)
    ensures name in Names(fields) <==> LastValue(fields, name).Some?
    ensures LANG_LIST in Names(fields) <==> Languages(fields) != []
  {
    if fields != [] {
      var n := |fields| - 1;
      NamedFieldsHaveValues(fields[..n], name);
      assert fields == fields[..n] + [fields[n]];
      assert Names(fields) == Names(fields[..n]) + {fields[n].0};
    }
  }

  function CacheOptions(fields: seq<Field>): map<string, OptionValue> {
    map name | name in Names(fields) ::
      if name == LANG_LIST then Many(Sort(Languages(fields))) else One(LastValue(fields, name).GetOr(""))
  }

  /** What the loop has collected from the fields it has seen: the languages are not sorted yet. */
  ghost predicate Collected(fields: seq<Field>, options: map<string, OptionValue>) {
    && options.Keys == Names(fields)
    && (forall name <- options :: name != LANG_LIST ==> options[name] == One(LastValue(fields, name).GetOr("")))
    && (LANG_LIST in options ==> options[LANG_LIST] == Many(Languages(fields)))
    && (LANG_LIST !in options ==> Languages(fields) == [])
  }

  lemma OneMoreField(fields: seq<Field>, f: Field, name: string)
    ensures LastValue(fields + [f], name) == if f.0 == name then Some(f.1) else LastValue(fields, name)
    ensures Languages(fields + [f]) == Languages(fields) + if f.0 == LANG_LIST then [f.1] else []
    ensures Names(fields + [f]) == Names(fields) + {f.0}
  {
    assert (fields + [f])[..|fields|] == fields;
  }

  lemma CollectedOneMore(fields: seq<Field>, f: Field, options: map<string, OptionValue>)
    requires Collected(fields, options)
    ensures f.0 != LANG_LIST ==> Collected(fields + [f], options[f.0 := One(f.1)])
    ensures f.0 == LANG_LIST ==> Collected(fields + [f], options[f.0 := Many(Languages(fields) + [f.1])])
  {
    hide LastValue, Languages, Names;
    OneMoreField(fields, f, f.0);
    forall name | name in options
      ensures LastValue(fields + [f], name) == if f.0 == name then Some(f.1) else LastValue(fields, name)
    {
      OneMoreField(fields, f, name);
    }
  }

  /** `build_cache_options_from_payload`. */
  method BuildCacheOptions(fields: seq<Field>) returns (options: map<string, OptionValue>)
    ensures options == CacheOptions(fields)
  {
    hide CacheOptions, Names, LastValue;
    options := map[];
    NothingCollected();
    for i := 0 to |fields|
      invariant Collected(fields[..i], options)
    {
      var (name, value) := fields[i];
      var values := if name in options && options[name].Many? then options[name].values else [];
      assert name == LANG_LIST ==> values == Languages(fields[..i]);
      hide Collected;
      CollectedOneMore(fields[..i], fields[i], options);
      assert fields[..i + 1] == fields[..i] + [fields[i]];
      if name == LANG_LIST {
        options := options[name := Many(values + [value])];
      } else {
        options := options[name := One(value)];
      }
    }
    assert fields[..|fields|] == fields;
    SortedAtLast(fields, options);
    if LANG_LIST in options {
      options := options[LANG_LIST := Many(Sort(options[LANG_LIST].values))];
    }
  }

  lemma NothingCollected()
    ensures Collected([], map[])
  {
  }

  lemma SortedAtLast(fields: seq<Field>, options: map<string, OptionValue>)
    requires Collected(fields, options)
    ensures LANG_LIST in options ==>
              && options[LANG_LIST].Many?
              && options[LANG_LIST := Many(Sort(options[LANG_LIST].values))] == CacheOptions(fields)
    ensures LANG_LIST !in options ==> options == CacheOptions(fields)
  {
    hide Sort, Names, LastValue, Languages;
  }

  // ---------- the canonical text ----------

  ghost function AnyOrder(s: set<string>): (xs: seq<string>)
    ensures multiset(xs) == multiset(s)
  {
    if s == {} then []
    else
      var x :| x in s;
      assert s == {x} + (s - {x});
      [x] + AnyOrder(s - {x})
  }

  ghost function SortedKeys(s: set<string>): (xs: seq<string>)
    ensures forall x :: x in xs <==> x in s
  {
    var xs := Sort(AnyOrder(s));
    SortIsSorted(AnyOrder(s));
    assert forall x :: x in xs <==> x in multiset(xs);
    xs
  }

  function ValueJson(v: OptionValue): Json {
    match v
    case One(s) => JStr(s)
    case Many(vs) => JArr(StringsJson(vs))
  }

  function StringsJson(xs: seq<string>): seq<Json> {
    seq(|xs|, i requires 0 <= i < |xs| => JStr(xs[i]))
  }

  ghost function OptionsJson(options: map<string, OptionValue>): Json {
    var keys := SortedKeys(options.Keys);
    JObj(seq(|keys|, i requires 0 <= i < |keys| => (keys[i], ValueJson(options[keys[i]]))))
  }

  function RecordsJson(records: seq<Record>): Json {
    JArr(seq(|records|, i requires 0 <= i < |records| => JArr([JStr(records[i].0), JStr(records[i].1)])))
  }

  /** The text whose digest is the cache key. */
  ghost function KeyMaterial(records: seq<Record>, fields: seq<Field>): string {
    Print(COMPACT, RecordsJson(records)) + ("\n" + Print(SPACED, OptionsJson(CacheOptions(fields))))
  }

  /** The same effective scalar fields, and the same languages up to order. */
  ghost predicate SameOptions(f1: seq<Field>, f2: seq<Field>) {
    && (forall name | name != LANG_LIST :: LastValue(f1, name) == LastValue(f2, name))
    && multiset(Languages(f1)) == multiset(Languages(f2))
  }

  /** Two requests that must share a cache entry: the same contents under the same names in the same
      order, with the same options. */
  ghost predicate SameRequest(r1: seq<Record>, f1: seq<Field>, r2: seq<Record>, f2: seq<Field>) {
    r1 == r2 && SameOptions(f1, f2)
  }

  // ---------- proofs ----------

  lemma RecordsJsonInjective(r1: seq<Record>, r2: seq<Record>)
    requires RecordsJson(r1) == RecordsJson(r2)
    ensures r1 == r2
  {
    var j1, j2 := RecordsJson(r1).items, RecordsJson(r2).items;
    assert |j1| == |r1| && |j2| == |r2|;
    forall i | 0 <= i < |r1|
      ensures r1[i] == r2[i]
    {
      assert j1[i] == JArr([JStr(r1[i].0), JStr(r1[i].1)]);
      assert j2[i] == JArr([JStr(r2[i].0), JStr(r2[i].1)]);
      assert j1[i].items[0] == j2[i].items[0] && j1[i].items[1] == j2[i].items[1];
    }
  }

  lemma ValueJsonInjective(v1: OptionValue, v2: OptionValue)
    requires ValueJson(v1) == ValueJson(v2)
    ensures v1 == v2
  {
    if v1.Many? && v2.Many? {
      var a, b := StringsJson(v1.values), StringsJson(v2.values);
      assert a == b && |a| == |v1.values| && |b| == |v2.values|;
      forall i | 0 <= i < |a|
        ensures v1.values[i] == v2.values[i]
      {
        assert a[i] == JStr(v1.values[i]) && b[i] == JStr(v2.values[i]);
      }
    }
  }

  lemma OptionsJsonInjective(o1: map<string, OptionValue>, o2: map<string, OptionValue>)
    requires OptionsJson(o1) == OptionsJson(o2)
    ensures o1 == o2
  {
    var k1, k2 := SortedKeys(o1.Keys), SortedKeys(o2.Keys);
    var m1, m2 := OptionsJson(o1).members, OptionsJson(o2).members;
    assert |m1| == |k1| && |m2| == |k2|;
    forall i | 0 <= i < |k1|
      ensures k1[i] == k2[i] && o1[k1[i]] == o2[k2[i]]
    {
      assert m1[i] == (k1[i], ValueJson(o1[k1[i]]));
      assert m2[i] == (k2[i], ValueJson(o2[k2[i]]));
      ValueJsonInjective(o1[k1[i]], o2[k2[i]]);
    }
    assert k1 == k2;
    assert o1.Keys == o2.Keys;
    forall k | k in o1
      ensures o1[k] == o2[k]
    {
      var i :| 0 <= i < |k1| && k1[i] == k;
    }
  }

  lemma SortDependsOnContentsOnly(xs: seq<string>, ys: seq<string>)
    ensures Sort(xs) == Sort(ys) <==> multiset(xs) == multiset(ys)
  {
    SortIsSorted(xs);
    SortIsSorted(ys);
    if multiset(xs) == multiset(ys) {
      SortedIsUnique(Sort(xs), Sort(ys));
    }
  }

  lemma EqualOptionsMeanSame(f1: seq<Field>, f2: seq<Field>)
    requires CacheOptions(f1) == CacheOptions(f2)
    ensures SameOptions(f1, f2)
  {
    var o1, o2 := CacheOptions(f1), CacheOptions(f2);
    assert o1.Keys == Names(f1) && o2.Keys == Names(f2);
    forall name | name != LANG_LIST
      ensures LastValue(f1, name) == LastValue(f2, name)
    {
      NamedFieldsHaveValues(f1, name);
      NamedFieldsHaveValues(f2, name);
      if name in o1 {
        assert o1[name] == o2[name];
      }
    }
    SortDependsOnContentsOnly(Languages(f1), Languages(f2));
    NamedFieldsHaveValues(f1, LANG_LIST);
    NamedFieldsHaveValues(f2, LANG_LIST);
    if LANG_LIST in o1 {
      assert o1[LANG_LIST] == o2[LANG_LIST];
    }
  }

  lemma SameNames(f1: seq<Field>, f2: seq<Field>)
    requires SameOptions(f1, f2)
    ensures Names(f1) == Names(f2)
  {
    assert |Languages(f1)| == |multiset(Languages(f1))| == |multiset(Languages(f2))| == |Languages(f2)|;
    forall name
      ensures name in Names(f1) <==> name in Names(f2)
    {
      NamedFieldsHaveValues(f1, name);
      NamedFieldsHaveValues(f2, name);
    }
  }

  lemma SameMeansEqualOptions(f1: seq<Field>, f2: seq<Field>)
    requires SameOptions(f1, f2)
    ensures CacheOptions(f1) == CacheOptions(f2)
  {
    var o1, o2 := CacheOptions(f1), CacheOptions(f2);
    SameNames(f1, f2);
    SortDependsOnContentsOnly(Languages(f1), Languages(f2));
    assert o1.Keys == o2.Keys;
    forall name | name in o1
      ensures o1[name] == o2[name]
    {
    }
  }

  /** The key separates requests exactly: equal key material means the same request, and the same
      request always yields equal key material. */
  lemma SameKeyIffSameRequest(r1: seq<Record>, f1: seq<Field>, r2: seq<Record>, f2: seq<Field>)
    ensures KeyMaterial(r1, f1) == KeyMaterial(r2, f2) <==> SameRequest(r1, f1, r2, f2)
  {
    if SameRequest(r1, f1, r2, f2) {
      SameMeansEqualOptions(f1, f2);
    }
    if KeyMaterial(r1, f1) == KeyMaterial(r2, f2) {
      SameKeySameOptions(r1, CacheOptions(f1), r2, CacheOptions(f2));
      EqualOptionsMeanSame(f1, f2);
    }
  }

  lemma SameKeySameOptions(
      r1: seq<Record>, o1: map<string, OptionValue>, r2: seq<Record>, o2: map<string, OptionValue>)
    requires Print(COMPACT, RecordsJson(r1)) + ("\n" + Print(SPACED, OptionsJson(o1)))
             == Print(COMPACT, RecordsJson(r2)) + ("\n" + Print(SPACED, OptionsJson(o2)))
    ensures r1 == r2 && o1 == o2
  {
    var p1, p2 := Print(SPACED, OptionsJson(o1)), Print(SPACED, OptionsJson(o2));
    PrintIsPrefixFree(COMPACT, RecordsJson(r1), RecordsJson(r2), "\n" + p1, "\n" + p2);
    RecordsJsonInjective(r1, r2);
    assert ("\n" + p1)[1..] == p1 && ("\n" + p2)[1..] == p2;
    assert p1 + [] == p2 + [];
    PrintIsPrefixFree(SPACED, OptionsJson(o1), OptionsJson(o2), [], []);
    OptionsJsonInjective(o1, o2);
  }
}
