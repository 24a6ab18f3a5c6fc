/** `ValueOfKeysStartingWithA` and `ValueOfKeysStartingWith`
    (src/examples/20.ts): the union of the values of an object type's
    entries whose key matches a template literal `p${string}`, here a finite
    map from keys to the (string literal) types of their values. */
module KeysStartingWith {

  /** The object type `Obj`. */
  const Obj: map<string, string> := map[
    "a" := "a", "a2" := "a2", "a3" := "hello",
    "b" := "b", "b1" := "b1", "b2" := "b2"]

  /** The key matches `${prefix}${string}`; the suffix may be empty. */
  predicate MatchesPrefix(prefix: string, key: string) {
    prefix <= key
  }

  /** `Extract<keys, `${prefix}${string}`>` */
  function ExtractPrefixed(keys: set<string>, prefix: string): (r: set<string>)
    ensures r <= keys
    ensures forall k :: k in r <==> k in keys && MatchesPrefix(prefix, k)
  {
    set k | k in keys && MatchesPrefix(prefix, k)
  }

  /** `{ [K in Extract<keyof T, `a${string}`>]: T[K] }[Extract<keyof T, `a${string}`>]` */
  function ValueOfKeysStartingWithA<V>(t: map<string, V>): (r: set<V>)
    ensures forall k :: k in t && MatchesPrefix("a", k) ==> t[k] in r
    ensures forall v :: v in r ==> exists k :: k in t && MatchesPrefix("a", k) && t[k] == v
  {
    set k | k in t && MatchesPrefix("a", k) :: t[k]
  }

  /** The generic form: `{ [K in Keys]: T[K] }[Keys]` for `Keys extends keyof T`. */
  function ValueOfKeysStartingWith<V>(t: map<string, V>, extracted: set<string>): (r: set<V>)
    requires extracted <= t.Keys
    ensures forall k :: k in extracted ==> t[k] in r
    ensures forall v :: v in r ==> exists k :: k in extracted && t[k] == v
  {
    set k | k in extracted :: t[k]
  }

  /** The default of the second type parameter: `Extract<keyof T, `a${string}`>`. */
  function DefaultKeys<V>(t: map<string, V>): set<string> {
    ExtractPrefixed(t.Keys, "a")
  }

  /** The generic form with its default keys agrees with the specialised one. */
  lemma GenericDefaultAgrees<V>(t: map<string, V>)
    ensures ValueOfKeysStartingWith(t, DefaultKeys(t)) == ValueOfKeysStartingWithA(t)
  {
  }

  /** A value is selected exactly when some matching key maps to it; so the value
      of a key that does not match is selected only if a matching key shares it. */
  lemma SelectedExactly<V>(t: map<string, V>, k: string)
    requires k in t
    ensures t[k] in ValueOfKeysStartingWithA(t) <==>
      MatchesPrefix("a", k) || exists j :: j in t && MatchesPrefix("a", j) && t[j] == t[k]
  {
  }

  /** `ValueOfKeysStartingWithA<Obj>` and `ValueOfKeysStartingWith<Obj>` are
      `"a" | "a2" | "hello"`; the key `"a"` matches with an empty suffix. */
  lemma AUnion()
    ensures ValueOfKeysStartingWithA(Obj) == {"a", "a2", "hello"}
    ensures ValueOfKeysStartingWith(Obj, DefaultKeys(Obj)) == {"a", "a2", "hello"}
  {
    ObjKeysByPrefix();
    GenericDefaultAgrees(Obj);
  }

  /** `ValueOfKeysStartingWith<Obj, Extract<keyof Obj, `b${string}`>>` is `"b" | "b1" | "b2"`. */
  lemma BUnion()
    ensures ValueOfKeysStartingWith(Obj, ExtractPrefixed(Obj.Keys, "b")) == {"b", "b1", "b2"}
  {
    ObjKeysByPrefix();
  }

  /** Which keys of `Obj` match the prefix `a`, and which `b`. */
  lemma ObjKeysByPrefix()
    ensures ExtractPrefixed(Obj.Keys, "a") == {"a", "a2", "a3"}
    ensures ExtractPrefixed(Obj.Keys, "b") == {"b", "b1", "b2"}
  {
    assert Obj.Keys == {"a", "a2", "a3", "b", "b1", "b2"};
    forall k | k in Obj.Keys
      ensures MatchesPrefix("a", k) <==> k[0] == 'a'
      ensures MatchesPrefix("b", k) <==> k[0] == 'b'
    {
      assert |k| >= 1 && k[..1] == [k[0]];
    }
  }
}
