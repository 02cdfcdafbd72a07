/**
 * The slice of JavaScript value semantics the charity site's code relies on:
 * optional fields, truthiness and `x || default`, and plain objects whose keys
 * keep insertion order. That is the order `{...a, k: v}` and JSON.stringify
 * follow for property names that are not array indices, which are the only
 * names the site's forms and payloads use.
 */
module Js {

  datatype Option<+T> = None | Some(value: T)

  /** The end of a call that may throw: a returned value, or the thrown error's text. */
  datatype Result<+T> = Returned(value: T) | Raised(message: string)

  /**
   * A field value as the forms hand it over: a string, or an array of strings
   * (a group of checkboxes such as the volunteer's help types).
   */
  datatype Value = Str(s: string) | Arr(items: seq<string>)

  /** JavaScript truthiness: the empty string is falsy, every array (even `[]`) is truthy. */
  predicate Truthy(v: Value) {
    match v
    case Str(s) => s != ""
    case Arr(_) => true
  }

  /** `x || d` for a field `x` that may be undefined. */
  function Or(x: Option<Value>, d: Value): (r: Value)
    ensures x.Some? && Truthy(x.value) ==> r == x.value
    ensures (x.None? || !Truthy(x.value)) ==> r == d
    ensures r == d <==> x.None? || !Truthy(x.value) || x.value == d
  {
    if x.Some? && Truthy(x.value) then x.value else d
  }

  /** `x || d` for a string setting that may be undefined (used for configuration values). */
  function OrText(x: Option<string>, d: string): (r: string)
    ensures x.Some? && x.value != "" ==> r == x.value
    ensures (x.None? || x.value == "") ==> r == d
  {
    if x.Some? && x.value != "" then x.value else d
  }

  /**
   * A plain JavaScript object: its own properties in insertion order. Names
   * that look like array indices (`"0"`, `"17"`), which JavaScript lists first
   * in numeric order, are outside this model.
   */
  type Obj = seq<(string, Value)>

  function Keys(o: Obj): (ks: seq<string>)
    ensures |ks| == |o|
    ensures forall i :: 0 <= i < |o| ==> ks[i] == o[i].0
  {
    if o == [] then [] else [o[0].0] + Keys(o[1..])
  }

  /** What every object built by JavaScript satisfies: no property name occurs twice. */
  predicate UniqueKeys(o: Obj) {
    forall i, j :: 0 <= i < j < |o| ==> o[i].0 != o[j].0
  }

  /** Property lookup `o[k]`; `None` stands for `undefined`. */
  function Get(o: Obj, k: string): (r: Option<Value>)
    ensures r.Some? <==> k in Keys(o)
    ensures r.Some? ==> (k, r.value) in o
  {
    if o == [] then None
    else if o[0].0 == k then Some(o[0].1)
    else Get(o[1..], k)
  }

  /**
   * Property assignment `o[k] = v`: an existing property keeps its position and
   * gets the new value; a new one goes at the end.
   */
  function Put(o: Obj, k: string, v: Value): (r: Obj)
    ensures |r| == if k in Keys(o) then |o| else |o| + 1
  {
    if o == [] then [(k, v)]
    else if o[0].0 == k then [(k, v)] + o[1..]
    else [o[0]] + Put(o[1..], k, v)
  }

  lemma TailUnique(o: Obj)
    requires UniqueKeys(o) && o != []
    ensures UniqueKeys(o[1..]) && o[0].0 !in Keys(o[1..])
  {
    forall a, b | 0 <= a < b < |o[1..]| ensures o[1..][a].0 != o[1..][b].0 {
      assert o[1..][a] == o[a + 1] && o[1..][b] == o[b + 1];
    }
    forall i | 0 <= i < |o[1..]| ensures Keys(o[1..])[i] != o[0].0 {
      assert o[1..][i] == o[i + 1];
    }
  }

  /** Assignment keeps the key order, appends a new key, and keeps the keys unique. */
  lemma {:induction false} PutKeys(o: Obj, k: string, v: Value)
    requires UniqueKeys(o)
    ensures Keys(Put(o, k, v)) == if k in Keys(o) then Keys(o) else Keys(o) + [k]
    ensures UniqueKeys(Put(o, k, v))
  {
    if o != [] {
      TailUnique(o);
      var r := Put(o, k, v);
      if o[0].0 != k {
        PutKeys(o[1..], k, v);
        assert r[1..] == Put(o[1..], k, v);
        assert Keys(r) == [o[0].0] + Keys(r[1..]);
        assert k in Keys(o) <==> k in Keys(o[1..]);
      } else {
        assert r[1..] == o[1..];
        assert Keys(r) == [k] + Keys(o[1..]);
      }
    }
  }

  /** After `o[k] = v`, property `k` reads `v` and every other property reads as before. */
  lemma {:induction false} PutGet(o: Obj, k: string, v: Value, j: string)
    ensures Get(Put(o, k, v), j) == if j == k then Some(v) else Get(o, j)
  {
    if o != [] && o[0].0 != k {
      PutGet(o[1..], k, v, j);
      assert Put(o, k, v)[1..] == Put(o[1..], k, v);
    } else if o != [] {
      assert Put(o, k, v)[1..] == o[1..];
    }
  }

  /** The keys of `ks` that are not in `seen`, in their order. */
  function Novel(ks: seq<string>, seen: seq<string>): (r: seq<string>)
    ensures forall k :: k in r <==> k in ks && k !in seen
  {
    if ks == [] then []
    else if ks[0] in seen then Novel(ks[1..], seen)
    else [ks[0]] + Novel(ks[1..], seen)
  }

  /** Two filters agree when the seen-lists differ only in keys that do not occur. */
  lemma {:induction false} NovelIgnoresAbsent(ks: seq<string>, seen: seq<string>, extra: string)
    requires extra !in ks
    ensures Novel(ks, seen + [extra]) == Novel(ks, seen)
  {
    if ks != [] {
      assert ks[0] != extra;
      assert ks[0] in seen + [extra] <==> ks[0] in seen;
      NovelIgnoresAbsent(ks[1..], seen, extra);
    }
  }

  /** The object spread `{...o, ...src}`: copy `src`'s properties into `o` in order. */
  function Spread(o: Obj, src: Obj): (r: Obj)
    decreases |src|
  {
    if src == [] then o else Spread(Put(o, src[0].0, src[0].1), src[1..])
  }

  /**
   * Spread keeps `o`'s keys where they are and appends `src`'s new keys in
   * `src`'s order, and the result has no duplicate keys.
   */
  lemma {:induction false} SpreadKeys(o: Obj, src: Obj)
    requires UniqueKeys(o) && UniqueKeys(src)
    ensures UniqueKeys(Spread(o, src))
    ensures Keys(Spread(o, src)) == Keys(o) + Novel(Keys(src), Keys(o))
    decreases |src|
  {
    if src != [] {
      var k0, v0 := src[0].0, src[0].1;
      TailUnique(src);
      PutKeys(o, k0, v0);
      SpreadKeys(Put(o, k0, v0), src[1..]);
      assert Keys(src) == [k0] + Keys(src[1..]);
      if k0 in Keys(o) {
        assert Novel(Keys(src), Keys(o)) == Novel(Keys(src[1..]), Keys(o));
      } else {
        NovelIgnoresAbsent(Keys(src[1..]), Keys(o), k0);
        assert Novel(Keys(src), Keys(o)) == [k0] + Novel(Keys(src[1..]), Keys(o));
      }
    }
  }

  /** After spreading, a key of `src` has `src`'s value and any other key keeps `o`'s. */
  lemma {:induction false} SpreadGet(o: Obj, src: Obj, k: string)
    requires UniqueKeys(o) && UniqueKeys(src)
    ensures Get(Spread(o, src), k) == if k in Keys(src) then Get(src, k) else Get(o, k)
    decreases |src|
  {
    if src != [] {
      var k0, v0 := src[0].0, src[0].1;
      TailUnique(src);
      PutKeys(o, k0, v0);
      PutGet(o, k0, v0, k);
      SpreadGet(Put(o, k0, v0), src[1..], k);
      assert Keys(src) == [k0] + Keys(src[1..]);
    }
  }

  /** An object literal `{k1: f(k1), k2: f(k2), ...}` whose keys are listed in `keys`. */
  function Literal(keys: seq<string>, f: string -> Value): (o: Obj)
    ensures |o| == |keys|
  {
    if keys == [] then [] else [(keys[0], f(keys[0]))] + Literal(keys[1..], f)
  }

  predicate Distinct(keys: seq<string>) {
    forall i, j :: 0 <= i < j < |keys| ==> keys[i] != keys[j]
  }

  /** A literal has exactly the listed keys, in order, and each key reads the value given for it. */
  lemma {:induction false} LiteralFacts(keys: seq<string>, f: string -> Value)
    requires Distinct(keys)
    ensures Keys(Literal(keys, f)) == keys
    ensures UniqueKeys(Literal(keys, f))
    ensures forall k :: Get(Literal(keys, f), k) == if k in keys then Some(f(k)) else None
  {
    if keys != [] {
      var o := Literal(keys, f);
      assert Distinct(keys[1..]) by {
        forall a, b | 0 <= a < b < |keys[1..]| ensures keys[1..][a] != keys[1..][b] {
          assert keys[1..][a] == keys[a + 1] && keys[1..][b] == keys[b + 1];
        }
      }
      LiteralFacts(keys[1..], f);
      assert o[1..] == Literal(keys[1..], f);
      assert Keys(o) == [keys[0]] + keys[1..];
      forall i | 0 <= i < |keys[1..]| ensures keys[1..][i] != keys[0] {
        assert keys[1..][i] == keys[i + 1];
      }
      assert keys[0] !in keys[1..];
      forall a, b | 0 <= a < b < |o| ensures o[a].0 != o[b].0 {
        assert Keys(o)[a] == keys[a] && Keys(o)[b] == keys[b];
      }
      forall k ensures Get(o, k) == if k in keys then Some(f(k)) else None {
        assert k in keys <==> k == keys[0] || k in keys[1..];
      }
    }
  }
}
