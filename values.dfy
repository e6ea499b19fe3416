/**
 * Resource records and the other JSON-like values the query layer handles.
 *
 * A Python dict is modelled as an ordered association list (`Record`), since
 * dict iteration order is observable (tag lists are built from `.items()`).
 * The value of a key is its last occurrence; `Set` overwrites every
 * occurrence in place or appends a new entry, as assignment into a dict does.
 * For dicts without repeated keys this is exactly Python's behaviour.
 */
module Values {
  import opened Common

  datatype Value =
    | Null                                 // None, and what `d.get(k)` gives for a missing key
    | Bool(b: bool)
    | Int(i: int)
    | Str(s: string)
    | List(items: seq<Value>)
    | Tuple(elems: seq<Value>)
    | Dict(fields: seq<(string, Value)>)

  type Record = seq<(string, Value)>

  function Init(r: Record): Record
    requires r != []
  {
    r[..|r| - 1]
  }

  function Last(r: Record): (string, Value)
    requires r != []
  {
    r[|r| - 1]
  }

  /** `k in d` */
  predicate Has(r: Record, k: string)
  {
    if r == [] then false else Last(r).0 == k || Has(Init(r), k)
  }

  /** `d.get(k)`: the value of the last entry for `k`, `None` when there is none. */
  function DictGet(r: Record, k: string): Value
  {
    if r == [] then Null
    else if Last(r).0 == k then Last(r).1
    else DictGet(Init(r), k)
  }

  /** Every entry for `k` gets the value `v`, in its place. */
  function Replace(r: Record, k: string, v: Value): (r': Record)
    ensures |r'| == |r|
  {
    if r == [] then []
    else Replace(Init(r), k, v) + [if Last(r).0 == k then (k, v) else Last(r)]
  }

  /** `d[k] = v` */
  function Set(r: Record, k: string, v: Value): Record
  {
    if Has(r, k) then Replace(r, k, v) else r + [(k, v)]
  }

  /** `del d[k]`: drops every entry for `k`. */
  function Remove(r: Record, k: string): Record
  {
    if r == [] then []
    else Remove(Init(r), k) + (if Last(r).0 == k then [] else [Last(r)])
  }

  /** `a.update(b)`, equivalently `{**a, **b}`: the entries of `b` assigned into `a` in order. */
  function Merge(a: Record, b: Record): Record
  {
    if b == [] then a else Set(Merge(a, Init(b)), Last(b).0, Last(b).1)
  }

  /** Python truthiness. */
  predicate Truthy(v: Value)
  {
    match v
    case Null => false
    case Bool(b) => b
    case Int(i) => i != 0
    case Str(s) => s != ""
    case List(xs) => xs != []
    case Tuple(xs) => xs != []
    case Dict(fs) => fs != []
  }

  /** `v in xs` for a list of strings: only a string can equal one of them. */
  predicate InStrings(v: Value, xs: seq<string>)
  {
    v.Str? && v.s in xs
  }

  /** `v[k]` with a string key. */
  function Subscript(v: Value, k: string): (r: Result<Value>)
    ensures r.Ok? <==> v.Dict? && Has(v.fields, k)
    ensures r.Ok? ==> r.value == DictGet(v.fields, k)
    ensures v.Dict? && !Has(v.fields, k) ==> r == Err(KeyError(k))
  {
    match v
    case Dict(fs) => if Has(fs, k) then Ok(DictGet(fs, k)) else Err(KeyError(k))
    case _ => Err(TypeError)
  }

  /** `v[k] = x`, in place: the updated value, or the error assignment raises. */
  function SetItem(v: Value, k: string, x: Value): (r: Result<Value>)
    ensures r.Ok? <==> v.Dict?
    ensures r.Ok? ==> r.value.Dict? && DictGet(r.value.fields, k) == x && Has(r.value.fields, k)
    ensures r.Ok? ==> forall k' :: k' != k ==>
      DictGet(r.value.fields, k') == DictGet(v.fields, k') && (Has(r.value.fields, k') <==> Has(v.fields, k'))
  {
    match v
    case Dict(fs) => SetAll(fs, k, x); Ok(Dict(Set(fs, k, x)))
    case _ => Err(TypeError)
  }

  /** Hashable values: what `v in some_set` accepts without a TypeError. */
  predicate Hashable(v: Value)
  {
    match v
    case List(_) => false
    case Dict(_) => false
    case Tuple(xs) => forall i | 0 <= i < |xs| :: Hashable(xs[i])
    case _ => true
  }

  /** What `for x in v` iterates over: list and tuple items, the characters of a string, the keys of a dict. */
  function Iterate(v: Value): (r: Result<seq<Value>>)
    ensures v.List? ==> r == Ok(v.items)
    ensures v.Tuple? ==> r == Ok(v.elems)
    ensures r.Ok? <==> v.List? || v.Tuple? || v.Str? || v.Dict?
    ensures v.Str? ==> r.Ok? && |r.value| == |v.s|
  {
    match v
    case List(xs) => Ok(xs)
    case Tuple(xs) => Ok(xs)
    case Str(s) => Ok(Chars(s))
    case Dict(fs) => Ok(Keys(fs))
    case _ => Err(TypeError)
  }

  /** Iterating a string: its characters, each a one-character string. */
  function Chars(s: string): (r: seq<Value>)
    ensures |r| == |s|
  {
    if s == [] then [] else [Str([s[0]])] + Chars(s[1..])
  }

  /** Iterating a dict: its keys. */
  function Keys(fs: Record): seq<Value>
  {
    if fs == [] then [] else [Str(fs[0].0)] + Keys(fs[1..])
  }

  /**
   * An element `dict.update` accepts from a sequence: an iterable of
   * exactly two items whose first, the key, is a string.
   */
  predicate IsPair(e: Value)
  {
    Iterate(e).Ok? && |Iterate(e).value| == 2 && Iterate(e).value[0].Str?
  }

  function PairKey(e: Value): string
    requires IsPair(e)
  {
    Iterate(e).value[0].s
  }

  function PairValue(e: Value): Value
    requires IsPair(e)
  {
    Iterate(e).value[1]
  }

  /** The entries a sequence of pairs stands for, in order. */
  function PairsRecord(elems: seq<Value>): (r: Record)
    requires forall i | 0 <= i < |elems| :: IsPair(elems[i])
    ensures |r| == |elems|
    ensures forall i | 0 <= i < |elems| :: r[i] == (PairKey(elems[i]), PairValue(elems[i]))
  {
    seq(|elems|, i requires 0 <= i < |elems| && IsPair(elems[i]) => (PairKey(elems[i]), PairValue(elems[i])))
  }

  /**
   * `d.update(elems)` for a sequence: each element is unpacked into a key
   * and a value and assigned in order. An element that is not iterable, or
   * whose key is unhashable, raises `TypeError`; one whose length is not 2
   * raises `ValueError`.
   */
  function UpdatePairs(fields: Record, elems: seq<Value>): Result<Record>
  {
    if elems == [] then Ok(fields)
    else
      var n := |elems| - 1;
      match UpdatePairs(fields, elems[..n])
      case Err(e) => Err(e)
      case Ok(prev) =>
        match Iterate(elems[n])
        case Err(_) => Err(TypeError)
        case Ok(kv) =>
          if |kv| != 2 then Err(ValueError)
          else if !kv[0].Str? then Err(TypeError)
          else Ok(Set(prev, kv[0].s, kv[1]))
  }

  /** `d.update(x)`: a mapping is merged; any other iterable is read as a sequence of pairs. */
  function UpdateFrom(fields: Record, x: Value): (r: Result<Record>)
    ensures x.Dict? ==> r == Ok(Merge(fields, x.fields))
    ensures x == List([]) || x == Tuple([]) || x == Str("") ==> r == Ok(fields)
    ensures x.Null? || x.Bool? || x.Int? ==> r == Err(TypeError)
  {
    match x
    case Dict(fs) => Ok(Merge(fields, fs))
    case _ =>
      match Iterate(x)
      case Err(e) => Err(e)
      case Ok(elems) => UpdatePairs(fields, elems)
  }

  function Strs(xs: seq<string>): (r: seq<Value>)
    ensures |r| == |xs| && forall i | 0 <= i < |xs| :: r[i] == Str(xs[i])
  {
    seq(|xs|, i requires 0 <= i < |xs| => Str(xs[i]))
  }

  // ---------------------------------------------------------------------------
  // Lemmas: the dict operations behave like a finite map.

  lemma {:induction false} GetMissing(r: Record, k: string)
    requires !Has(r, k)
    ensures DictGet(r, k) == Null
  {
    if r != [] { GetMissing(Init(r), k); }
  }

  lemma MissingKeys(r: Record)
    ensures forall k :: !Has(r, k) ==> DictGet(r, k) == Null
  {
    forall k | !Has(r, k) ensures DictGet(r, k) == Null { GetMissing(r, k); }
  }

  lemma {:induction false} ReplaceGet(r: Record, k: string, v: Value, k': string)
    ensures Has(Replace(r, k, v), k') <==> Has(r, k')
    ensures DictGet(Replace(r, k, v), k') == if k' == k && Has(r, k) then v else DictGet(r, k')
  {
    if r != [] {
      var r' := Replace(r, k, v);
      assert Init(r') == Replace(Init(r), k, v);
      ReplaceGet(Init(r), k, v, k');
      if k' == k && !Has(r, k) { GetMissing(r, k); GetMissing(r', k); }
    }
  }

  /** Assignment: the key now holds the new value; every other key is as before. */
  lemma {:induction false} SetGet(r: Record, k: string, v: Value, k': string)
    ensures Has(Set(r, k, v), k') <==> k' == k || Has(r, k')
    ensures DictGet(Set(r, k, v), k') == if k' == k then v else DictGet(r, k')
  {
    if Has(r, k) {
      ReplaceGet(r, k, v, k');
    } else {
      assert Init(r + [(k, v)]) == r;
    }
  }

  lemma SetAll(r: Record, k: string, v: Value)
    ensures Has(Set(r, k, v), k) && DictGet(Set(r, k, v), k) == v
    ensures forall k' :: k' != k ==> (Has(Set(r, k, v), k') <==> Has(r, k')) && DictGet(Set(r, k, v), k') == DictGet(r, k')
  {
    SetGet(r, k, v, k);
    forall k' | k' != k
      ensures (Has(Set(r, k, v), k') <==> Has(r, k')) && DictGet(Set(r, k, v), k') == DictGet(r, k')
    {
      SetGet(r, k, v, k');
    }
  }

  /** Deletion: the key is gone; every other key is as before. */
  lemma {:induction false} RemoveGet(r: Record, k: string, k': string)
    ensures Has(Remove(r, k), k') <==> k' != k && Has(r, k')
    ensures DictGet(Remove(r, k), k') == if k' == k then Null else DictGet(r, k')
  {
    if r != [] {
      var r' := Remove(r, k);
      RemoveGet(Init(r), k, k');
      if Last(r).0 != k {
        assert r' != [] && Init(r') == Remove(Init(r), k) && Last(r') == Last(r);
      } else {
        assert r' == Remove(Init(r), k);
      }
    }
  }

  /** An update: the keys of `b` take `b`'s values, the other keys keep `a`'s. */
  lemma {:induction false} MergeGet(a: Record, b: Record, k: string)
    ensures Has(Merge(a, b), k) <==> Has(a, k) || Has(b, k)
    ensures DictGet(Merge(a, b), k) == if Has(b, k) then DictGet(b, k) else DictGet(a, k)
  {
    if b != [] {
      MergeGet(a, Init(b), k);
      SetGet(Merge(a, Init(b)), Last(b).0, Last(b).1, k);
    }
  }

  lemma MergeAll(a: Record, b: Record)
    ensures forall k :: Has(Merge(a, b), k) <==> Has(a, k) || Has(b, k)
    ensures forall k :: DictGet(Merge(a, b), k) == if Has(b, k) then DictGet(b, k) else DictGet(a, k)
  {
    forall k
      ensures (Has(Merge(a, b), k) <==> Has(a, k) || Has(b, k))
      ensures DictGet(Merge(a, b), k) == if Has(b, k) then DictGet(b, k) else DictGet(a, k)
    {
      MergeGet(a, b, k);
    }
  }

  /**
   * Updating from a sequence succeeds iff every element is a pair, and then
   * acts as merging those pairs as a dict: the last pair for a key wins, and
   * keys no pair names keep their value.
   */
  lemma {:induction false} UpdatePairsMeaning(fields: Record, elems: seq<Value>)
    ensures UpdatePairs(fields, elems).Ok? <==> forall i | 0 <= i < |elems| :: IsPair(elems[i])
    ensures UpdatePairs(fields, elems).Ok? ==> UpdatePairs(fields, elems).value == Merge(fields, PairsRecord(elems))
  {
    if elems != [] {
      var n := |elems| - 1;
      UpdatePairsMeaning(fields, elems[..n]);
      assert forall i | 0 <= i < n :: elems[..n][i] == elems[i];
      if forall i | 0 <= i < |elems| :: IsPair(elems[i]) {
        var P := PairsRecord(elems);
        assert Init(P) == PairsRecord(elems[..n]);
      }
    }
  }

  /** `d.update(pairs)` over a list or tuple of pairs: every key takes the value of its last pair. */
  lemma UpdateFromPairs(fields: Record, x: Value)
    requires x.List? || x.Tuple?
    requires forall i | 0 <= i < |Iterate(x).value| :: IsPair(Iterate(x).value[i])
    ensures UpdateFrom(fields, x).Ok?
    ensures var P := PairsRecord(Iterate(x).value);
      forall k :: DictGet(UpdateFrom(fields, x).value, k) == if Has(P, k) then DictGet(P, k) else DictGet(fields, k)
  {
    var elems := Iterate(x).value;
    UpdatePairsMeaning(fields, elems);
    MergeAll(fields, PairsRecord(elems));
  }
}
