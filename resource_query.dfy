/**
 * `ResourceQuery` (c7n/query.py): enumerate a resource type, and fetch
 * resources by identity, with a server-side filter when the type declares
 * one and client-side filtering otherwise.
 *
 * The remote enumeration (`_invoke_client_enum`: client construction,
 * pagination, retries and the JMESPath extraction) is the parameter
 * `enumerate`: keyword arguments in, the list of results out.
 */
module ResourceQuery {
  import opened Common
  import opened Values
  import opened Seqs
  import opened TypeInfo

  /** The keyword arguments `filter` sends: `{**extra_args, **params}` when `extra_args` is non-empty. */
  function EnumParams(extra: Record, params: Record): (r: Record)
    ensures forall k :: Has(r, k) <==> Has(extra, k) || Has(params, k)
    ensures forall k :: Has(params, k) ==> DictGet(r, k) == DictGet(params, k)
    ensures forall k :: !Has(params, k) ==> DictGet(r, k) == DictGet(extra, k)
  {
    if extra != [] then
      MergeAll(extra, params);
      Merge(extra, params)
    else
      MissingKeys(params);
      params
  }

  /** `ResourceQuery.filter`: one enumeration call with the merged arguments. */
  function QueryFilter(rt: ResourceType, enumerate: Record -> seq<Value>, params: Record): seq<Value>
  {
    enumerate(EnumParams(rt.extraArgs, params))
  }

  /** The arguments `get` passes to `filter`, and whether it must filter the results itself. */
  datatype ServerQuery = ServerQuery(params: Record, clientFilter: bool)

  function ServerSide(rt: ResourceType, identities: seq<string>): (q: ServerQuery)
    ensures !q.clientFilter <==>
      rt.filterName != "" && (rt.filterType == "list" || (rt.filterType == "scalar" && |identities| == 1))
    ensures q.clientFilter ==> q.params == []
    ensures !q.clientFilter ==> |q.params| == 1 && q.params[0].0 == rt.filterName
    ensures !q.clientFilter && rt.filterType == "list" ==> q.params[0].1 == List(Strs(identities))
    ensures !q.clientFilter && rt.filterType != "list" ==> q.params[0].1 == Str(identities[0])
  {
    if rt.filterName != "" && rt.filterType == "list" then
      ServerQuery([(rt.filterName, List(Strs(identities)))], false)
    else if rt.filterName != "" && rt.filterType == "scalar" && |identities| == 1 then
      ServerQuery([(rt.filterName, Str(identities[0]))], false)
    else
      ServerQuery([], true)
  }

  /** `r[m.id] in identities`, raising what the subscript raises. */
  function IdTest(id: string, identities: seq<string>): Value -> Result<bool>
  {
    (r: Value) => match Subscript(r, id)
      case Ok(v) => Ok(InStrings(v, identities))
      case Err(e) => Err(e)
  }

  /** `for p, r in resources if r[m.id] in identities`: unpack a pair, then test its record. */
  function PairTest(id: string, identities: seq<string>): Value -> Result<bool>
  {
    (t: Value) => if t.Tuple? && |t.elems| == 2 then IdTest(id, identities)(t.elems[1]) else Err(ValueError)
  }

  /** The records a client-side filter keeps: dicts whose identity field is one of `identities`. */
  function IdIn(id: string, identities: seq<string>): Value -> bool
  {
    (r: Value) => r.Dict? && InStrings(DictGet(r.fields, id), identities)
  }

  /** The three client-side filters of `get`: identifiers, (parent, record) pairs, records. */
  function ClientFilter(id: string, identities: seq<string>, fetched: seq<Value>): (r: Result<seq<Value>>)
    ensures r.Ok? ==> IsSubseq(r.value, fetched)
  {
    if forall i | 0 <= i < |fetched| :: fetched[i].Str? then
      var keep := (v: Value) => InStrings(v, identities);
      FilterIsSubseq(fetched, keep);
      Ok(Filter(fetched, keep))
    else if forall i | 0 <= i < |fetched| :: fetched[i].Tuple? then
      var r := FilterOrFail(fetched, PairTest(id, identities));
      FilterIsSubseq(fetched, Passes(PairTest(id, identities)));
      r
    else
      var r := FilterOrFail(fetched, IdTest(id, identities));
      FilterIsSubseq(fetched, Passes(IdTest(id, identities)));
      r
  }

  /** `ResourceQuery.get`: the resources with the given identities. */
  function Get(rt: ResourceType, enumerate: Record -> seq<Value>, identities: seq<string>): (r: Result<seq<Value>>)
    ensures !ServerSide(rt, identities).clientFilter ==>
      r == Ok(QueryFilter(rt, enumerate, ServerSide(rt, identities).params))
    ensures ServerSide(rt, identities).clientFilter && r.Ok? ==>
      IsSubseq(r.value, QueryFilter(rt, enumerate, []))
  {
    var q := ServerSide(rt, identities);
    var fetched := QueryFilter(rt, enumerate, q.params);
    if q.clientFilter then ClientFilter(rt.id, identities, fetched) else Ok(fetched)
  }

  /**
   * Client-side filtering of records: `get` returns exactly the fetched
   * records whose identity field is in `identities`, in fetched order.
   */
  lemma GetFiltersRecords(rt: ResourceType, enumerate: Record -> seq<Value>, identities: seq<string>)
    requires ServerSide(rt, identities).clientFilter
    requires var fetched := QueryFilter(rt, enumerate, []);
      forall i | 0 <= i < |fetched| :: fetched[i].Dict? && Has(fetched[i].fields, rt.id)
    ensures var fetched := QueryFilter(rt, enumerate, []);
      && Get(rt, enumerate, identities) == Ok(Filter(fetched, IdIn(rt.id, identities)))
      && (forall r :: r in Get(rt, enumerate, identities).value <==>
            r in fetched && InStrings(DictGet(r.fields, rt.id), identities))
  {
    var fetched := QueryFilter(rt, enumerate, []);
    var keep := IdIn(rt.id, identities);
    if fetched != [] {
      assert !fetched[0].Str? && !fetched[0].Tuple?;
      var test := IdTest(rt.id, identities);
      FilterCongruent(fetched, Passes(test), keep);
    }
    FilterMembers(fetched, keep);
  }

  /**
   * Client-side filtering of bare identifiers keeps exactly the requested
   * ones, each occurrence of them, in fetched order.
   */
  lemma GetFiltersIds(rt: ResourceType, enumerate: Record -> seq<Value>, identities: seq<string>)
    requires ServerSide(rt, identities).clientFilter
    requires var fetched := QueryFilter(rt, enumerate, []);
      forall i | 0 <= i < |fetched| :: fetched[i].Str?
    ensures var fetched := QueryFilter(rt, enumerate, []);
      && Get(rt, enumerate, identities).Ok?
      && IsSubseq(Get(rt, enumerate, identities).value, fetched)
      && (forall v :: multiset(Get(rt, enumerate, identities).value)[v] ==
            if v.Str? && v.s in identities then multiset(fetched)[v] else 0)
  {
    var fetched := QueryFilter(rt, enumerate, []);
    FilterCounts(fetched, (v: Value) => InStrings(v, identities));
  }

  /** The pairs a client-side filter keeps: `(p, r)` whose record `r` has an identity in `identities`. */
  function PairIdIn(id: string, identities: seq<string>): Value -> bool
  {
    (t: Value) => t.Tuple? && |t.elems| == 2 && IdIn(id, identities)(t.elems[1])
  }

  /**
   * Client-side filtering of `(parent, record)` pairs returns exactly the
   * pairs whose record has an identity in `identities`, in fetched order.
   */
  lemma GetFiltersPairs(rt: ResourceType, enumerate: Record -> seq<Value>, identities: seq<string>)
    requires ServerSide(rt, identities).clientFilter
    requires var fetched := QueryFilter(rt, enumerate, []);
      && fetched != []
      && forall i | 0 <= i < |fetched| ::
           fetched[i].Tuple? && |fetched[i].elems| == 2 &&
           fetched[i].elems[1].Dict? && Has(fetched[i].elems[1].fields, rt.id)
    ensures var fetched := QueryFilter(rt, enumerate, []);
      && Get(rt, enumerate, identities) == Ok(Filter(fetched, PairIdIn(rt.id, identities)))
      && (forall t :: t in Get(rt, enumerate, identities).value <==>
            t in fetched && InStrings(DictGet(t.elems[1].fields, rt.id), identities))
  {
    var fetched := QueryFilter(rt, enumerate, []);
    var keep := PairIdIn(rt.id, identities);
    var test := PairTest(rt.id, identities);
    assert !fetched[0].Str?;
    forall i | 0 <= i < |fetched| ensures test(fetched[i]).Ok? && Passes(test)(fetched[i]) == keep(fetched[i]) {
      var rec := fetched[i].elems[1];
      var inIds := InStrings(DictGet(rec.fields, rt.id), identities);
      assert Subscript(rec, rt.id) == Ok(DictGet(rec.fields, rt.id));
      assert test(fetched[i]) == IdTest(rt.id, identities)(rec) == Ok(inIds);
      assert keep(fetched[i]) == IdIn(rt.id, identities)(rec) == inIds;
    }
    FilterCongruent(fetched, Passes(test), keep);
    FilterMembers(fetched, keep);
    forall x | x in fetched ensures keep(x) == InStrings(DictGet(x.elems[1].fields, rt.id), identities) {
      var i :| 0 <= i < |fetched| && fetched[i] == x;
      assert keep(x) == IdIn(rt.id, identities)(x.elems[1]);
    }
  }

  /** Among fetched tuples, the first that is not a pair makes `p, r` unpacking raise `ValueError`. */
  lemma GetPairsUnpackError(rt: ResourceType, enumerate: Record -> seq<Value>, identities: seq<string>, j: nat)
    requires ServerSide(rt, identities).clientFilter
    requires var fetched := QueryFilter(rt, enumerate, []);
      && (forall i | 0 <= i < |fetched| :: fetched[i].Tuple?)
      && j < |fetched| && |fetched[j].elems| != 2
      && forall i | 0 <= i < j ::
           |fetched[i].elems| == 2 && fetched[i].elems[1].Dict? && Has(fetched[i].elems[1].fields, rt.id)
    ensures Get(rt, enumerate, identities) == Err(ValueError)
  {
    var fetched := QueryFilter(rt, enumerate, []);
    var test := PairTest(rt.id, identities);
    assert !fetched[j].Str?;
    assert test(fetched[j]) == Err(ValueError);
    forall i | 0 <= i < j ensures test(fetched[i]).Ok? {
      var rec := fetched[i].elems[1];
      assert test(fetched[i]) == IdTest(rt.id, identities)(rec);
      assert Subscript(rec, rt.id).Ok?;
    }
  }

  /** A fetched record without the identity field makes client-side filtering raise `KeyError`. */
  lemma GetMissingIdRaises(rt: ResourceType, enumerate: Record -> seq<Value>, identities: seq<string>, j: nat)
    requires ServerSide(rt, identities).clientFilter
    requires var fetched := QueryFilter(rt, enumerate, []);
      && (forall i | 0 <= i < |fetched| :: fetched[i].Dict?)
      && j < |fetched| && !Has(fetched[j].fields, rt.id)
    ensures Get(rt, enumerate, identities) == Err(KeyError(rt.id))
  {
    var fetched := QueryFilter(rt, enumerate, []);
    assert !fetched[0].Str? && !fetched[0].Tuple?;
    assert IdTest(rt.id, identities)(fetched[j]).Err?;
  }
}
