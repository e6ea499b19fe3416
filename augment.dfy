/**
 * `_scalar_augment` (c7n/query.py): enrich each resource with the reply of
 * a per-resource detail call.
 *
 * The detail operation (with its retry wrapper) is the parameter `op`: the
 * keyword arguments in, a reply out. A reply is the response, the service's
 * resource-not-found error (which skips the resource) or any other error
 * (which propagates).
 */
module Augment {
  import opened Common
  import opened Values
  import opened Seqs

  datatype DetailReply = Found(response: Value) | NotFound | Raised(error: Error)

  /** The `detail_spec` of a resource type: operation parameter name, key, and response path ("" for none). */
  datatype DetailSpec = DetailSpec(paramName: string, paramKey: Option<string>, detailPath: string)

  /**
   * `param_key and r[param_key] or r`: without a (truthy) key, the resource;
   * with one, the key's value when that is truthy and the resource when it
   * is not; a missing key raises `KeyError`, a non-mapping `TypeError`.
   */
  function Argument(spec: DetailSpec, r: Value): (a: Result<Value>)
    ensures spec.paramKey.None? || spec.paramKey.value == "" ==> a == Ok(r)
    ensures spec.paramKey.Some? && spec.paramKey.value != "" ==>
      var k := spec.paramKey.value;
      && (!r.Dict? ==> a == Err(TypeError))
      && (r.Dict? && !Has(r.fields, k) ==> a == Err(KeyError(k)))
      && (r.Dict? && Has(r.fields, k) && Truthy(DictGet(r.fields, k)) ==> a == Ok(DictGet(r.fields, k)))
      && (r.Dict? && Has(r.fields, k) && !Truthy(DictGet(r.fields, k)) ==> a == Ok(r))
  {
    match spec.paramKey
    case None => Ok(r)
    case Some(k) =>
      if k == "" then Ok(r)
      else match Subscript(r, k)
        case Err(e) => Err(e)
        case Ok(v) => Ok(if Truthy(v) then v else r)
  }

  /**
   * `response[detail_path]`, or the response with `ResponseMetadata`
   * popped: `list.pop` with a string raises `TypeError`, other non-mappings
   * have no `pop`.
   */
  function Detail(spec: DetailSpec, response: Value): (d: Result<Value>)
    ensures spec.detailPath != "" ==> d == Subscript(response, spec.detailPath)
    ensures spec.detailPath == "" ==> (d.Ok? <==> response.Dict? && Has(response.fields, "ResponseMetadata"))
    ensures spec.detailPath == "" && response.List? ==> d == Err(TypeError)
  {
    if spec.detailPath != "" then Subscript(response, spec.detailPath)
    else if response.List? then Err(TypeError)
    else if !response.Dict? then Err(AttributeError)
    else if !Has(response.fields, "ResponseMetadata") then Err(KeyError("ResponseMetadata"))
    else Ok(Dict(Remove(response.fields, "ResponseMetadata")))
  }

  /**
   * Without a parameter key the response becomes the resource, with the
   * original resource stored under the type's id field; with one, the
   * resource is updated with the response (`dict.update`, which also takes
   * a sequence of pairs).
   */
  function Combine(spec: DetailSpec, id: string, r: Value, detail: Value): Result<Value>
  {
    if spec.paramKey.None? then SetItem(detail, id, r)
    else if !r.Dict? then Err(AttributeError)
    else match UpdateFrom(r.fields, detail)
      case Err(e) => Err(e)
      case Ok(fields) => Ok(Dict(fields))
  }

  /** What one resource contributes: nothing when the detail call reports it missing, else the enriched record. */
  function AugmentOne(spec: DetailSpec, id: string, op: Record -> DetailReply, r: Value): Result<seq<Value>>
  {
    match Argument(spec, r)
    case Err(e) => Err(e)
    case Ok(arg) =>
      match op([(spec.paramName, arg)])
      case NotFound => Ok([])
      case Raised(e) => Err(e)
      case Found(response) =>
        match Detail(spec, response)
        case Err(e) => Err(e)
        case Ok(detail) =>
          match Combine(spec, id, r, detail)
          case Err(e) => Err(e)
          case Ok(x) => Ok([x])
  }

  function AugmentStep(spec: DetailSpec, id: string, op: Record -> DetailReply): Value -> Result<seq<Value>>
  {
    (r: Value) => AugmentOne(spec, id, op, r)
  }

  /** `_scalar_augment`: the enriched resources in resource order, or the first error met. */
  method ScalarAugment(spec: DetailSpec, id: string, op: Record -> DetailReply, resources: seq<Value>)
    returns (r: Result<seq<Value>>)
    ensures r == FlatMapOrFail(resources, AugmentStep(spec, id, op))
  {
    var results: seq<Value> := [];
    for i := 0 to |resources|
      invariant FlatMapOrFail(resources[..i], AugmentStep(spec, id, op)) == Ok(results)
    {
      assert resources[..i + 1][..i] == resources[..i];
      var res := resources[i];
      var arg := Argument(spec, res);
      if arg.Err? {
        FlatMapErrPropagates(resources, AugmentStep(spec, id, op), i + 1);
        return Err(arg.error);
      }
      var reply := op([(spec.paramName, arg.value)]);
      if reply.NotFound? {
        assert results + [] == results;
        continue;
      }
      if reply.Raised? {
        FlatMapErrPropagates(resources, AugmentStep(spec, id, op), i + 1);
        return Err(reply.error);
      }
      var detail := Detail(spec, reply.response);
      if detail.Err? {
        FlatMapErrPropagates(resources, AugmentStep(spec, id, op), i + 1);
        return Err(detail.error);
      }
      var enriched := Combine(spec, id, res, detail.value);
      if enriched.Err? {
        FlatMapErrPropagates(resources, AugmentStep(spec, id, op), i + 1);
        return Err(enriched.error);
      }
      results := results + [enriched.value];
    }
    assert resources[..|resources|] == resources;
    return Ok(results);
  }

  // ---------------------------------------------------------------------------
  // Properties

  /** Each resource contributes at most one record, so augmenting never adds resources. */
  lemma {:induction false} AugmentLength(spec: DetailSpec, id: string, op: Record -> DetailReply, resources: seq<Value>)
    requires FlatMapOrFail(resources, AugmentStep(spec, id, op)).Ok?
    ensures |FlatMapOrFail(resources, AugmentStep(spec, id, op)).value| <= |resources|
  {
    var f := AugmentStep(spec, id, op);
    forall i | 0 <= i < |resources| && f(resources[i]).Ok? ensures |f(resources[i]).value| <= 1 {
      assert f(resources[i]) == AugmentOne(spec, id, op, resources[i]);
    }
    FlatMapAtMostOne(resources, f);
  }

  /** When the detail call finds every resource, there is one enriched record per resource, in order. */
  lemma {:induction false} AugmentAllFound(spec: DetailSpec, id: string, op: Record -> DetailReply, resources: seq<Value>)
    requires forall i | 0 <= i < |resources| ::
      AugmentOne(spec, id, op, resources[i]).Ok? && |AugmentOne(spec, id, op, resources[i]).value| == 1
    ensures FlatMapOrFail(resources, AugmentStep(spec, id, op)).Ok?
    ensures var out := FlatMapOrFail(resources, AugmentStep(spec, id, op)).value;
      |out| == |resources| &&
      forall i | 0 <= i < |resources| :: [out[i]] == AugmentOne(spec, id, op, resources[i]).value
  {
    var f := AugmentStep(spec, id, op);
    assert forall i | 0 <= i < |resources| :: f(resources[i]) == AugmentOne(spec, id, op, resources[i]);
    FlatMapSingletons(resources, f);
  }

  /** Without a detail path, the enriched record never carries the response metadata of the call. */
  lemma DetailDropsMetadata(spec: DetailSpec, response: Value)
    requires spec.detailPath == "" && Detail(spec, response).Ok?
    ensures Detail(spec, response).value.Dict?
    ensures !Has(Detail(spec, response).value.fields, "ResponseMetadata")
    ensures forall k | k != "ResponseMetadata" :: DictGet(Detail(spec, response).value.fields, k) == DictGet(response.fields, k)
  {
    forall k ensures
      (Has(Remove(response.fields, "ResponseMetadata"), k) <==> k != "ResponseMetadata" && Has(response.fields, k)) &&
      DictGet(Remove(response.fields, "ResponseMetadata"), k) == if k == "ResponseMetadata" then Null else DictGet(response.fields, k)
    {
      RemoveGet(response.fields, "ResponseMetadata", k);
    }
  }

  /**
   * The enriched record: without a parameter key it is the detail with the
   * original resource under the id field; with one it is the resource
   * updated by the detail, whose keys win.
   */
  lemma CombineFields(spec: DetailSpec, id: string, r: Value, detail: Value)
    requires Combine(spec, id, r, detail).Ok?
    ensures Combine(spec, id, r, detail).value.Dict?
    ensures spec.paramKey.None? ==> DictGet(Combine(spec, id, r, detail).value.fields, id) == r
    ensures spec.paramKey.None? ==> forall k | k != id ::
      DictGet(Combine(spec, id, r, detail).value.fields, k) == DictGet(detail.fields, k)
    ensures spec.paramKey.Some? && detail.Dict? ==> forall k ::
      DictGet(Combine(spec, id, r, detail).value.fields, k) ==
      (if Has(detail.fields, k) then DictGet(detail.fields, k) else DictGet(r.fields, k))
    ensures spec.paramKey.Some? && (detail.List? || detail.Tuple?) ==>
      var elems := Iterate(detail).value;
      && (forall i | 0 <= i < |elems| :: IsPair(elems[i]))
      && forall k :: DictGet(Combine(spec, id, r, detail).value.fields, k) ==
           (if Has(PairsRecord(elems), k) then DictGet(PairsRecord(elems), k) else DictGet(r.fields, k))
  {
    if spec.paramKey.Some? {
      if detail.Dict? {
        MergeAll(r.fields, detail.fields);
      } else if detail.List? || detail.Tuple? {
        UpdatePairsMeaning(r.fields, Iterate(detail).value);
        UpdateFromPairs(r.fields, detail);
      }
    }
  }

  /**
   * With a parameter key, a detail that is an empty list updates nothing:
   * the resource is kept as it was rather than the augmentation failing.
   */
  lemma EmptyDetailKeepsResource(spec: DetailSpec, id: string, op: Record -> DetailReply, r: Value)
    requires spec.paramKey.Some? && spec.detailPath != "" && r.Dict?
    requires Argument(spec, r).Ok?
    requires op([(spec.paramName, Argument(spec, r).value)]) == Found(Dict([(spec.detailPath, List([]))]))
    ensures AugmentOne(spec, id, op, r) == Ok([r])
  {
    var response := Dict([(spec.detailPath, List([]))]);
    assert Has(response.fields, spec.detailPath);
    assert Detail(spec, response) == Ok(List([]));
    assert UpdateFrom(r.fields, List([])) == Ok(r.fields);
    assert Combine(spec, id, r, List([])) == Ok(r);
  }
}
