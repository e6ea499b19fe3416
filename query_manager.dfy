/**
 * `QueryResourceManager` and `ChildResourceManager` (c7n/query.py): choosing
 * the source, matching ids to a type, fetching by id through the cache, and
 * computing ARNs.
 *
 * The cache entry for the unqualified query, the source's `get_resources`
 * and `augment` calls, JMESPath lookup and `generate_arn` are parameters.
 */
module QueryManager {
  import opened Common
  import opened Values
  import opened Seqs
  import opened TypeInfo
  import ResourceQuery

  // ---------------------------------------------------------------------------
  // Source selection

  /** The source classes registered under `sources`, plus any a manager's own `source_mapping` adds. */
  datatype SourceKind = Describe | DescribeChild | Config | Custom(name: string)

  /** The `sources` registry: `describe`, `describe-child` and `config`. */
  const DefaultSources: map<string, SourceKind> :=
    map["describe" := Describe, "describe-child" := DescribeChild, "config" := Config]

  /** `QueryResourceManager.source_type`: the policy's `source`, `describe` when the key is absent. */
  function SourceType(data: Record): Value
  {
    if Has(data, "source") then DictGet(data, "source") else Str("describe")
  }

  /** `ChildResourceManager.source_type`: as above with default `describe-child`, which `describe` also maps to. */
  function ChildSourceType(data: Record): (r: Value)
    ensures r != Str("describe")
    ensures !Has(data, "source") || DictGet(data, "source") == Str("describe") ==> r == Str("describe-child")
    ensures Has(data, "source") && DictGet(data, "source") != Str("describe") ==> r == DictGet(data, "source")
  {
    var source := if Has(data, "source") then DictGet(data, "source") else Str("describe-child");
    if source == Str("describe") then Str("describe-child") else source
  }

  /**
   * `get_source`: the manager's own mapping first, then the registry; an
   * unknown name raises `KeyError`, and an unhashable one the `TypeError`
   * of the membership test.
   */
  function GetSource(mapping: map<string, SourceKind>, st: Value): (r: Result<SourceKind>)
    ensures r.Ok? <==> st.Str? && (st.s in mapping || st.s in DefaultSources)
    ensures st.Str? && st.s in mapping ==> r == Ok(mapping[st.s])
    ensures st.Str? && st.s !in mapping && st.s in DefaultSources ==> r == Ok(DefaultSources[st.s])
    ensures !Hashable(st) ==> r == Err(TypeError)
  {
    if !Hashable(st) then Err(TypeError)
    else if st.Str? && st.s in mapping then Ok(mapping[st.s])
    else if st.Str? && st.s in DefaultSources then Ok(DefaultSources[st.s])
    else Err(KeyError("Invalid Source"))
  }

  /**
   * With the default mapping (`source_mapping = sources`) and no `source`
   * in the policy, a manager describes and a child manager describes its
   * children; asking a child manager for `describe` also gives the child source.
   */
  lemma DefaultSourceResolution(data: Record)
    ensures !Has(data, "source") ==> GetSource(DefaultSources, SourceType(data)) == Ok(Describe)
    ensures !Has(data, "source") || DictGet(data, "source") == Str("describe") ==>
      GetSource(DefaultSources, ChildSourceType(data)) == Ok(DescribeChild)
    ensures DictGet(data, "source") == Str("config") ==>
      GetSource(DefaultSources, SourceType(data)) == Ok(Config) &&
      GetSource(DefaultSources, ChildSourceType(data)) == Ok(Config)
    ensures Has(data, "source") ==> GetSource(DefaultSources, SourceType(data)) == GetSource(DefaultSources, DictGet(data, "source"))
  {
    if DictGet(data, "source") == Str("config") {
      if !Has(data, "source") {
        GetMissing(data, "source");
      }
    }
  }

  // ---------------------------------------------------------------------------
  // Matching and fetching by id

  /** `match_ids`: the ids with this type's prefix, in order; all of them when the type has no prefix. */
  function MatchIds(idPrefix: Option<string>, ids: seq<string>): (r: seq<string>)
    ensures idPrefix.None? ==> r == ids
    ensures IsSubseq(r, ids)
    ensures idPrefix.Some? ==> forall x :: x in r <==> x in ids && idPrefix.value <= x
    ensures idPrefix.Some? ==> forall x :: multiset(r)[x] == if idPrefix.value <= x then multiset(ids)[x] else 0
  {
    match idPrefix
    case None =>
      FilterIsSubseq(ids, (i: string) => true);
      FilterAll(ids, (i: string) => true);
      ids
    case Some(prefix) =>
      var startsWith := (i: string) => prefix <= i;
      FilterIsSubseq(ids, startsWith);
      FilterMembers(ids, startsWith);
      FilterCounts(ids, startsWith);
      Filter(ids, startsWith)
  }

  /** `r[m.id] in id_set`: the subscript may raise, and so may hashing an unhashable id. */
  function CachedIdTest(id: string, ids: seq<string>): Value -> Result<bool>
  {
    (r: Value) => match Subscript(r, id)
      case Err(e) => Err(e)
      case Ok(v) => if Hashable(v) then Ok(InStrings(v, ids)) else Err(TypeError)
  }

  /**
   * `_get_cached_resources`: `None` when nothing is cached for the type,
   * otherwise the cached records whose id is one of `ids`, in cache order.
   */
  function CachedSubset(id: string, cached: Option<seq<Value>>, ids: seq<string>): (r: Result<Option<seq<Value>>>)
    ensures cached.None? ==> r == Ok(None)
    ensures cached.Some? && r.Ok? ==> r.value.Some? && IsSubseq(r.value.value, cached.value)
    ensures cached.Some? ==> (r.Ok? <==> forall i | 0 <= i < |cached.value| :: CachedIdTest(id, ids)(cached.value[i]).Ok?)
  {
    match cached
    case None => Ok(None)
    case Some(resources) =>
      FilterIsSubseq(resources, Passes(CachedIdTest(id, ids)));
      match FilterOrFail(resources, CachedIdTest(id, ids))
      case Err(e) => Err(e)
      case Ok(kept) => Ok(Some(kept))
  }

  /** Over well-formed cached records, the subset is exactly those whose id is requested. */
  lemma CachedSubsetRecords(id: string, resources: seq<Value>, ids: seq<string>)
    requires forall i | 0 <= i < |resources| ::
      resources[i].Dict? && Has(resources[i].fields, id) && Hashable(DictGet(resources[i].fields, id))
    ensures CachedSubset(id, Some(resources), ids) == Ok(Some(Filter(resources, ResourceQuery.IdIn(id, ids))))
    ensures forall r :: r in CachedSubset(id, Some(resources), ids).value.value <==>
      r in resources && InStrings(DictGet(r.fields, id), ids)
  {
    FilterCongruent(resources, Passes(CachedIdTest(id, ids)), ResourceQuery.IdIn(id, ids));
    FilterMembers(resources, ResourceQuery.IdIn(id, ids));
  }

  /** A cached record lacking the id field makes the lookup raise `KeyError`. */
  lemma CachedSubsetMissingId(id: string, resources: seq<Value>, ids: seq<string>, j: nat)
    requires forall i | 0 <= i < |resources| :: resources[i].Dict?
    requires j < |resources| && !Has(resources[j].fields, id)
    ensures CachedSubset(id, Some(resources), ids).Err?
  {
    assert CachedIdTest(id, ids)(resources[j]).Err?;
  }

  /**
   * `get_resources`. `fetch` is the source's `get_resources` and `augment`
   * the manager's `augment`; a `ClientError` from either is caught and
   * gives no resources, any other error propagates.
   */
  function GetResources(rt: ResourceType, ids: seq<string>, useCache: bool, cached: Option<seq<Value>>,
                        fetch: seq<string> -> Result<seq<Value>>, doAugment: bool,
                        augment: seq<Value> -> Result<seq<Value>>): (r: Result<seq<Value>>)
    ensures ids == [] ==> r == Ok([])
    ensures r.Err? ==> r.error != ClientError
    ensures ids != [] && useCache && CachedSubset(rt.id, cached, ids).Ok? && cached.Some? ==>
      r == Ok(CachedSubset(rt.id, cached, ids).value.value)
    ensures ids != [] && (!useCache || cached.None?) && fetch(ids) == Err(ClientError) ==> r == Ok([])
    ensures ids != [] && (!useCache || cached.None?) && fetch(ids).Ok? && !doAugment ==> r == fetch(ids)
  {
    if ids == [] then Ok([])
    else
      var hit := if useCache then CachedSubset(rt.id, cached, ids) else Ok(None);
      match hit
      case Err(e) => Err(e)
      case Ok(Some(resources)) => Ok(resources)
      case Ok(None) =>
        var fetched := fetch(ids);
        var result := if fetched.Ok? && doAugment then augment(fetched.value) else fetched;
        if result == Err(ClientError) then Ok([]) else result
  }

  // ---------------------------------------------------------------------------
  // ARNs

  /** `get_path(path, r)` for a single field name: `None` when the record lacks it. */
  function GetPath(path: string, r: Value): (v: Value)
    ensures r.Dict? ==> v == DictGet(r.fields, path)
    ensures !r.Dict? ==> v == Null
  {
    if r.Dict? then DictGet(r.fields, path) else Null
  }

  /** `'arn' in _id[:3]`: a string starting `arn`, or a list or tuple with `"arn"` among its first three items. */
  function LooksLikeArn(v: Value): (r: Result<bool>)
    ensures v.Str? ==> r == Ok(|v.s| >= 3 && v.s[..3] == "arn")
    ensures v.List? ==> r == Ok(Str("arn") in v.items[..if |v.items| < 3 then |v.items| else 3])
    ensures v.Tuple? ==> r == Ok(Str("arn") in v.elems[..if |v.elems| < 3 then |v.elems| else 3])
    ensures r.Ok? <==> v.Str? || v.List? || v.Tuple?
  {
    match v
    case Str(s) => Ok(|s| >= 3 && s[..3] == "arn")
    case List(xs) => Ok(Str("arn") in xs[..if |xs| < 3 then |xs| else 3])
    case Tuple(xs) => Ok(Str("arn") in xs[..if |xs| < 3 then |xs| else 3])
    case _ => Err(TypeError)
  }

  /** The ARN of one resource, for a type whose `arn` is not `False`. */
  function ArnOf(rt: ResourceType, r: Value, generateArn: Value -> Value): (a: Result<Value>)
    ensures rt.arn.ArnField? && rt.arn.path != "" ==> a == Ok(GetPath(rt.arn.path, r))
    ensures !(rt.arn.ArnField? && rt.arn.path != "") ==>
      var id := GetPath(rt.id, r);
      && (a.Ok? <==> LooksLikeArn(id).Ok?)
      && (LooksLikeArn(id) == Ok(true) ==> a == Ok(id))
      && (LooksLikeArn(id) == Ok(false) ==> a == Ok(generateArn(id)))
  {
    if rt.arn.ArnField? && rt.arn.path != "" then Ok(GetPath(rt.arn.path, r))
    else
      var id := GetPath(rt.id, r);
      match LooksLikeArn(id)
      case Err(e) => Err(e)
      case Ok(isArn) => Ok(if isArn then id else generateArn(id))
  }

  /** `get_arns`: one ARN per resource, in resource order, or the first error met. */
  method GetArns(rt: ResourceType, resources: seq<Value>, generateArn: Value -> Value)
    returns (r: Result<seq<Value>>)
    ensures rt.arn == ArnDisabled ==> r == Err(ValueError)
    ensures rt.arn != ArnDisabled ==>
      (r.Ok? <==> forall i | 0 <= i < |resources| :: ArnOf(rt, resources[i], generateArn).Ok?)
    ensures r.Ok? ==> |r.value| == |resources|
    ensures r.Ok? ==> forall i | 0 <= i < |resources| :: r.value[i] == ArnOf(rt, resources[i], generateArn).value
    ensures rt.arn != ArnDisabled && r.Err? ==> exists i | 0 <= i < |resources| ::
      ArnOf(rt, resources[i], generateArn) == Err(r.error) &&
      forall j | 0 <= j < i :: ArnOf(rt, resources[j], generateArn).Ok?
  {
    if rt.arn == ArnDisabled {
      return Err(ValueError);
    }
    var arns: seq<Value> := [];
    for i := 0 to |resources|
      invariant |arns| == i
      invariant forall j | 0 <= j < i :: ArnOf(rt, resources[j], generateArn) == Ok(arns[j])
    {
      var arn: Value;
      if rt.arn.ArnField? && rt.arn.path != "" {
        arn := GetPath(rt.arn.path, resources[i]);
      } else {
        var id := GetPath(rt.id, resources[i]);
        var isArn := LooksLikeArn(id);
        if isArn.Err? {
          return Err(isArn.error);
        }
        arn := if isArn.value then id else generateArn(id);
      }
      arns := arns + [arn];
    }
    return Ok(arns);
  }
}
