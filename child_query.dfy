/**
 * `ChildResourceQuery` (c7n/query.py): resources that can only be listed in
 * the context of a parent resource, queried once per parent.
 *
 * The enumeration call is the parameter `enumerate`; the parent manager's
 * resources (`parents.resources(augment=False)`) are the parameter
 * `parentResources`, and the parent type's identity field `parentIdField`.
 */
module ChildQuery {
  import opened Common
  import opened Values
  import opened Seqs
  import opened TypeInfo
  import ResourceQuery

  /** `ChildResourceQuery.parent_key`: the field written into each child when the type annotates parents. */
  const AnnotationKey: string := "c7n:parent-id"

  /** The arguments after `params.update(extra_args)`: here `extra_args` overrides the caller. */
  function ChildEnumParams(params: Record, extra: Record): (r: Record)
    ensures forall k :: Has(r, k) <==> Has(params, k) || Has(extra, k)
    ensures forall k :: Has(extra, k) ==> DictGet(r, k) == DictGet(extra, k)
    ensures forall k :: !Has(extra, k) ==> DictGet(r, k) == DictGet(params, k)
  {
    if extra != [] then
      MergeAll(params, extra);
      Merge(params, extra)
    else
      MissingKeys(extra);
      params
  }

  /** `get_parent_parameters`: a copy of `params` with `parent_key` set to the parent's id. */
  function GetParentParameters(params: Record, parentId: Value, parentKey: string): (r: Record)
    ensures Has(r, parentKey) && DictGet(r, parentKey) == parentId
    ensures forall k :: k != parentKey ==> (Has(r, k) <==> Has(params, k)) && DictGet(r, k) == DictGet(params, k)
  {
    SetAll(params, parentKey, parentId);
    Set(params, parentKey, parentId)
  }

  /** The two merges go opposite ways: the caller wins in `ResourceQuery.filter`, `extra_args` wins here. */
  lemma MergeDirections(extra: Record, params: Record, k: string)
    requires Has(extra, k) && Has(params, k)
    ensures DictGet(ResourceQuery.EnumParams(extra, params), k) == DictGet(params, k)
    ensures DictGet(ChildEnumParams(params, extra), k) == DictGet(extra, k)
  {
  }

  /** The id of one parent: a bare string is the id, a record gives its identity field. */
  function ParentId(p: Value, idField: string): Result<Value>
  {
    if p.Str? then Ok(p) else Subscript(p, idField)
  }

  /** The parent ids, in parent order, or the first error met reading them. */
  function ParentIds(parents: seq<Value>, idField: string): Result<seq<Value>>
  {
    if parents == [] then Ok([])
    else
      var n := |parents| - 1;
      match ParentIds(parents[..n], idField)
      case Err(e) => Err(e)
      case Ok(ids) =>
        match ParentId(parents[n], idField)
        case Err(e) => Err(e)
        case Ok(id) => Ok(ids + [id])
  }

  /**
   * Collecting succeeds iff every parent has an id; the ids are then the
   * parents' ids in parent order, and otherwise the error is the first
   * parent's that has none.
   */
  lemma {:induction false} ParentIdsMeaning(parents: seq<Value>, idField: string)
    ensures var r := ParentIds(parents, idField);
      && (r.Ok? <==> forall i | 0 <= i < |parents| :: ParentId(parents[i], idField).Ok?)
      && (r.Ok? ==> |r.value| == |parents| && forall i | 0 <= i < |parents| :: r.value[i] == ParentId(parents[i], idField).value)
      && (r.Err? ==> exists i | 0 <= i < |parents| ::
            ParentId(parents[i], idField) == Err(r.error) && forall j | 0 <= j < i :: ParentId(parents[j], idField).Ok?)
  {
    if parents != [] {
      var n := |parents| - 1;
      var prefix := parents[..n];
      ParentIdsMeaning(prefix, idField);
      assert forall i | 0 <= i < n :: prefix[i] == parents[i];
      var pre := ParentIds(prefix, idField);
      if pre.Err? {
        var i :| 0 <= i < n && ParentId(prefix[i], idField) == Err(pre.error) &&
          forall j | 0 <= j < i :: ParentId(prefix[j], idField).Ok?;
        assert ParentId(parents[i], idField) == Err(pre.error);
      } else if ParentId(parents[n], idField).Err? {
        assert forall j | 0 <= j < n :: ParentId(parents[j], idField).Ok?;
      }
    }
  }

  /** A parent without an id, after parents that all have one, is the error of the whole collection. */
  lemma {:induction false} ParentIdsErr(parents: seq<Value>, idField: string, i: nat)
    requires i < |parents| && ParentIds(parents[..i], idField).Ok? && ParentId(parents[i], idField).Err?
    ensures ParentIds(parents, idField) == Err(ParentId(parents[i], idField).error)
  {
    var n := |parents| - 1;
    if i < n {
      assert parents[..n][..i] == parents[..i];
      ParentIdsErr(parents[..n], idField, i);
    } else {
      assert parents[..n] == parents[..i];
    }
  }

  /** The loop that collects `parent_ids` from the parent manager's resources. */
  method CollectParentIds(parents: seq<Value>, idField: string) returns (r: Result<seq<Value>>)
    ensures r == ParentIds(parents, idField)
  {
    var ids: seq<Value> := [];
    for i := 0 to |parents|
      invariant ParentIds(parents[..i], idField) == Ok(ids)
    {
      assert parents[..i + 1][..i] == parents[..i];
      var p := parents[i];
      if p.Str? {
        ids := ids + [p];
      } else {
        var id := Subscript(p, idField);
        if id.Err? {
          ParentIdsErr(parents, idField, i);
          return Err(id.error);
        }
        ids := ids + [id.value];
      }
    }
    assert parents[..|parents|] == parents;
    return Ok(ids);
  }

  /** `r[parent_key] = parent_id` for every child: raises on the first child that is not a dict. */
  function Annotated(subset: seq<Value>, parentId: Value): (r: Result<seq<Value>>)
    ensures r.Ok? <==> forall i | 0 <= i < |subset| :: subset[i].Dict?
    ensures r.Ok? ==> |r.value| == |subset| && forall i | 0 <= i < |subset| ::
      r.value[i] == SetItem(subset[i], AnnotationKey, parentId).value
  {
    if forall i | 0 <= i < |subset| :: subset[i].Dict? then
      Ok(seq(|subset|, i requires 0 <= i < |subset| => SetItem(subset[i], AnnotationKey, parentId).value))
    else
      Err(TypeError)
  }

  /** `(parent_id, s)` for every child `s`. */
  function Pairs(parentId: Value, subset: seq<Value>): (r: seq<Value>)
    ensures |r| == |subset| && forall i | 0 <= i < |subset| :: r[i] == Tuple([parentId, subset[i]])
  {
    seq(|subset|, i requires 0 <= i < |subset| => Tuple([parentId, subset[i]]))
  }

  /** What one parent contributes: its children, annotated and paired as configured. */
  function PerParent(rt: ResourceType, enumerate: Record -> seq<Value>, params: Record,
                     parentId: Value, capture: bool): Result<seq<Value>>
  {
    var subset := enumerate(GetParentParameters(params, parentId, rt.parentKey));
    var annotated := if rt.annotateParent then Annotated(subset, parentId) else Ok(subset);
    match annotated
    case Err(e) => Err(e)
    case Ok(children) => Ok(if capture then Pairs(parentId, children) else children)
  }

  /** `PerParent` as the body of the loop over the parent ids. */
  function PerParentOf(rt: ResourceType, enumerate: Record -> seq<Value>, params: Record,
                       capture: bool): Value -> Result<seq<Value>>
  {
    (pid: Value) => PerParent(rt, enumerate, params, pid, capture)
  }

  /** The per-parent results concatenated in parent-id order; the first error aborts. */
  function Children(rt: ResourceType, enumerate: Record -> seq<Value>, params: Record,
                    parentIds: seq<Value>, capture: bool): Result<seq<Value>>
  {
    FlatMapOrFail(parentIds, PerParentOf(rt, enumerate, params, capture))
  }

  /** What `ChildResourceQuery.filter` returns. An empty `givenParentIds` stands for `None` or `[]`. */
  function ChildFilterSpec(rt: ResourceType, enumerate: Record -> seq<Value>,
                           parentResources: seq<Value>, parentIdField: string,
                           givenParentIds: seq<Value>, params: Record, capture: bool): Result<seq<Value>>
  {
    var merged := ChildEnumParams(params, rt.extraArgs);
    var ids := if givenParentIds == [] then ParentIds(parentResources, parentIdField) else Ok(givenParentIds);
    match ids
    case Err(e) => Err(e)
    case Ok(parentIds) =>
      if !Has(merged, rt.parentKey) && |parentIds| == 0 then Ok([])
      else if Has(merged, rt.parentKey) then Ok(enumerate(merged))
      else Children(rt, enumerate, merged, parentIds, capture)
  }

  /** `ChildResourceQuery.filter`. */
  method ChildFilter(rt: ResourceType, enumerate: Record -> seq<Value>,
                     parentResources: seq<Value>, parentIdField: string,
                     givenParentIds: seq<Value>, params: Record, capture: bool)
    returns (r: Result<seq<Value>>)
    ensures r == ChildFilterSpec(rt, enumerate, parentResources, parentIdField, givenParentIds, params, capture)
  {
    var merged := ChildEnumParams(params, rt.extraArgs);
    var parentIds := givenParentIds;
    if parentIds == [] {
      var collected := CollectParentIds(parentResources, parentIdField);
      if collected.Err? {
        return Err(collected.error);
      }
      parentIds := collected.value;
    }
    var existingParam := Has(merged, rt.parentKey);
    if !existingParam && |parentIds| == 0 {
      return Ok([]);
    }
    if existingParam {
      return Ok(enumerate(merged));
    }
    r := QueryParents(rt, enumerate, merged, parentIds, capture);
  }

  /** The loop over the parent ids: each parent's children appended in order, the first error returned. */
  method QueryParents(rt: ResourceType, enumerate: Record -> seq<Value>, merged: Record,
                      parentIds: seq<Value>, capture: bool) returns (r: Result<seq<Value>>)
    ensures r == Children(rt, enumerate, merged, parentIds, capture)
  {
    var perParent := PerParentOf(rt, enumerate, merged, capture);
    var results: seq<Value> := [];
    for i := 0 to |parentIds|
      invariant FlatMapOrFail(parentIds[..i], perParent) == Ok(results)
    {
      var subset := QueryParent(rt, enumerate, merged, parentIds[i], capture);
      assert subset == perParent(parentIds[i]);
      if subset.Err? {
        assert parentIds[..i + 1][..i] == parentIds[..i];
        FlatMapErrPropagates(parentIds, perParent, i + 1);
        return subset;
      }
      FlatMapStep(parentIds, i, perParent);
      if |subset.value| > 0 {
        results := results + subset.value;
      } else {
        assert results + subset.value == results;
      }
    }
    assert parentIds[..|parentIds|] == parentIds;
    return Ok(results);
  }

  /** The body of the per-parent loop: enumerate one parent's children, annotate and pair them. */
  method QueryParent(rt: ResourceType, enumerate: Record -> seq<Value>, merged: Record,
                     parentId: Value, capture: bool) returns (r: Result<seq<Value>>)
    ensures r == PerParent(rt, enumerate, merged, parentId, capture)
  {
    var mergedParams := GetParentParameters(merged, parentId, rt.parentKey);
    var subset := enumerate(mergedParams);
    if rt.annotateParent {
      var annotated: seq<Value> := [];
      for j := 0 to |subset|
        invariant |annotated| == j
        invariant forall k | 0 <= k < j ::
          (subset[k].Dict? && annotated[k] == SetItem(subset[k], AnnotationKey, parentId).value)
      {
        var child := SetItem(subset[j], AnnotationKey, parentId);
        if child.Err? {
          return Err(child.error);
        }
        annotated := annotated + [child.value];
      }
      assert annotated == Annotated(subset, parentId).value;
      subset := annotated;
    }
    if capture {
      return Ok(Pairs(parentId, subset));
    }
    return Ok(subset);
  }

  // ---------------------------------------------------------------------------
  // Properties of the per-parent enumeration.

  /** With no parent key in the arguments and no parents, nothing is enumerated and the result is empty. */
  lemma ChildFilterBailsOut(rt: ResourceType, enumerate: Record -> seq<Value>, parentIdField: string,
                            params: Record, capture: bool)
    requires !Has(ChildEnumParams(params, rt.extraArgs), rt.parentKey)
    ensures ChildFilterSpec(rt, enumerate, [], parentIdField, [], params, capture) == Ok([])
  {
  }

  /** One parent contributes exactly its own per-parent result. */
  lemma ChildrenSingle(rt: ResourceType, enumerate: Record -> seq<Value>, params: Record,
                       parentId: Value, capture: bool)
    ensures Children(rt, enumerate, params, [parentId], capture) == PerParent(rt, enumerate, params, parentId, capture)
  {
    var f := PerParentOf(rt, enumerate, params, capture);
    assert [parentId][..0] == [];
    assert FlatMapOrFail([parentId][..0], f) == Ok([]);
    assert f(parentId) == PerParent(rt, enumerate, params, parentId, capture);
    if f(parentId).Ok? {
      assert [] + f(parentId).value == f(parentId).value;
    }
  }

  /**
   * The shape of one parent's contribution: with `capture_parent_id` every
   * element is a `(parent_id, child)` pair; with annotation every child is a
   * record carrying the parent id under `c7n:parent-id`.
   */
  lemma PerParentShape(rt: ResourceType, enumerate: Record -> seq<Value>, params: Record,
                       parentId: Value, capture: bool, x: Value)
    requires PerParent(rt, enumerate, params, parentId, capture).Ok?
    requires x in PerParent(rt, enumerate, params, parentId, capture).value
    ensures capture ==> x.Tuple? && |x.elems| == 2 && x.elems[0] == parentId
    ensures var child := if capture then x.elems[1] else x;
      rt.annotateParent ==> child.Dict? && DictGet(child.fields, AnnotationKey) == parentId
  {
    var subset := enumerate(GetParentParameters(params, parentId, rt.parentKey));
    var children := if rt.annotateParent then Annotated(subset, parentId).value else subset;
    var i :| 0 <= i < |children| && x == (if capture then Pairs(parentId, children)[i] else children[i]);
    if rt.annotateParent {
      assert subset[i].Dict?;
    }
  }

  /**
   * With `capture_parent_id` every result is a `(parent_id, child)` pair
   * whose parent is one of the queried parents; with annotation the child
   * also carries that parent id under `c7n:parent-id`.
   */
  lemma ChildrenCaptureParent(rt: ResourceType, enumerate: Record -> seq<Value>,
                              params: Record, parentIds: seq<Value>)
    requires Children(rt, enumerate, params, parentIds, true).Ok?
    ensures forall x | x in Children(rt, enumerate, params, parentIds, true).value ::
      x.Tuple? && |x.elems| == 2 && x.elems[0] in parentIds &&
      (rt.annotateParent ==> x.elems[1].Dict? && DictGet(x.elems[1].fields, AnnotationKey) == x.elems[0])
  {
    var f := PerParentOf(rt, enumerate, params, true);
    forall x | x in Children(rt, enumerate, params, parentIds, true).value
      ensures x.Tuple? && |x.elems| == 2 && x.elems[0] in parentIds
      ensures rt.annotateParent ==> x.elems[1].Dict? && DictGet(x.elems[1].fields, AnnotationKey) == x.elems[0]
    {
      FlatMapMember(parentIds, f, x);
      var i :| 0 <= i < |parentIds| && x in f(parentIds[i]).value;
      PerParentShape(rt, enumerate, params, parentIds[i], true, x);
    }
  }

  /** Without capture, an annotating type returns records each tagged with one of the queried parent ids. */
  lemma ChildrenAnnotated(rt: ResourceType, enumerate: Record -> seq<Value>,
                          params: Record, parentIds: seq<Value>)
    requires rt.annotateParent
    requires Children(rt, enumerate, params, parentIds, false).Ok?
    ensures forall x | x in Children(rt, enumerate, params, parentIds, false).value ::
      x.Dict? && DictGet(x.fields, AnnotationKey) in parentIds
  {
    var f := PerParentOf(rt, enumerate, params, false);
    forall x | x in Children(rt, enumerate, params, parentIds, false).value
      ensures x.Dict? && DictGet(x.fields, AnnotationKey) in parentIds
    {
      FlatMapMember(parentIds, f, x);
      var i :| 0 <= i < |parentIds| && x in f(parentIds[i]).value;
      PerParentShape(rt, enumerate, params, parentIds[i], false, x);
    }
  }
}
