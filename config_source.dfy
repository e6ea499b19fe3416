/**
 * `ConfigSource` (c7n/query.py): the AWS Config source. Modelled here are
 * the select expression it sends and the normalisation of the many tag
 * layouts Config reports into a `Tags` list of `{Key, Value}` records.
 *
 * `str()` of a non-string clause and `json.loads` of a string tag set are
 * the parameters `str` and `parseJson`.
 */
module ConfigSource {
  import opened Common
  import opened Values
  import opened Seqs

  /** The select statement used when the policy gives no full expression. */
  function DefaultExpr(configType: string): string
  {
    "select resourceId, configuration, supplementaryConfiguration where resourceType = '" + configType + "'"
  }

  /** `k in q` for an entry of the policy's `query` list. */
  function HasKey(q: Value, k: string): (r: Result<bool>)
    ensures r.Ok? <==> q.Dict?
    ensures r == Ok(true) <==> q.Dict? && Has(q.fields, k)
  {
    if q.Dict? then Ok(Has(q.fields, k)) else Err(TypeError)
  }

  /** The text a clause contributes to the expression: a string as is, anything else through `str`. */
  function ClauseText(clause: Value, str: Value -> string): string
  {
    if clause.Str? then clause.s else str(clause)
  }

  /** `{'expr': s}` for the default statement, extended by `"AND " + clause` when the clause is truthy. */
  function BuildExpr(configType: string, clause: Value, str: Value -> string): (r: Value)
    ensures r.Dict? && Has(r.fields, "expr") && DictGet(r.fields, "expr").Str?
    ensures DefaultExpr(configType) <= DictGet(r.fields, "expr").s
    ensures !Truthy(clause) ==> DictGet(r.fields, "expr").s == DefaultExpr(configType)
    ensures Truthy(clause) ==>
      DictGet(r.fields, "expr").s == DefaultExpr(configType) + "AND " + ClauseText(clause, str)
  {
    var s := DefaultExpr(configType);
    var full := if Truthy(clause) then s + "AND " + ClauseText(clause, str) else s;
    assert Init([("expr", Str(full))]) == [];
    Dict([("expr", Str(full))])
  }

  /** The policy's `query` entries carrying `key`, in policy order. */
  function EntriesWith(items: seq<Value>, key: string): Result<seq<Value>>
  {
    FilterOrFail(items, (q: Value) => HasKey(q, key))
  }

  /**
   * `get_query_params`. A truthy `query` must be a mapping and is returned
   * as given. Otherwise the policy's last `query` entry holding a full
   * `expr` is returned; failing that, the default statement extended by
   * the last `clause`; with no policy `query` at all, the default statement.
   */
  function GetQueryParams(configType: string, data: Record, query: Value, str: Value -> string): (r: Result<Value>)
    ensures Truthy(query) && !query.Dict? ==> r == Err(PolicyExecutionError)
    ensures Truthy(query) && query.Dict? ==> r == Ok(query)
    ensures !Truthy(query) && (query != Null || !Has(data, "query")) ==> r == Ok(BuildExpr(configType, Null, str))
    ensures r.Ok? ==> r.value.Dict? && (r.value == query || Has(r.value.fields, "expr"))
  {
    if Truthy(query) && !query.Dict? then Err(PolicyExecutionError)
    else if query == Null && Has(data, "query") then
      var entries := DictGet(data, "query");
      if !entries.List? then Err(TypeError)
      else match EntriesWith(entries.items, "expr")
        case Err(e) => Err(e)
        case Ok(exprs) =>
          if exprs != [] then
            assert exprs[|exprs| - 1] in exprs;
            Ok(exprs[|exprs| - 1])
          else match EntriesWith(entries.items, "clause")
            case Err(e) => Err(e)
            case Ok(clauses) =>
              if clauses != [] then
                var last := clauses[|clauses| - 1];
                assert last in clauses;
                Ok(BuildExpr(configType, DictGet(last.fields, "clause"), str))
              else
                Ok(BuildExpr(configType, List([]), str))
    else if Truthy(query) then Ok(query)
    else Ok(BuildExpr(configType, Null, str))
  }

  /** Entries without `key` after the last one that has it do not change which entry is last. */
  lemma LastEntryWith(pre: seq<Value>, e: Value, post: seq<Value>, key: string)
    requires forall i | 0 <= i < |pre| :: pre[i].Dict?
    requires e.Dict? && Has(e.fields, key)
    requires forall i | 0 <= i < |post| :: post[i].Dict? && !Has(post[i].fields, key)
    ensures EntriesWith(pre + [e] + post, key).Ok?
    ensures var found := EntriesWith(pre + [e] + post, key).value; found != [] && found[|found| - 1] == e
  {
    var items := pre + [e] + post;
    assert forall i | 0 <= i < |items| :: items[i].Dict?;
    FilterLast(pre, e, post, Passes((q: Value) => HasKey(q, key)));
  }

  /** The last policy entry holding a full expression is the query used. */
  lemma LastExprWins(configType: string, data: Record, pre: seq<Value>, e: Value, post: seq<Value>, str: Value -> string)
    requires DictGet(data, "query") == List(pre + [e] + post) && Has(data, "query")
    requires forall i | 0 <= i < |pre| :: pre[i].Dict?
    requires e.Dict? && Has(e.fields, "expr")
    requires forall i | 0 <= i < |post| :: post[i].Dict? && !Has(post[i].fields, "expr")
    ensures GetQueryParams(configType, data, Null, str) == Ok(e)
  {
    LastEntryWith(pre, e, post, "expr");
  }

  /** Without a full expression, the last clause extends the default statement. */
  lemma LastClauseWins(configType: string, data: Record, pre: seq<Value>, c: Value, post: seq<Value>, str: Value -> string)
    requires DictGet(data, "query") == List(pre + [c] + post) && Has(data, "query")
    requires forall i | 0 <= i < |pre| :: pre[i].Dict? && !Has(pre[i].fields, "expr")
    requires c.Dict? && Has(c.fields, "clause") && !Has(c.fields, "expr")
    requires forall i | 0 <= i < |post| :: post[i].Dict? && !Has(post[i].fields, "expr") && !Has(post[i].fields, "clause")
    ensures GetQueryParams(configType, data, Null, str) == Ok(BuildExpr(configType, DictGet(c.fields, "clause"), str))
  {
    var items := pre + [c] + post;
    assert forall i | 0 <= i < |items| :: items[i].Dict? && !Has(items[i].fields, "expr");
    FilterNone(items, Passes((q: Value) => HasKey(q, "expr")));
    LastEntryWith(pre, c, post, "clause");
  }

  // ---------------------------------------------------------------------------
  // Tags

  /** `[{'Key': k, 'Value': v} for k, v in d.items()]` */
  function ItemTags(d: Record): (r: seq<Value>)
    ensures |r| == |d|
    ensures forall i | 0 <= i < |d| :: r[i] == Dict([("Key", Str(d[i].0)), ("Value", d[i].1)])
  {
    seq(|d|, i requires 0 <= i < |d| => Dict([("Key", Str(d[i].0)), ("Value", d[i].1)]))
  }

  /** `t.get(k, t.get(alt))` */
  function GetEither(t: Record, k: string, alt: string): Value
  {
    if Has(t, k) then DictGet(t, k) else DictGet(t, alt)
  }

  /** One entry of a supplementary tag list, keyed `key`/`value` or `tagKey`/`tagValue`. */
  function ListTag(t: Value): Result<Value>
  {
    if t.Dict? then Ok(Dict([("Key", GetEither(t.fields, "key", "tagKey")), ("Value", GetEither(t.fields, "value", "tagValue"))]))
    else Err(AttributeError)
  }

  /** A supplementary tag list normalised entry by entry; `.get` on a non-mapping entry raises. */
  function ListTags(stags: seq<Value>): (r: Result<seq<Value>>)
    ensures r.Ok? <==> forall i | 0 <= i < |stags| :: stags[i].Dict?
    ensures r.Ok? ==> |r.value| == |stags| && forall i | 0 <= i < |stags| :: r.value[i] == ListTag(stags[i]).value
  {
    if forall i | 0 <= i < |stags| :: stags[i].Dict? then
      Ok(seq(|stags|, i requires 0 <= i < |stags| => ListTag(stags[i]).value))
    else Err(AttributeError)
  }

  /**
   * The `Tags` value `_load_resource_tags` stores, `None` when it stores
   * nothing, or the error it raises.
   */
  function NormalizedTags(resource: Record, item: Record, parseJson: string -> Value): Result<Option<Value>>
  {
    if Has(resource, "Tags") then Ok(None)
    else if Truthy(DictGet(item, "tags")) then
      var tags := DictGet(item, "tags");
      if tags.Dict? then Ok(Some(List(ItemTags(tags.fields)))) else Err(AttributeError)
    else match Subscript(Dict(item), "supplementaryConfiguration")
      case Err(e) => Err(e)
      case Ok(supplementary) =>
        if !supplementary.Dict? then Err(AttributeError)
        else
          var stags0 := DictGet(supplementary.fields, "Tags");
          if !Truthy(stags0) then Ok(None)
          else
            var stags := if stags0.Str? then parseJson(stags0.s) else stags0;
            if stags.List? then
              match ListTags(stags.items)
              case Err(e) => Err(e)
              case Ok(tags) => Ok(Some(List(tags)))
            else if stags.Dict? then Ok(Some(List(ItemTags(stags.fields))))
            else Ok(None)
  }

  /** Tag records from `.items()`: each has exactly `Key` and `Value`, in the source's order. */
  lemma ItemTagsShape(d: Record, i: nat)
    requires i < |d|
    ensures var t := ItemTags(d)[i];
      t.Dict? && DictGet(t.fields, "Key") == Str(d[i].0) && DictGet(t.fields, "Value") == d[i].1
  {
    var f := [("Key", Str(d[i].0)), ("Value", d[i].1)];
    assert Init(f) == [("Key", Str(d[i].0))];
    assert Init(Init(f)) == [];
  }

  /**
   * A normalised tag of a supplementary list takes `key` (or else
   * `tagKey`) as its `Key` and `value` (or else `tagValue`) as its `Value`.
   */
  lemma ListTagShape(t: Value)
    requires t.Dict?
    ensures ListTag(t).Ok?
    ensures var n := ListTag(t).value;
      && n.Dict? && Has(n.fields, "Key") && Has(n.fields, "Value")
      && DictGet(n.fields, "Key") == (if Has(t.fields, "key") then DictGet(t.fields, "key") else DictGet(t.fields, "tagKey"))
      && DictGet(n.fields, "Value") == (if Has(t.fields, "value") then DictGet(t.fields, "value") else DictGet(t.fields, "tagValue"))
  {
    var f := ListTag(t).value.fields;
    assert Init(f) == [f[0]];
    assert Init(Init(f)) == [];
  }

  /** A normalised tag: a record with exactly the keys `Key` and `Value`. */
  ghost predicate TagRecord(t: Value)
  {
    && t.Dict?
    && Has(t.fields, "Key") && Has(t.fields, "Value")
    && forall k | Has(t.fields, k) :: k == "Key" || k == "Value"
  }

  /** The normalised `Tags` layout: a list of tag records. */
  ghost predicate TagList(v: Value)
  {
    v.List? && forall i | 0 <= i < |v.items| :: TagRecord(v.items[i])
  }

  lemma KeyValueRecord(key: Value, value: Value)
    ensures TagRecord(Dict([("Key", key), ("Value", value)]))
  {
    var f := [("Key", key), ("Value", value)];
    assert Init(f) == [f[0]];
    assert Init(Init(f)) == [];
    forall k | Has(f, k) ensures k == "Key" || k == "Value" {
      if k != "Value" {
        assert Has(Init(f), k);
        assert !Has(Init(Init(f)), k);
      }
    }
  }

  /**
   * What `_load_resource_tags` decides: an existing `Tags` is left alone;
   * otherwise the item's own `tags` mapping takes precedence over the
   * supplementary configuration; whatever is stored is a list of records
   * with exactly the keys `Key` and `Value`.
   */
  lemma {:induction false} NormalizedTagsMeaning(resource: Record, item: Record, parseJson: string -> Value)
    ensures Has(resource, "Tags") ==> NormalizedTags(resource, item, parseJson) == Ok(None)
    ensures !Has(resource, "Tags") && Truthy(DictGet(item, "tags")) && DictGet(item, "tags").Dict? ==>
      NormalizedTags(resource, item, parseJson) == Ok(Some(List(ItemTags(DictGet(item, "tags").fields))))
    ensures var tags := NormalizedTags(resource, item, parseJson);
      tags.Ok? && tags.value.Some? ==> TagList(tags.value.value)
  {
    var tags := NormalizedTags(resource, item, parseJson);
    if tags.Ok? && tags.value.Some? {
      var v := tags.value.value;
      forall i | 0 <= i < |v.items| ensures TagRecord(v.items[i]) {
        if Truthy(DictGet(item, "tags")) {
          var d := DictGet(item, "tags").fields;
          KeyValueRecord(Str(d[i].0), d[i].1);
        } else {
          var stags0 := DictGet(Subscript(Dict(item), "supplementaryConfiguration").value.fields, "Tags");
          var stags := if stags0.Str? then parseJson(stags0.s) else stags0;
          if stags.List? {
            var t := stags.items[i];
            KeyValueRecord(GetEither(t.fields, "key", "tagKey"), GetEither(t.fields, "value", "tagValue"));
          } else {
            KeyValueRecord(Str(stags.fields[i].0), stags.fields[i].1);
          }
        }
      }
    }
  }

  /** A resource (a mutable dict) built from a Config item. */
  class Resource {
    var fields: Record

    constructor (fields: Record)
      ensures this.fields == fields
    {
      this.fields := fields;
    }

    /**
     * `_load_resource_tags`: unless the resource already has `Tags`, store
     * the item's tags in the normalised layout. Every other key of the
     * resource keeps its value; on an error the resource is unchanged.
     */
    method LoadResourceTags(item: Record, parseJson: string -> Value) returns (r: Result<()>)
      modifies this
      ensures var tags := NormalizedTags(old(fields), item, parseJson);
        && (r.Ok? <==> tags.Ok?)
        && (tags.Ok? && tags.value.Some? ==> fields == Set(old(fields), "Tags", tags.value.value))
        && (tags.Err? || tags.value.None? ==> fields == old(fields))
      ensures Has(old(fields), "Tags") ==> fields == old(fields)
      ensures forall k | k != "Tags" :: Has(fields, k) == Has(old(fields), k) && DictGet(fields, k) == DictGet(old(fields), k)
      ensures !Has(old(fields), "Tags") && Has(fields, "Tags") ==> TagList(DictGet(fields, "Tags"))
    {
      NormalizedTagsMeaning(fields, item, parseJson);
      var tags := NormalizedTags(fields, item, parseJson);
      if tags.Err? {
        return Err(tags.error);
      }
      if tags.value.Some? {
        SetAll(fields, "Tags", tags.value.value);
        fields := Set(fields, "Tags", tags.value.value);
      }
      return Ok(());
    }
  }
}
