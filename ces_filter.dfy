/**
 * The Huawei Cloud Eye `alarm-namespace-metric` filter
 * (`AlarmNameSpaceAndMetricFilter`, filters/ces.py): keep the alarm rules
 * whose namespace is listed and which watch at least one listed metric.
 */
module AlarmFilter {
  import opened Common
  import opened Values
  import opened Seqs

  /** The filter's parameters, both required lists of strings. */
  datatype Config = Config(namespaces: seq<string>, metricNames: seq<string>)

  /** A list of strings, or `None` when the value is anything else. */
  function StringList(v: Value): (r: Option<seq<string>>)
    ensures r.Some? <==> v.List? && forall i | 0 <= i < |v.items| :: v.items[i].Str?
    ensures r.Some? ==> |r.value| == |v.items| && forall i | 0 <= i < |v.items| :: v.items[i] == Str(r.value[i])
  {
    if v.List? && forall i | 0 <= i < |v.items| :: v.items[i].Str? then
      Some(seq(|v.items|, i requires 0 <= i < |v.items| => v.items[i].s))
    else None
  }

  /** The schema: `namespaces` and `metric_names` must both be present, each an array of strings. */
  function ParseConfig(data: Record): (r: Result<Config>)
    ensures r.Ok? <==> Has(data, "namespaces") && StringList(DictGet(data, "namespaces")).Some? &&
                       Has(data, "metric_names") && StringList(DictGet(data, "metric_names")).Some?
    ensures r.Ok? ==> Strs(r.value.namespaces) == DictGet(data, "namespaces").items
    ensures r.Ok? ==> Strs(r.value.metricNames) == DictGet(data, "metric_names").items
    ensures !Has(data, "namespaces") || StringList(DictGet(data, "namespaces")).None? ==> r == Err(SchemaError("namespaces"))
  {
    var ns := if Has(data, "namespaces") then StringList(DictGet(data, "namespaces")) else None;
    var ms := if Has(data, "metric_names") then StringList(DictGet(data, "metric_names")) else None;
    if ns.None? then Err(SchemaError("namespaces"))
    else if ms.None? then Err(SchemaError("metric_names"))
    else Ok(Config(ns.value, ms.value))
  }

  /** `policy.get('metric_name') in metric_names` for one policy; `.get` on a non-mapping raises. */
  function WatchesMetric(policy: Value, metricNames: seq<string>): Result<bool>
  {
    if policy.Dict? then Ok(InStrings(DictGet(policy.fields, "metric_name"), metricNames)) else Err(AttributeError)
  }

  /** `any(...)` over the policies: stops at the first policy that watches a listed metric. */
  function AnyPolicy(policies: seq<Value>, metricNames: seq<string>): Result<bool>
  {
    if policies == [] then Ok(false)
    else match WatchesMetric(policies[0], metricNames)
      case Err(e) => Err(e)
      case Ok(true) => Ok(true)
      case Ok(false) => AnyPolicy(policies[1..], metricNames)
  }

  /**
   * `any` is true only when some policy watches a listed metric, and over
   * a list of mappings it is exactly that existential.
   */
  lemma {:induction false} AnyPolicyIff(policies: seq<Value>, metricNames: seq<string>)
    ensures AnyPolicy(policies, metricNames) == Ok(true) ==>
      exists i | 0 <= i < |policies| :: WatchesMetric(policies[i], metricNames) == Ok(true)
    ensures (forall i | 0 <= i < |policies| :: policies[i].Dict?) ==>
      AnyPolicy(policies, metricNames) == Ok(exists i | 0 <= i < |policies| :: WatchesMetric(policies[i], metricNames) == Ok(true))
  {
    if policies != [] {
      AnyPolicyIff(policies[1..], metricNames);
      assert forall i | 1 <= i < |policies| :: policies[i] == policies[1..][i - 1];
    }
  }

  /** `alarm.get('policies', [])` */
  function Policies(alarm: Record): Value
  {
    if Has(alarm, "policies") then DictGet(alarm, "policies") else List([])
  }

  /** The test applied to one alarm: namespace listed and some policy watching a listed metric. */
  function Matches(config: Config, alarm: Value): Result<bool>
  {
    if !alarm.Dict? then Err(AttributeError)
    else
      var namespaceMatch := InStrings(DictGet(alarm.fields, "namespace"), config.namespaces);
      match Iterate(Policies(alarm.fields))
      case Err(e) => Err(e)
      case Ok(policies) =>
        match AnyPolicy(policies, config.metricNames)
        case Err(e) => Err(e)
        case Ok(metricMatch) => Ok(namespaceMatch && metricMatch)
  }

  /** An alarm whose record the filter can evaluate: a mapping whose policies, if any, form a list of mappings. */
  predicate WellFormed(alarm: Value)
  {
    && alarm.Dict?
    && Policies(alarm.fields).List?
    && forall i | 0 <= i < |Policies(alarm.fields).items| :: Policies(alarm.fields).items[i].Dict?
  }

  /** The documented selection rule, stated directly on the record. */
  predicate Qualifies(config: Config, alarm: Value)
  {
    && alarm.Dict?
    && InStrings(DictGet(alarm.fields, "namespace"), config.namespaces)
    && Policies(alarm.fields).List?
    && exists p | p in Policies(alarm.fields).items ::
         p.Dict? && InStrings(DictGet(p.fields, "metric_name"), config.metricNames)
  }

  /** The alarms `process` keeps. */
  function Kept(config: Config): Value -> bool
  {
    Passes((a: Value) => Matches(config, a))
  }

  /**
   * `process`: the alarms that match, in input order, each as it was
   * given; the first alarm whose evaluation raises aborts the filter.
   * The loop appending to `matched` is `FilterLoop`.
   */
  method Process(config: Config, resources: seq<Value>) returns (r: Result<seq<Value>>)
    ensures r.Ok? <==> forall i | 0 <= i < |resources| :: Matches(config, resources[i]).Ok?
    ensures r.Ok? ==> r.value == Filter(resources, Kept(config))
    ensures r.Ok? ==> IsSubseq(r.value, resources)
    ensures r.Err? ==> exists i | 0 <= i < |resources| ::
      Matches(config, resources[i]) == Err(r.error) && forall j | 0 <= j < i :: Matches(config, resources[j]).Ok?
  {
    r := FilterLoop(resources, (alarm: Value) => Matches(config, alarm));
    FilterIsSubseq(resources, Kept(config));
  }

  // ---------------------------------------------------------------------------
  // Properties

  /** An alarm is kept iff its namespace is listed and one of its policies watches a listed metric. */
  lemma KeptIff(config: Config, alarm: Value)
    requires WellFormed(alarm)
    ensures Matches(config, alarm).Ok?
    ensures Kept(config)(alarm) <==> Qualifies(config, alarm)
  {
    var policies := Policies(alarm.fields).items;
    AnyPolicyIff(policies, config.metricNames);
    if exists p | p in policies :: p.Dict? && InStrings(DictGet(p.fields, "metric_name"), config.metricNames) {
      var p :| p in policies && p.Dict? && InStrings(DictGet(p.fields, "metric_name"), config.metricNames);
      var i :| 0 <= i < |policies| && policies[i] == p;
      assert WatchesMetric(policies[i], config.metricNames) == Ok(true);
    }
  }

  /** Over well-formed alarms `process` succeeds and keeps exactly the matching alarms, in order. */
  lemma ProcessKeepsMatching(config: Config, resources: seq<Value>)
    requires forall i | 0 <= i < |resources| :: WellFormed(resources[i])
    ensures forall i | 0 <= i < |resources| :: Matches(config, resources[i]).Ok?
    ensures IsSubseq(Filter(resources, Kept(config)), resources)
    ensures forall a :: a in Filter(resources, Kept(config)) <==> a in resources && Qualifies(config, a)
  {
    forall i | 0 <= i < |resources| ensures Matches(config, resources[i]).Ok? {
      KeptIff(config, resources[i]);
    }
    FilterIsSubseq(resources, Kept(config));
    FilterMembers(resources, Kept(config));
    forall a | a in resources {
      KeptIff(config, a);
    }
  }

  /** An alarm without policies, or with an empty policy list, is never kept. */
  lemma NoPoliciesNeverKept(config: Config, alarm: Value)
    requires alarm.Dict? && (!Has(alarm.fields, "policies") || DictGet(alarm.fields, "policies") == List([]))
    ensures Matches(config, alarm) == Ok(false)
  {
  }

  /** With no namespaces or no metric names listed, nothing is kept. */
  lemma {:induction false} EmptyListsKeepNothing(config: Config, resources: seq<Value>)
    requires config.namespaces == [] || config.metricNames == []
    ensures Filter(resources, Kept(config)) == []
  {
    if resources != [] {
      EmptyListsKeepNothing(config, resources[1..]);
      var a := resources[0];
      if a.Dict? && Iterate(Policies(a.fields)).Ok? {
        AnyPolicyIff(Iterate(Policies(a.fields)).value, config.metricNames);
      }
    }
  }

  /** Filtering the filter's own output changes nothing. */
  lemma ProcessIdempotent(config: Config, resources: seq<Value>)
    ensures var out := Filter(resources, Kept(config));
      (forall i | 0 <= i < |out| :: Matches(config, out[i]).Ok?) && Filter(out, Kept(config)) == out
  {
    var out := Filter(resources, Kept(config));
    assert forall i | 0 <= i < |out| :: out[i] in out;
    FilterAll(out, Kept(config));
  }
}
