/**
 * `MaxResourceLimit` (c7n/query.py): the guard that stops a policy which
 * selected more resources than its `max-resources` or
 * `max-resources-percent` setting allows.
 *
 * The default operator comes from the `C7N_MAXRES_OP` environment variable
 * (`or` when unset); here it is the parameter `defaultOp`.
 */
module ResourceLimits {
  import opened Common
  import Text

  /** The policy's `max-resources`: absent, a number, or a mapping with `op`, `percent` and `amount`. */
  datatype MaxResources =
    | Unset
    | Amount(n: int)
    | Spec(op: Option<string>, percent: Option<real>, amount: Option<int>)

  /** The parts of a policy the limit reads; `maxResourcesPercent` is `None` unless it is a number. */
  datatype Policy = Policy(name: string, maxResources: MaxResources, maxResourcesPercent: Option<real>)

  /** `population_count * (percent / 100.0)` */
  function PercentageOf(population: int, percent: real): real
  {
    population as real * (percent / 100.0)
  }

  /** Python truth of an optional number. */
  predicate IntSet(x: Option<int>) { x.Some? && x.value != 0 }
  predicate RealSet(x: Option<real>) { x.Some? && x.value != 0.0 }

  class MaxResourceLimit {
    const policy: Policy
    var op: string
    var selectionCount: int
    var populationCount: int
    var amount: Option<int>
    var percent: Option<real>
    var percentageAmount: Option<real>

    /** `__init__`: every limit unset and the default operator, then `_parse_policy`. */
    constructor (policy: Policy, selectionCount: int, populationCount: int, defaultOp: string)
      ensures this.policy == policy
      ensures this.selectionCount == selectionCount && this.populationCount == populationCount
      ensures op == (if policy.maxResources.Spec? then Text.Lower(policy.maxResources.op.GetOr(defaultOp)) else defaultOp)
      ensures amount == match policy.maxResources
        case Spec(_, _, a) => a
        case Amount(n) => Some(n)
        case Unset => None
      ensures percent == if policy.maxResourcesPercent.Some? then policy.maxResourcesPercent
        else if policy.maxResources.Spec? then policy.maxResources.percent
        else None
      ensures RealSet(percent) ==> percentageAmount == Some(PercentageOf(populationCount, percent.value))
      ensures !RealSet(percent) ==> percentageAmount == None
    {
      this.policy := policy;
      op := defaultOp;
      this.selectionCount := selectionCount;
      this.populationCount := populationCount;
      amount := None;
      percentageAmount := None;
      percent := None;
      new;
      ParsePolicy(defaultOp);
    }

    /**
     * `_parse_policy`: a mapping sets the operator (lower-cased), percent
     * and amount; a number sets the amount; a numeric
     * `max-resources-percent` overrides the percent; a non-zero percent
     * fixes the percentage amount of the population.
     */
    method ParsePolicy(defaultOp: string)
      modifies this
      ensures selectionCount == old(selectionCount) && populationCount == old(populationCount)
      ensures op == (if policy.maxResources.Spec? then Text.Lower(policy.maxResources.op.GetOr(defaultOp)) else old(op))
      ensures amount == match policy.maxResources
        case Spec(_, _, a) => a
        case Amount(n) => Some(n)
        case Unset => old(amount)
      ensures percent == if policy.maxResourcesPercent.Some? then policy.maxResourcesPercent
        else if policy.maxResources.Spec? then policy.maxResources.percent
        else old(percent)
      ensures RealSet(percent) ==> percentageAmount == Some(PercentageOf(populationCount, percent.value))
      ensures !RealSet(percent) ==> percentageAmount == old(percentageAmount)
    {
      match policy.maxResources {
        case Spec(o, p, a) =>
          op := Text.Lower(o.GetOr(defaultOp));
          percent := p;
          amount := a;
        case Amount(n) =>
          amount := Some(n);
        case Unset =>
      }
      if policy.maxResourcesPercent.Some? {
        percent := policy.maxResourcesPercent;
      }
      if RealSet(percent) {
        percentageAmount := Some(PercentageOf(populationCount, percent.value));
      }
    }

    predicate OverAmount()
      reads this
    {
      IntSet(amount) && selectionCount > amount.value
    }

    predicate OverPercentage()
      reads this
    {
      RealSet(percentageAmount) && selectionCount as real > percentageAmount.value
    }

    /**
     * `check_resource_limits`. With operator `and` it raises only when both
     * limits are set and the selection exceeds both; with any other
     * operator it raises when the selection exceeds either limit that is
     * set, reporting the amount limit first.
     */
    method CheckResourceLimits() returns (r: Result<()>)
      ensures op == "and" ==> (r.Err? <==> OverAmount() && OverPercentage())
      ensures op != "and" ==> (r.Err? <==> OverAmount() || OverPercentage())
      ensures r.Err? && op == "and" ==> r.error == ResourceLimitExceeded("max-resource and max-percent")
      ensures r.Err? && op != "and" && OverAmount() ==> r.error == ResourceLimitExceeded("max-resource")
      ensures r.Err? && op != "and" && !OverAmount() ==> r.error == ResourceLimitExceeded("max-percent")
    {
      if RealSet(percentageAmount) && IntSet(amount) {
        if selectionCount > amount.value && selectionCount as real > percentageAmount.value && op == "and" {
          return Err(ResourceLimitExceeded("max-resource and max-percent"));
        }
      }
      if IntSet(amount) {
        if selectionCount > amount.value && op != "and" {
          return Err(ResourceLimitExceeded("max-resource"));
        }
      }
      if RealSet(percentageAmount) {
        if selectionCount as real > percentageAmount.value && op != "and" {
          return Err(ResourceLimitExceeded("max-percent"));
        }
      }
      return Ok(());
    }
  }
}
