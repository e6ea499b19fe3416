# Cloud Custodian resource selection, modelled in Dafny

This project models two pieces of Cloud Custodian and proves properties of them.

The first is the resource-selection layer of `c7n/query.py`:
- how a resource type is enumerated and fetched by identity (`ResourceQuery`);
- how child resources are listed once per parent (`ChildResourceQuery`);
- how a manager picks its source, matches ids, serves ids from its cache and computes ARNs (`QueryResourceManager`, `ChildResourceManager`);
- the `max-resources` guard (`MaxResourceLimit`);
- the AWS Config source's select expression and tag normalisation (`ConfigSource`);
- the permission-name conversion `_napi`;
- the per-resource detail enrichment `_scalar_augment`.

The second is the Huawei Cloud Eye filter `alarm-namespace-metric` (`AlarmNameSpaceAndMetricFilter`). It keeps the alarm rules whose namespace is listed and which watch at least one listed metric.

Python values are the datatype `Values.Value`: null, booleans, integers, strings, lists, tuples and dicts. A dict is an ordered list of key/value entries (`Values.Record`), so the order of `.items()` is kept. A key's value is its last entry; setting a key replaces every entry for it, or appends one.

Python exceptions become the `Err` case of `Common.Result`. Remote calls are function-valued parameters of the operations that make them. These include the enumeration call, the detail call, the source's `get_resources`, `augment`, `generate_arn`, `json.loads` and `str`.

Where the source changes state in place, the model does too:
- `MaxResourceLimit` is a class whose `ParsePolicy` sets its fields.
- A Config resource is a class whose `LoadResourceTags` stores `Tags`.
- `ChildResourceQuery.filter`, `get_arns`, `_scalar_augment` and the alarm filter's `process` are methods with loops.

Each method is proved against a function that states its result. The properties are then proved about those functions.

Modules and files:
- `common.dfy` (`Common`): `Option`, `Result` and `Error`.
- `values.dfy` (`Values`): the value universe, dict operations and their laws.
- `seqs.dfy` (`Seqs`): order-preserving filters and concatenations that may raise.
- `type_info.dfy` (`TypeInfo`): the resource-type metadata the query layer reads.
- `resource_query.dfy` (`ResourceQuery`), `child_query.dfy` (`ChildQuery`), `query_manager.dfy` (`QueryManager`): the query layer.
- `limits.dfy` (`ResourceLimits`): the resource limit.
- `config_source.dfy` (`ConfigSource`): the Config source.
- `text.dfy` (`Text`): `_napi` and ASCII case mapping.
- `augment.dfy` (`Augment`): `_scalar_augment`.
- `ces_filter.dfy` (`AlarmFilter`): the Cloud Eye alarm filter.

The select expression follows the source as written. The extra clause is appended as `"AND " + clause` directly after the closing quote of the resource type, with no space in between.

## Model

| member | source | states |
|---|---|---|
| ResourceQuery.EnumParams | c7n/query.py:72-74 | The enumeration arguments hold the keys of `extra_args` and of the caller's params. The caller's value wins on a key both define. |
| ResourceQuery.ServerSide | c7n/query.py:83-94 | A server-side filter is used iff the type has a `filter_name` and its `filter_type` is `list`, or `scalar` with exactly one identity. It then sends the identity list or the single identity under `filter_name`. Otherwise the parameters stay empty and filtering is client-side. |
| ResourceQuery.ClientFilter | c7n/query.py:97-106 | The client-side filter returns a subsequence of the fetched results. Which elements it keeps in each of its three branches is stated by `GetFiltersIds`, `GetFiltersPairs` and `GetFiltersRecords`. |
| ResourceQuery.Get | c7n/query.py:79-108 | With a server-side filter, `get` returns exactly what the filtered enumeration returns. With a client-side filter, a result is a subsequence of the unfiltered enumeration. |
| ResourceQuery.GetFiltersRecords | c7n/query.py:96-106 | When client-side filtering fetches records, `get` returns exactly the records whose identity field is one of the identities, in fetched order. |
| ResourceQuery.GetFiltersIds | c7n/query.py:100-101 | When the enumeration returns bare identifiers, `get` returns a subsequence of them. Each requested identifier appears as often as it was fetched, and no other identifier appears. |
| ResourceQuery.GetFiltersPairs | c7n/query.py:103-104 | When the enumeration returns `(parent, record)` pairs, `get` returns exactly the pairs whose record has an identity in `identities`, in fetched order. |
| ResourceQuery.GetPairsUnpackError | c7n/query.py:103-104 | Among fetched tuples, the first one that is not a pair makes the `p, r` unpacking raise `ValueError`. |
| ResourceQuery.GetMissingIdRaises | c7n/query.py:105-106 | A fetched record lacking the identity field makes client-side filtering raise `KeyError`. |
| ChildQuery.ChildEnumParams | c7n/query.py:134-136 | After `params.update(extra_args)`, the arguments hold both key sets and `extra_args` wins. |
| ChildQuery.MergeDirections | c7n/query.py:135-136 | On a key both define, `ResourceQuery.filter` keeps the caller's value and `ChildResourceQuery.filter` keeps `extra_args`' value. |
| ChildQuery.GetParentParameters | c7n/query.py:173-174 | `parent_key` maps to the parent id. Every other key keeps its presence and value from `params`. |
| ChildQuery.ParentIdsMeaning | c7n/query.py:140-146 | Collecting parent ids succeeds iff every parent has an id. It then yields one id per parent in parent order: a string parent is its own id, otherwise its identity field. On failure the error is that of the first parent without an id. |
| ChildQuery.ParentIdsErr | c7n/query.py:142-146 | A parent without an id, after parents that all have one, makes the whole collection raise that parent's error. |
| ChildQuery.CollectParentIds | c7n/query.py:140-146 | The collecting loop returns exactly `ParentIds`. |
| ChildQuery.Annotated | c7n/query.py:163-165 | Annotation succeeds iff every child is a dict. It then yields each child with `c7n:parent-id` set to the parent id, in order. |
| ChildQuery.Pairs | c7n/query.py:167-168 | `(parent_id, child)` for every child, in order. |
| ChildQuery.QueryParent | c7n/query.py:160-170 | One parent's enumeration, annotated and paired as configured, returns exactly `PerParent`. |
| ChildQuery.QueryParents | c7n/query.py:158-171 | The loop over parent ids returns the per-parent results concatenated in parent-id order. The first error aborts it. |
| ChildQuery.ChildFilter | c7n/query.py:126-171 | `filter` returns exactly `ChildFilterSpec`. Without given ids, the parent ids are collected first. Without the parent key and without parent ids it returns `[]`. With the parent key already in the arguments it makes a single enumeration. Otherwise it concatenates the per-parent results. |
| ChildQuery.ChildFilterBailsOut | c7n/query.py:148-151 | With no parent key in the arguments and no parents, the result is `[]`. |
| ChildQuery.ChildrenSingle | c7n/query.py:158-171 | With one parent, the result is exactly that parent's contribution. |
| ChildQuery.PerParentShape | c7n/query.py:163-170 | With `capture_parent_id`, every element a parent contributes is a pair whose first item is that parent. With annotation, every child carries the parent id under `c7n:parent-id`. |
| ChildQuery.ChildrenCaptureParent | c7n/query.py:158-171 | With `capture_parent_id`, every result is a `(parent_id, child)` pair whose parent is one of the queried parents. With annotation, the child also carries that id. |
| ChildQuery.ChildrenAnnotated | c7n/query.py:158-171 | Without capture, an annotating type returns records each tagged with one of the queried parent ids. |
| QueryManager.ChildSourceType | c7n/query.py:711-716 | The policy's `source`, with both absence and `describe` mapped to `describe-child`. It is never `describe`. |
| QueryManager.GetSource | c7n/query.py:480-485 | Resolution succeeds iff the name is in the manager's mapping or in the registry, and the manager's mapping is consulted first. An unhashable name raises `TypeError`. |
| QueryManager.DefaultSourceResolution | c7n/query.py:476-485 | With the default registry, a manager with no `source` describes. A child manager with no `source` or with `describe` describes its children. `config` gives the Config source for both. A manager with a `source` resolves exactly that name. |
| QueryManager.MatchIds | c7n/query.py:501-507 | Without a prefix, all ids. With one, a subsequence of the input in which every id starting with the prefix appears as often as in the input and no other id appears. |
| QueryManager.CachedSubset | c7n/query.py:566-575 | No cache entry gives `None`. Otherwise the result is a subsequence of the cached records, and it succeeds iff every cached record can be tested. |
| QueryManager.CachedSubsetRecords | c7n/query.py:573-574 | Over well-formed cached records, the subset is exactly the records whose id is requested, in cache order. |
| QueryManager.CachedSubsetMissingId | c7n/query.py:574 | A cached record lacking the id field makes the lookup raise. |
| QueryManager.GetResources | c7n/query.py:577-591 | No ids give `[]` without consulting the cache or the source. A cache hit is returned as is. A `ClientError` from the source gives `[]`. Without augmentation the source's result is returned. A `ClientError` never escapes. |
| QueryManager.LooksLikeArn | c7n/query.py:631 | For a string id: whether it starts with `arn`. For a list or tuple: whether `"arn"` is one of its first three items. Other values raise `TypeError`. |
| QueryManager.ArnOf | c7n/query.py:625-634 | With an `arn` path, the value at that path. Otherwise the id is passed through when it looks like an ARN and given to `generate_arn` when it does not. An id that cannot be sliced raises. |
| QueryManager.GetArns | c7n/query.py:617-636 | `arn` set to `False` raises `ValueError`. Otherwise the result is one ARN per resource, in order, and it succeeds iff every resource has one. On failure the error is that of the first resource that fails. |
| ResourceLimits.MaxResourceLimit.constructor | c7n/query.py:657-665 | The limit after `__init__` and `_parse_policy`: its operator, amount, percent and percentage amount as the policy sets them. |
| ResourceLimits.MaxResourceLimit.ParsePolicy | c7n/query.py:667-680 | A mapping sets the lower-cased operator, percent and amount. A number sets the amount. A numeric `max-resources-percent` overrides the percent. A non-zero percent sets the percentage amount to population × percent / 100. Nothing else changes. |
| ResourceLimits.MaxResourceLimit.CheckResourceLimits | c7n/query.py:682-704 | With operator `and`, it raises iff both limits are set and the selection exceeds both. With any other operator, it raises iff the selection exceeds a set amount or a set percentage amount. The amount is reported first. Each case has its own error kind. |
| ConfigSource.HasKey | c7n/query.py:340 | `k in q` succeeds iff the entry is a dict and is true iff the dict has the key. |
| ConfigSource.BuildExpr | c7n/query.py:353-359 | The expression always starts with the default select statement. It is extended by `AND` and the clause exactly when the clause is truthy. |
| ConfigSource.GetQueryParams | c7n/query.py:324-359 | A truthy non-dict query raises `PolicyExecutionError`. A truthy dict is returned as is. Without any policy query, the default statement is returned. Every result is a dict carrying `expr` or is the given query. |
| ConfigSource.LastEntryWith | c7n/query.py:340-347 | Among the policy's query entries, the last one holding the key is the one `pop()` selects. |
| ConfigSource.LastExprWins | c7n/query.py:339-342 | The policy's last entry holding a full `expr` is the query used. |
| ConfigSource.LastClauseWins | c7n/query.py:344-357 | Without any full `expr`, the last `clause` extends the default statement. |
| ConfigSource.ItemTags | c7n/query.py:380-381 | One `{Key, Value}` record per dict item, in item order. |
| ConfigSource.ItemTagsShape | c7n/query.py:380-381 | Each tag record from `.items()` maps `Key` to the item's key and `Value` to its value. |
| ConfigSource.ListTags | c7n/query.py:386-391 | Normalising a supplementary tag list succeeds iff every entry is a dict. It then gives one tag per entry, in order. |
| ConfigSource.ListTagShape | c7n/query.py:387-391 | A normalised tag takes `key`, or else `tagKey`, as `Key`, and `value`, or else `tagValue`, as `Value`. |
| ConfigSource.NormalizedTagsMeaning | c7n/query.py:375-393 | An existing `Tags` is left alone. Otherwise the item's own `tags` mapping takes precedence over the supplementary configuration. Whatever is stored is a list of records with exactly the keys `Key` and `Value`. |
| ConfigSource.Resource.LoadResourceTags | c7n/query.py:375-393 | It stores the normalised tags under `Tags` when the item yields any and the resource has none. The stored value is a list of `{Key, Value}` records. Every other key keeps its value. A resource that has `Tags`, or an error, leaves the resource unchanged. |
| Text.Lower | c7n/query.py:669 | `str.lower`: same length, each character lower-cased. |
| Text.LowerIdempotent | c7n/query.py:669 | Lower-casing twice is lower-casing once. A lower-case name is unchanged. |
| Text.TitleConcat | c7n/query.py:211 | `str.title` over a concatenation titles the second part from where the first ended. |
| Text.Napi | c7n/query.py:210-211 | The CamelCase name has no underscores and is no longer than the operation name. |
| Text.NapiSplit | c7n/query.py:210-211 | Each underscore-separated word is converted on its own and the underscores vanish: `_napi(a + "_" + b) == _napi(a) + _napi(b)`. |
| Text.NapiWord | c7n/query.py:210-211 | A lower-case word gets its first letter capitalised and is otherwise unchanged. |
| Augment.Argument | c7n/query.py:747 | `param_key and r[param_key] or r`. Without a key, or with an empty key, it is the resource. With a key, it is the key's value when that is truthy and the resource when it is not. A missing key raises `KeyError` and a non-mapping resource `TypeError`. |
| Augment.Detail | c7n/query.py:753-756 | With a detail path, `response[detail_path]`. Without one, it succeeds iff the response is a dict holding `ResponseMetadata`. A list response raises `TypeError`. |
| Augment.ScalarAugment | c7n/query.py:737-763 | The loop returns the resources' enriched records in resource order. A resource the detail call reports missing is skipped, and the first other error is returned. |
| Augment.AugmentLength | c7n/query.py:745-763 | Augmenting never yields more records than resources. |
| Augment.AugmentAllFound | c7n/query.py:746-762 | When every resource is found, there is exactly one enriched record per resource, in order. |
| Augment.DetailDropsMetadata | c7n/query.py:755-756 | Without a detail path, the detail lacks `ResponseMetadata` and agrees with the response on every other key. |
| Augment.CombineFields | c7n/query.py:757-761 | Without a parameter key, the record is the detail with the original resource under the id field. With one, it is the resource updated by the detail, whose keys win. A list or tuple detail is read as a sequence of pairs, and the last pair for a key wins. |
| Augment.EmptyDetailKeepsResource | c7n/query.py:753-762 | With a parameter key, a detail that is an empty list updates nothing, and the resource is kept as it was. |
| Values.UpdateFrom | c7n/query.py:761 | `dict.update`: a mapping is merged. An empty list, tuple or string changes nothing. A value that is not iterable raises `TypeError`. |
| Values.UpdatePairsMeaning | c7n/query.py:761 | Updating from a sequence succeeds iff every element is a pair with a string key. It then equals merging those pairs as a dict. |
| Values.UpdateFromPairs | c7n/query.py:761 | After updating from a list or tuple of pairs, every key holds the value of its last pair, and keys no pair names keep their value. |
| AlarmFilter.StringList | tools/c7n_huaweicloud/c7n_huaweicloud/filters/ces.py:14-15 | An array of strings is accepted as that list of strings. Anything else is rejected. |
| AlarmFilter.ParseConfig | tools/c7n_huaweicloud/c7n_huaweicloud/filters/ces.py:11-16 | The configuration is accepted iff `namespaces` and `metric_names` are both present and both are arrays of strings. It then holds exactly those strings. |
| Values.Iterate | tools/c7n_huaweicloud/c7n_huaweicloud/filters/ces.py:28 | Iterating `policies` succeeds iff it is a list, tuple, string or dict. A list yields its items. |
| AlarmFilter.AnyPolicyIff | tools/c7n_huaweicloud/c7n_huaweicloud/filters/ces.py:26-29 | `any` is true only if some policy watches a listed metric. Over a list of mappings it is exactly that existential. |
| AlarmFilter.Process | tools/c7n_huaweicloud/c7n_huaweicloud/filters/ces.py:18-33 | It succeeds iff every alarm can be evaluated. It then returns exactly the matching alarms, unmodified and in input order, a subsequence of the input. Otherwise it returns the first alarm's error. |
| Seqs.FilterLoop | tools/c7n_huaweicloud/c7n_huaweicloud/filters/ces.py:19-32 | The loop appending every item that passes the test: it succeeds iff every test succeeds, returns exactly the passing items in order, and otherwise returns the first test's error. |
| AlarmFilter.KeptIff | tools/c7n_huaweicloud/c7n_huaweicloud/filters/ces.py:22-32 | A well-formed alarm is evaluated without error. It is kept iff its namespace is listed and some policy's `metric_name` is listed. |
| AlarmFilter.ProcessKeepsMatching | tools/c7n_huaweicloud/c7n_huaweicloud/filters/ces.py:19-33 | Over well-formed alarms, `process` succeeds. It returns a subsequence of the input whose members are exactly the qualifying alarms. |
| AlarmFilter.NoPoliciesNeverKept | tools/c7n_huaweicloud/c7n_huaweicloud/filters/ces.py:25-29 | An alarm without `policies`, or with an empty list, is not kept. |
| AlarmFilter.EmptyListsKeepNothing | tools/c7n_huaweicloud/c7n_huaweicloud/filters/ces.py:22-29 | With no namespaces or no metric names configured, nothing is kept. |
| AlarmFilter.ProcessIdempotent | tools/c7n_huaweicloud/c7n_huaweicloud/filters/ces.py:18-33 | Every alarm in the output can be evaluated, and filtering the output again returns it unchanged. |

## Left out

- Pagination, retries, client construction and the JMESPath extraction of `_invoke_client_enum` and `RetryPageIterator`: the enumeration is a parameter that returns the list of results.
- QueryManager.GetPath: a JMESPath expression is modelled as a single field name. A record lacking the field, or a value that is not a record, gives `None`.
- `generate_arn`, `json.loads`, `str()` and the manager's `augment` are parameters. Their behaviour is not modelled.
- The thread pools of `DescribeSource.augment` and `ConfigSource.get_listed_resources`, and the cache lock and tracer of `resources`, are concurrency and instrumentation.
- The `QueryMeta` and `TypeMeta` metaclasses and the source registry's plugin machinery. The registry is the constant `QueryManager.DefaultSources`.
- `get_permissions`, `has_arn`, `get_model`, `get_cache_key`, `account_id`, `region`, `load_resource`, `_load_item_config` and `camelResource` are not in this model, nor are `DescribeSource`/`ConfigSource.get_resources`, `get_listed_resources`, `_batch_augment` and `check_resource_limit`. They are plumbing around the modelled operations, or calls into code outside `c7n/query.py`.
- `test.py` and the Huawei Cloud `client.py` are SDK and session set-up, and are not part of this model.
- ResourceLimits.MaxResourceLimit.constructor: the default operator read from the `C7N_MAXRES_OP` environment variable is the parameter `defaultOp`. Non-numeric `max-resources` values that the policy schema rejects are not represented. Percent arithmetic uses exact reals rather than floating point.
- Text.Lower: case mapping covers ASCII letters only. Python's Unicode case mapping is not modelled.
- ConfigSource.GetQueryParams: a policy `query` entry that is not a mapping raises `TypeError` at `'expr' in q`. The source would also test membership in a string or list entry.
- QueryManager.LooksLikeArn: slicing a dict id raises `TypeError`. A set or other sliceable type is not represented.
- Values: a dict's keys are assumed distinct when its items are listed. A key's value is its last entry.
- Augment.ScalarAugment: `r.update(response)` updates the caller's resource in place. The model returns the updated record, so the caller's aliased copy is not represented.
- ChildQuery.QueryParent: `r[self.parent_key] = parent_id`, with the class constant `c7n:parent-id`, updates the enumerated records in place. The model returns annotated copies.
- Values.UpdatePairs: a pair whose key is hashable but not a string, such as an integer, raises `TypeError` in the model. Python would accept it, but dict keys here are strings.
- AlarmFilter.Process: the `for alarm in resources` loop that appends to `matched` is the generic `Seqs.FilterLoop`, applied to the per-alarm test.
