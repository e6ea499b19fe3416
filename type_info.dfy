/**
 * The part of a resource type's metadata (`TypeInfo` in c7n/query.py) that the
 * query layer reads. Python's `None` for a string attribute is modelled as
 * the empty string wherever the code only tests the attribute for truth.
 */
module TypeInfo {
  import opened Common
  import opened Values

  /** The `arn` attribute: unset (`None`), `False`, or the name of the field that holds the ARN. */
  datatype ArnKey = ArnUnset | ArnDisabled | ArnField(path: string)

  datatype ResourceType = ResourceType(
    id: string,              // field holding the resource identifier
    extraArgs: Record,       // third element of `enum_spec`; empty when absent
    filterName: string,      // server-side filter parameter; "" when absent
    filterType: string,      // "list", "scalar", or anything else
    idPrefix: Option<string>,
    arn: ArnKey,
    parentKey: string,       // second element of `parent_spec`
    annotateParent: bool,    // third element of `parent_spec`
    configType: string)
}
