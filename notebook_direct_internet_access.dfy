/** The SageMaker "Notebook Direct Internet Access" rule: for every region it
    reads the cached `listNotebookInstances` result and reports, per notebook
    instance, whether a KMS key is set and whether direct internet access is
    enabled. */
module NotebookDirectInternetAccess {
  import opened Wrappers
  import opened Helpers

  /** The fields of a listed notebook instance that the rule reads. */
  datatype Instance = Instance(
    name: string,
    arn: string,
    kmsKeyId: Option<string>,
    directInternetAccess: Option<string>)

  type InstanceCache = Cache<seq<Instance>>

  const QueryErrorPrefix := "Unable to query for Notebook Instances: "
  const NoInstancesMessage := "No Notebook Instances found"
  const KmsMissingMessage := "KMS key not found for Notebook Instance"
  const KmsFoundMessage := "KMS key found for Notebook Instance"
  const AccessEnabledMessage := "Direct Internet access is enabled"
  const AccessNotEnabledMessage := "Direct Internet access is not enabled"

  function ListKey(region: string): Key
  {
    ["sagemaker", "listNotebookInstances", region]
  }

  function DescribeKey(region: string, name: string): Key
  {
    ["sagemaker", "describeNotebookInstance", region, name]
  }

  // ---------------------------------------------------------------------
  // Specification: the findings and the trace a run produces
  // ---------------------------------------------------------------------

  /** The KMS check of one instance: it fails exactly when the key id is
      undefined or empty, and always names the region and the instance. */
  function KmsFinding(inst: Instance, region: string): (f: Finding)
    ensures f.region == region && f.resource == Some(inst.arn)
    ensures f.status == Fail <==> (inst.kmsKeyId == None || inst.kmsKeyId == Some(""))
    ensures f.status == Ok <==> !(inst.kmsKeyId == None || inst.kmsKeyId == Some(""))
    ensures f.message == (if f.status == Fail then KmsMissingMessage else KmsFoundMessage)
  {
    if !Truthy(inst.kmsKeyId) then
      Finding(Fail, KmsMissingMessage, region, Some(inst.arn))
    else
      Finding(Ok, KmsFoundMessage, region, Some(inst.arn))
  }

  /** The exposure check of one instance: it fails exactly when the flag is
      the string "Enabled"; any other value, or none, passes. */
  function InternetFinding(inst: Instance, region: string): (f: Finding)
    ensures f.region == region && f.resource == Some(inst.arn)
    ensures f.status == Fail <==> inst.directInternetAccess == Some("Enabled")
    ensures f.status == Ok <==> inst.directInternetAccess != Some("Enabled")
    ensures f.message == (if f.status == Fail then AccessEnabledMessage else AccessNotEnabledMessage)
  {
    if Truthy(inst.directInternetAccess) && inst.directInternetAccess.value == "Enabled" then
      Finding(Fail, AccessEnabledMessage, region, Some(inst.arn))
    else
      Finding(Ok, AccessNotEnabledMessage, region, Some(inst.arn))
  }

  /** The findings of a list of instances, two per instance, in list order. */
  function InstancesFindings(insts: seq<Instance>, region: string): (r: seq<Finding>)
    ensures |r| == 2 * |insts|
  {
    if insts == [] then []
    else
      var last := insts[|insts| - 1];
      InstancesFindings(insts[..|insts| - 1], region) + [KmsFinding(last, region), InternetFinding(last, region)]
  }

  /** The describe paths looked up for a list of instances, one per instance. */
  function DescribeKeys(insts: seq<Instance>, region: string): (r: seq<Key>)
    ensures |r| == |insts|
  {
    if insts == [] then []
    else DescribeKeys(insts[..|insts| - 1], region) + [DescribeKey(region, insts[|insts| - 1].name)]
  }

  /** The findings the rule derives from one region's cached list entry. */
  function EntryFindings(list: CacheEntry<seq<Instance>>, region: string): seq<Finding>
  {
    match list
    case Absent => []
    case Err(e) => [Finding(Unknown, QueryErrorPrefix + e, region, None)]
    case Data(d) =>
      if d.None? || |d.value| == 0 then [Finding(Ok, NoInstancesMessage, region, None)]
      else InstancesFindings(d.value, region)
  }

  /** The describe paths the rule looks up after reading one region's list
      entry: one per listed instance, and none unless instances are listed. */
  function EntryTrace(list: CacheEntry<seq<Instance>>, region: string): seq<Key>
  {
    if list.Data? && list.data.Some? then DescribeKeys(list.data.value, region) else []
  }

  /** The findings one region contributes. */
  function RegionFindings(cache: InstanceCache, region: string): seq<Finding>
  {
    EntryFindings(Lookup(cache, ListKey(region)), region)
  }

  /** The cache paths one region consults. */
  function RegionTrace(cache: InstanceCache, region: string): seq<Key>
  {
    [ListKey(region)] + EntryTrace(Lookup(cache, ListKey(region)), region)
  }

  /** The findings of all regions, region after region. */
  function RunFindings(cache: InstanceCache, regions: seq<string>): seq<Finding>
  {
    if regions == [] then []
    else RunFindings(cache, regions[..|regions| - 1]) + RegionFindings(cache, regions[|regions| - 1])
  }

  /** The consulted paths of all regions, region after region. */
  function RunTrace(cache: InstanceCache, regions: seq<string>): seq<Key>
  {
    if regions == [] then []
    else RunTrace(cache, regions[..|regions| - 1]) + RegionTrace(cache, regions[|regions| - 1])
  }

  /** The findings of `fs` that belong to `region`, in order. */
  function InRegion(fs: seq<Finding>, region: string): (r: seq<Finding>)
    ensures forall f :: f in r <==> f in fs && f.region == region
  {
    if fs == [] then []
    else
      var rest := InRegion(fs[..|fs| - 1], region);
      assert fs == fs[..|fs| - 1] + [fs[|fs| - 1]];
      if fs[|fs| - 1].region == region then rest + [fs[|fs| - 1]] else rest
  }

  // ---------------------------------------------------------------------
  // The rule as the plugin runs it
  // ---------------------------------------------------------------------

  /** The loop body for one listed instance: look up its description, then
      append its KMS finding and its exposure finding, in that order. */
  method EvaluateInstance(cache: InstanceCache, region: string, instance: Instance, results: Results, source: Source)
    modifies results, source
    ensures results.findings == old(results.findings) + [KmsFinding(instance, region), InternetFinding(instance, region)]
    ensures source.consulted == old(source.consulted) + [DescribeKey(region, instance.name)]
  {
    var _ := source.AddSource(cache, DescribeKey(region, instance.name));

    if !Truthy(instance.kmsKeyId) {
      results.AddResult(Fail, KmsMissingMessage, region, Some(instance.arn));
    } else {
      results.AddResult(Ok, KmsFoundMessage, region, Some(instance.arn));
    }

    if Truthy(instance.directInternetAccess) && instance.directInternetAccess.value == "Enabled" {
      results.AddResult(Fail, AccessEnabledMessage, region, Some(instance.arn));
    } else {
      results.AddResult(Ok, AccessNotEnabledMessage, region, Some(instance.arn));
    }
  }

  /** Extending the examined prefix by one instance appends that instance's
      two findings and its describe path. */
  lemma PrefixStep(data: seq<Instance>, i: nat, region: string)
    requires i < |data|
    ensures InstancesFindings(data[..i + 1], region)
         == InstancesFindings(data[..i], region) + [KmsFinding(data[i], region), InternetFinding(data[i], region)]
    ensures DescribeKeys(data[..i + 1], region) == DescribeKeys(data[..i], region) + [DescribeKey(region, data[i].name)]
  {
    assert data[..i + 1][..i] == data[..i];
  }

  /** The `for ... in` loop over an instance list: every instance,
      in list order, goes through `EvaluateInstance`. */
  method EvaluateInstances(cache: InstanceCache, region: string, data: seq<Instance>, results: Results, source: Source)
    modifies results, source
    ensures results.findings == old(results.findings) + InstancesFindings(data, region)
    ensures source.consulted == old(source.consulted) + DescribeKeys(data, region)
  {
    for i := 0 to |data|
      invariant results.findings == old(results.findings) + InstancesFindings(data[..i], region)
      invariant source.consulted == old(source.consulted) + DescribeKeys(data[..i], region)
    {
      EvaluateInstance(cache, region, data[i], results, source);
      PrefixStep(data, i, region);
      AppendAssociative(old(results.findings), InstancesFindings(data[..i], region),
                        [KmsFinding(data[i], region), InternetFinding(data[i], region)]);
      AppendAssociative(old(source.consulted), DescribeKeys(data[..i], region), [DescribeKey(region, data[i].name)]);
    }
    assert data[..|data|] == data;
  }

  /** The body run for one region: look up the cached list, then append the
      region's findings to `results` and its consulted paths to `source`. */
  method EvaluateRegion(cache: InstanceCache, region: string, results: Results, source: Source)
    modifies results, source
    ensures results.findings == old(results.findings) + RegionFindings(cache, region)
    ensures source.consulted == old(source.consulted) + RegionTrace(cache, region)
  {
    var list := source.AddSource(cache, ListKey(region));

    if list.Absent? {
      return;
    }

    if list.Err? {
      results.AddResult(Unknown, QueryErrorPrefix + list.error, region, None);
      return;
    }

    if list.data.None? || |list.data.value| == 0 {
      results.AddResult(Ok, NoInstancesMessage, region, None);
      return;
    }

    EvaluateInstances(cache, region, list.data.value, results, source);
    AppendAssociative(old(source.consulted), [ListKey(region)], DescribeKeys(list.data.value, region));
  }

  /** The rule's entry point over the resolved regions. The callback's three
      arguments are the out-parameters: the error, which is always null, the
      results and the consulted paths. */
  method Run(cache: InstanceCache, regions: seq<string>)
    returns (err: Option<string>, findings: seq<Finding>, consulted: seq<Key>)
    ensures err == None
    ensures findings == RunFindings(cache, regions)
    ensures consulted == RunTrace(cache, regions)
  {
    var results := new Results();
    var source := new Source();

    for j := 0 to |regions|
      invariant results.findings == RunFindings(cache, regions[..j])
      invariant source.consulted == RunTrace(cache, regions[..j])
    {
      EvaluateRegion(cache, regions[j], results, source);
      assert regions[..j + 1][..j] == regions[..j];
    }
    assert regions[..|regions|] == regions;

    return None, results.findings, source.consulted;
  }
}
