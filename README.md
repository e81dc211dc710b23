# Notebook Direct Internet Access rule, modelled in Dafny

This project models one compliance rule of a cloud security scanner: the
SageMaker "Notebook Direct Internet Access" plugin. The rule reads inventory
that the scanner's collector has already cached and reports findings into a
results list. It does this per region, from the cached
`sagemaker / listNotebookInstances / <region>` entry:

- no entry: nothing is reported for the region;
- an entry with an error: one status-3 finding for the region, carrying the error text;
- an entry with no data or an empty list: one status-0 "No Notebook Instances found" finding;
- otherwise, per listed instance, in list order:
  - a KMS finding: status 2 when `KmsKeyId` is undefined or empty, else status 0;
  - then a direct-internet-access finding: status 2 when `DirectInternetAccess` is `"Enabled"`, else status 0.

The rule also looks up `sagemaker / describeNotebookInstance / <region> / <name>`
per instance. That lookup only lands in the `source` audit object and has no
effect on any finding. When all regions are done, the callback receives a null
error, the results and `source`.

Files:

- `wrappers.dfy`: `Option`.
- `helpers.dfy` (module `Helpers`): the parts of the scanner's shared helpers
  the rule relies on. These are the cache with exact-path `Lookup`, JavaScript
  truthiness of a string (`Truthy`), the `Finding` record, and two classes:
  - `Results`, whose `AddResult` appends one finding (`helpers.addResult`);
  - `Source`, whose `AddSource` returns the cached entry and records the path
    it consulted (`helpers.addSource`).
- `notebook_direct_internet_access.dfy` (module `NotebookDirectInternetAccess`):
  - specification functions for the findings and consulted paths of an
    instance, a list of instances, a region and a whole run;
  - the imperative rule itself: `Run` loops over the regions, `EvaluateRegion`
    handles one region with its early returns, and `EvaluateInstances` loops
    over the instances. Each method is proved to produce exactly what the
    specification functions say.
- `notebook_properties.dfy` (module `NotebookProperties`): lemmas covering
  - what each state of a region's cache entry yields;
  - the layout of the per-instance findings (2k and 2k+1);
  - that the describe lookups do not matter;
  - that region order changes only the order of findings, not the multiset;
  - that the run's findings for a region are exactly that region's findings;
  - two concrete scenarios.

The rule reports both failing checks with status 2; the model keeps 2 as the
constant `Fail`.

## Model

| member | source | states |
|---|---|---|
| Helpers.Results.AddResult | plugins/sagemaker/notebookDirectInternetAccess.js:25-59 | appends exactly one finding with the given status, message, region and resource, and changes nothing else in the results list |
| Helpers.Source.AddSource | plugins/sagemaker/notebookDirectInternetAccess.js:19-43 | returns the entry at exactly that cache path (`Absent` if it was never collected) and appends the path to the consulted paths |
| Helpers.Lookup | plugins/sagemaker/notebookDirectInternetAccess.js:19-22 | a path the collector never filled reads as `Absent`; a filled path reads as exactly the stored entry |
| Helpers.Truthy | plugins/sagemaker/notebookDirectInternetAccess.js:45 | JavaScript truthiness of an optional string: false for undefined and for the empty string |
| NotebookDirectInternetAccess.EntryFindings | plugins/sagemaker/notebookDirectInternetAccess.js:22-61 | the findings derived from a region's list entry, branching on absent, error, missing or empty data, and listed instances |
| NotebookDirectInternetAccess.RegionFindings | plugins/sagemaker/notebookDirectInternetAccess.js:18-63 | the findings of one region are those of the entry at its `listNotebookInstances` path |
| NotebookDirectInternetAccess.RunFindings | plugins/sagemaker/notebookDirectInternetAccess.js:18-66 | the findings of a run are those of each region, region after region |
| NotebookDirectInternetAccess.ListKey | plugins/sagemaker/notebookDirectInternetAccess.js:20 | the list path of a region: `sagemaker / listNotebookInstances / region` |
| NotebookDirectInternetAccess.DescribeKey | plugins/sagemaker/notebookDirectInternetAccess.js:43 | the describe path of an instance: `sagemaker / describeNotebookInstance / region / name` |
| NotebookDirectInternetAccess.EntryTrace | plugins/sagemaker/notebookDirectInternetAccess.js:42-43 | one describe path per listed instance, none unless instances are listed |
| NotebookDirectInternetAccess.RegionTrace | plugins/sagemaker/notebookDirectInternetAccess.js:19-43 | the paths one region consults: its list path, then the entry's describe paths |
| NotebookDirectInternetAccess.RunTrace | plugins/sagemaker/notebookDirectInternetAccess.js:18-66 | the consulted paths handed to the callback, region after region |
| NotebookDirectInternetAccess.KmsFinding | plugins/sagemaker/notebookDirectInternetAccess.js:45-51 | the KMS finding has status 2 exactly when `KmsKeyId` is undefined or the empty string, else status 0 with the "found" message; it carries the region and the instance ARN |
| NotebookDirectInternetAccess.InternetFinding | plugins/sagemaker/notebookDirectInternetAccess.js:53-60 | the exposure finding has status 2 exactly when `DirectInternetAccess` is `"Enabled"`, status 0 for any other or absent value; it carries the region and the instance ARN |
| NotebookDirectInternetAccess.InstancesFindings | plugins/sagemaker/notebookDirectInternetAccess.js:37-61 | a list of n instances yields exactly 2n findings |
| NotebookDirectInternetAccess.DescribeKeys | plugins/sagemaker/notebookDirectInternetAccess.js:42-43 | one describe path is looked up per listed instance |
| NotebookDirectInternetAccess.EvaluateInstance | plugins/sagemaker/notebookDirectInternetAccess.js:38-60 | one loop iteration appends that instance's KMS finding, then its exposure finding, and records its describe path |
| NotebookDirectInternetAccess.EvaluateInstances | plugins/sagemaker/notebookDirectInternetAccess.js:37-61 | the instance loop appends the findings of all instances in list order, two per instance, and records one describe path per instance |
| NotebookDirectInternetAccess.EvaluateRegion | plugins/sagemaker/notebookDirectInternetAccess.js:18-63 | one region's body appends exactly that region's findings to the results and its consulted paths to the source, for each of the absent, error, empty and listed cases |
| NotebookDirectInternetAccess.Run | plugins/sagemaker/notebookDirectInternetAccess.js:13-67 | the callback's error is null; the results are exactly the concatenation of every region's findings and contain nothing else; the consulted paths are those of every region |
| NotebookProperties.ChecksIndependent | plugins/sagemaker/notebookDirectInternetAccess.js:45-60 | the KMS finding depends only on `KmsKeyId` and the exposure finding only on `DirectInternetAccess` |
| NotebookProperties.InstancesFindingsAt | plugins/sagemaker/notebookDirectInternetAccess.js:37-61 | instance k of the list yields finding 2k (KMS check) and finding 2k+1 (exposure check) |
| NotebookProperties.InstancesFindingsTagged | plugins/sagemaker/notebookDirectInternetAccess.js:46-59 | every instance finding carries the region and the ARN of the instance it is about |
| NotebookProperties.DescribeKeysAt | plugins/sagemaker/notebookDirectInternetAccess.js:42-43 | the k-th describe path is `sagemaker / describeNotebookInstance / region / name of instance k` |
| NotebookProperties.RegionAbsent | plugins/sagemaker/notebookDirectInternetAccess.js:19-22 | a region without a list entry contributes no finding, and only its list path is consulted |
| NotebookProperties.RegionError | plugins/sagemaker/notebookDirectInternetAccess.js:24-29 | a region whose list entry has an error contributes exactly one status-3 region-level finding with the error text, and no instance is examined |
| NotebookProperties.RegionEmpty | plugins/sagemaker/notebookDirectInternetAccess.js:31-35 | a region whose data is missing or empty contributes exactly one status-0 region-level "No Notebook Instances found" finding |
| NotebookProperties.RegionInstances | plugins/sagemaker/notebookDirectInternetAccess.js:37-61 | a region listing n > 0 instances contributes exactly 2n findings, KMS then exposure per instance in list order, and consults its list path followed by one describe path per instance |
| NotebookProperties.RegionFindingsTagged | plugins/sagemaker/notebookDirectInternetAccess.js:24-60 | every finding a region contributes names that region |
| NotebookProperties.RunFindingsDependOnlyOnListKeys | plugins/sagemaker/notebookDirectInternetAccess.js:42-43 | two caches that agree on the list entries of the regions give the same findings, so the describe lookups have no effect |
| NotebookProperties.RunFindingsAppend | plugins/sagemaker/notebookDirectInternetAccess.js:18-63 | running the regions a then b gives the findings of a followed by those of b |
| NotebookProperties.RunFindingsPermutation | plugins/sagemaker/notebookDirectInternetAccess.js:18-66 | any reordering of the regions yields the same multiset of findings, so only the cross-region order depends on scheduling |
| NotebookProperties.RunFindingsRegions | plugins/sagemaker/notebookDirectInternetAccess.js:18-63 | every finding of a run names one of the run's regions |
| NotebookProperties.RunFindingsOfRegion | plugins/sagemaker/notebookDirectInternetAccess.js:18-66 | for a region listed once, the run's findings that name it are exactly that region's findings, in order |
| NotebookProperties.TwoInstanceScenario | plugins/sagemaker/notebookDirectInternetAccess.js:37-61 | us-east-1 with R1 (no key, "Enabled") and R2 (key, "Disabled") yields four findings: 2/2 for R1, then 0/0 for R2 |
| NotebookProperties.AccessDeniedScenario | plugins/sagemaker/notebookDirectInternetAccess.js:24-29 | eu-west-1 with error "AccessDenied" yields exactly one status-3 finding whose message ends with the error |

## Left out

- `async.each` runs the region bodies concurrently. The model runs them as a sequential loop. Each region body is synchronous, so it runs as one unit. `RunFindingsPermutation` shows that any completion order of the regions gives the same multiset of findings. No cross-region order is claimed.
- `helpers.regions(settings.govcloud)` is not part of this model. The region list is a parameter of `Run`.
- `helpers.addError` is not part of this model. An `Err` entry carries the text it would produce. The message is the fixed prefix followed by that text.
- The real `helpers.addSource` copies cache entries into a nested `source` object. That copying is not part of this model. `Source` records the sequence of consulted paths instead.
- The static metadata (`title`, `category`, `description`, `more_info`, `recommended_action`, `link`, `apis`) has no behaviour and is not modelled.
- The cache is modelled with a single payload type. Entries at describe paths have that type too. This does not matter, because their contents are never read.
- An entry counts as an error only when its `err` is truthy, and the error then takes precedence over any data. An entry whose `err` is falsy is modelled as a data entry.
- `data` is modelled as either missing or a list of instances. Other JavaScript values (an object with a numeric `length`, for example) are not modelled.
- `for (i in ...)` also enumerates inherited enumerable properties, and its `i` is an implicit global. The model iterates over the array indices in order with a local index.
- Instance names and ARNs are modelled as strings that are always present. An undefined ARN, which would make a resource-less finding, is not modelled.
- `KmsKeyId` and `DirectInternetAccess` are modelled as optional strings. JavaScript truthiness is modelled for strings only: undefined and `""` are falsy.
