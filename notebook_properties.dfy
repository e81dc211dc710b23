/** Properties of the Notebook Direct Internet Access rule: what each cache
    state of a region yields, how the per-instance findings are laid out,
    and how the findings of a whole run relate to its regions. */
module NotebookProperties {
  import opened Wrappers
  import opened Helpers
  import opened NotebookDirectInternetAccess

  // ---------------------------------------------------------------------
  // One instance
  // ---------------------------------------------------------------------

  /** Each check reads only its own field: changing the other field of an
      instance does not change the finding. */
  lemma ChecksIndependent(a: Instance, b: Instance, region: string)
    requires a.arn == b.arn
    ensures a.kmsKeyId == b.kmsKeyId ==> KmsFinding(a, region) == KmsFinding(b, region)
    ensures a.directInternetAccess == b.directInternetAccess ==> InternetFinding(a, region) == InternetFinding(b, region)
  {
  }

  /** Instance k of the list yields findings 2k (KMS) and 2k+1 (exposure). */
  lemma {:induction false} InstancesFindingsAt(insts: seq<Instance>, region: string, k: nat)
    requires k < |insts|
    ensures InstancesFindings(insts, region)[2 * k] == KmsFinding(insts[k], region)
    ensures InstancesFindings(insts, region)[2 * k + 1] == InternetFinding(insts[k], region)
  {
    var prefix, last := insts[..|insts| - 1], insts[|insts| - 1];
    var earlier := InstancesFindings(prefix, region);
    assert InstancesFindings(insts, region) == earlier + [KmsFinding(last, region), InternetFinding(last, region)];
    if k < |insts| - 1 {
      InstancesFindingsAt(prefix, region, k);
      assert prefix[k] == insts[k];
    } else {
      assert 2 * k == |earlier|;
    }
  }

  /** Every instance finding names the region and the ARN of the instance
      it belongs to. */
  lemma InstancesFindingsTagged(insts: seq<Instance>, region: string)
    ensures forall j :: 0 <= j < |InstancesFindings(insts, region)| ==>
      InstancesFindings(insts, region)[j].region == region &&
      InstancesFindings(insts, region)[j].resource == Some(insts[j / 2].arn)
  {
    var r := InstancesFindings(insts, region);
    forall j | 0 <= j < |r|
      ensures r[j].region == region && r[j].resource == Some(insts[j / 2].arn)
    {
      InstancesFindingsAt(insts, region, j / 2);
      assert j == 2 * (j / 2) || j == 2 * (j / 2) + 1;
    }
  }

  /** The describe path looked up for instance k names that instance. */
  lemma {:induction false} DescribeKeysAt(insts: seq<Instance>, region: string, k: nat)
    requires k < |insts|
    ensures DescribeKeys(insts, region)[k] == DescribeKey(region, insts[k].name)
  {
    if k < |insts| - 1 {
      DescribeKeysAt(insts[..|insts| - 1], region, k);
    }
  }

  // ---------------------------------------------------------------------
  // One region, by the state of its cached list
  // ---------------------------------------------------------------------

  /** A region whose list was never collected contributes no finding. */
  lemma RegionAbsent(cache: InstanceCache, region: string)
    requires ListKey(region) !in cache || cache[ListKey(region)] == Absent
    ensures RegionFindings(cache, region) == []
    ensures RegionTrace(cache, region) == [ListKey(region)]
  {
  }

  /** A region whose list failed to load contributes exactly one
      region-level status-3 finding carrying the error, and no describe
      path is looked up. */
  lemma RegionError(cache: InstanceCache, region: string)
    requires ListKey(region) in cache && cache[ListKey(region)].Err?
    ensures |RegionFindings(cache, region)| == 1
    ensures RegionFindings(cache, region)[0].status == Unknown
    ensures RegionFindings(cache, region)[0].region == region
    ensures RegionFindings(cache, region)[0].resource == None
    ensures RegionFindings(cache, region)[0].message == QueryErrorPrefix + cache[ListKey(region)].error
    ensures RegionTrace(cache, region) == [ListKey(region)]
  {
  }

  /** A region whose list holds no data or an empty list contributes exactly
      one region-level status-0 "No Notebook Instances found" finding. */
  lemma RegionEmpty(cache: InstanceCache, region: string)
    requires ListKey(region) in cache && cache[ListKey(region)].Data?
    requires cache[ListKey(region)].data == None || cache[ListKey(region)].data == Some([])
    ensures RegionFindings(cache, region) == [Finding(Ok, NoInstancesMessage, region, None)]
    ensures RegionTrace(cache, region) == [ListKey(region)]
  {
  }

  /** A region listing n > 0 instances contributes exactly 2n findings: for
      each instance, in list order, its KMS finding then its exposure
      finding; and it looks up one describe path per instance, in order. */
  lemma RegionInstances(cache: InstanceCache, region: string, insts: seq<Instance>)
    requires ListKey(region) in cache && cache[ListKey(region)] == Data(Some(insts))
    requires |insts| > 0
    ensures |RegionFindings(cache, region)| == 2 * |insts|
    ensures forall k :: 0 <= k < |insts| ==>
      RegionFindings(cache, region)[2 * k] == KmsFinding(insts[k], region) &&
      RegionFindings(cache, region)[2 * k + 1] == InternetFinding(insts[k], region)
    ensures |RegionTrace(cache, region)| == |insts| + 1 && RegionTrace(cache, region)[0] == ListKey(region)
    ensures forall k :: 0 <= k < |insts| ==> RegionTrace(cache, region)[k + 1] == DescribeKey(region, insts[k].name)
  {
    assert RegionFindings(cache, region) == InstancesFindings(insts, region);
    assert RegionTrace(cache, region) == [ListKey(region)] + DescribeKeys(insts, region);
    forall k | 0 <= k < |insts|
      ensures InstancesFindings(insts, region)[2 * k] == KmsFinding(insts[k], region)
      ensures InstancesFindings(insts, region)[2 * k + 1] == InternetFinding(insts[k], region)
      ensures DescribeKeys(insts, region)[k] == DescribeKey(region, insts[k].name)
    {
      InstancesFindingsAt(insts, region, k);
      DescribeKeysAt(insts, region, k);
    }
  }

  /** Every finding of a region names that region. */
  lemma RegionFindingsTagged(cache: InstanceCache, region: string)
    ensures forall f :: f in RegionFindings(cache, region) ==> f.region == region
  {
    var list := Lookup(cache, ListKey(region));
    if list.Data? && list.data.Some? && |list.data.value| > 0 {
      InstancesFindingsTagged(list.data.value, region);
    }
  }

  /** Findings depend on the cache only through the list entries of the
      regions: the describe lookups and every other path have no effect. */
  lemma {:induction false} RunFindingsDependOnlyOnListKeys(c1: InstanceCache, c2: InstanceCache, regions: seq<string>)
    requires forall r :: r in regions ==> Lookup(c1, ListKey(r)) == Lookup(c2, ListKey(r))
    ensures RunFindings(c1, regions) == RunFindings(c2, regions)
  {
    if regions != [] {
      RunFindingsDependOnlyOnListKeys(c1, c2, regions[..|regions| - 1]);
    }
  }

  // ---------------------------------------------------------------------
  // A whole run
  // ---------------------------------------------------------------------

  /** Running two lists of regions one after the other yields the findings
      of the first followed by those of the second. */
  lemma {:induction false} RunFindingsAppend(cache: InstanceCache, a: seq<string>, b: seq<string>)
    ensures RunFindings(cache, a + b) == RunFindings(cache, a) + RunFindings(cache, b)
    decreases |b|
  {
    if b == [] {
      assert a + b == a;
    } else {
      var last := b[|b| - 1];
      assert (a + b)[..|a + b| - 1] == a + b[..|b| - 1];
      RunFindingsAppend(cache, a, b[..|b| - 1]);
    }
  }

  /** Taking the last region out of one list and the same region out of a
      reordering of it leaves two lists that are still reorderings. */
  lemma RemoveMatching(rs: seq<string>, ts: seq<string>, j: nat)
    requires multiset(rs) == multiset(ts) && rs != []
    requires j < |ts| && ts[j] == rs[|rs| - 1]
    ensures multiset(rs[..|rs| - 1]) == multiset(ts[..j] + ts[j + 1..])
  {
    var p, x := rs[..|rs| - 1], rs[|rs| - 1];
    assert rs == p + [x];
    assert ts == ts[..j] + [x] + ts[j + 1..];
    calc {
      multiset(ts[..j] + ts[j + 1..]);
      multiset(ts[..j]) + multiset(ts[j + 1..]);
      multiset(ts) - multiset{x};
      multiset(rs) - multiset{x};
      multiset(p);
    }
  }

  /** The region at position j contributes its findings between those of
      the regions before and after it. */
  lemma RunFindingsSplit(cache: InstanceCache, ts: seq<string>, j: nat)
    requires j < |ts|
    ensures RunFindings(cache, ts)
         == RunFindings(cache, ts[..j]) + RegionFindings(cache, ts[j]) + RunFindings(cache, ts[j + 1..])
  {
    var before, x, after := ts[..j], ts[j], ts[j + 1..];
    assert ts == (before + [x]) + after;
    RunFindingsAppend(cache, before + [x], after);
    assert (before + [x])[..|before|] == before;
  }

  /** Moving the middle block of three to the end keeps the same multiset. */
  lemma MoveToEnd(a: seq<Finding>, b: seq<Finding>, c: seq<Finding>)
    ensures multiset(a + b + c) == multiset(a + c) + multiset(b)
  {
  }

  /** The findings do not depend on the order in which regions finish:
      any reordering of the regions yields the same findings as a multiset. */
  lemma {:induction false} RunFindingsPermutation(cache: InstanceCache, rs: seq<string>, ts: seq<string>)
    requires multiset(rs) == multiset(ts)
    ensures multiset(RunFindings(cache, rs)) == multiset(RunFindings(cache, ts))
    decreases |rs|
  {
    if rs == [] {
      assert ts == [];
    } else {
      var p, x := rs[..|rs| - 1], rs[|rs| - 1];
      assert x in multiset(ts);
      var j :| 0 <= j < |ts| && ts[j] == x;
      RemoveMatching(rs, ts, j);
      RunFindingsPermutation(cache, p, ts[..j] + ts[j + 1..]);
      RunFindingsSplit(cache, ts, j);
      RunFindingsAppend(cache, ts[..j], ts[j + 1..]);
      MoveToEnd(RunFindings(cache, ts[..j]), RegionFindings(cache, x), RunFindings(cache, ts[j + 1..]));
    }
  }

  /** Every finding of a run names one of the run's regions. */
  lemma {:induction false} RunFindingsRegions(cache: InstanceCache, regions: seq<string>)
    ensures forall f :: f in RunFindings(cache, regions) ==> f.region in regions
  {
    if regions != [] {
      var p, x := regions[..|regions| - 1], regions[|regions| - 1];
      RunFindingsRegions(cache, p);
      RegionFindingsTagged(cache, x);
      assert regions == p + [x];
    }
  }

  /** Keeping the findings of one region distributes over concatenation. */
  lemma {:induction false} InRegionAppend(a: seq<Finding>, b: seq<Finding>, region: string)
    ensures InRegion(a + b, region) == InRegion(a, region) + InRegion(b, region)
    decreases |b|
  {
    if b == [] {
      assert a + b == a;
    } else {
      assert (a + b)[..|a + b| - 1] == a + b[..|b| - 1];
      InRegionAppend(a, b[..|b| - 1], region);
    }
  }

  /** Keeping the findings of a region that every finding names keeps all. */
  lemma {:induction false} InRegionAll(fs: seq<Finding>, region: string)
    requires forall f :: f in fs ==> f.region == region
    ensures InRegion(fs, region) == fs
  {
    if fs != [] {
      assert fs == fs[..|fs| - 1] + [fs[|fs| - 1]];
      InRegionAll(fs[..|fs| - 1], region);
    }
  }

  /** Keeping the findings of a region that no finding names keeps none. */
  lemma InRegionNone(fs: seq<Finding>, region: string)
    requires forall f :: f in fs ==> f.region != region
    ensures InRegion(fs, region) == []
  {
  }

  /** For a region listed exactly once, the run's findings naming it are
      exactly that region's findings, in the order its body produced them;
      so each per-region property above holds of the whole run. */
  lemma {:induction false} RunFindingsOfRegion(cache: InstanceCache, regions: seq<string>, region: string)
    requires multiset(regions)[region] == 1
    ensures InRegion(RunFindings(cache, regions), region) == RegionFindings(cache, region)
  {
    var p, x := regions[..|regions| - 1], regions[|regions| - 1];
    assert regions == p + [x];
    InRegionAppend(RunFindings(cache, p), RegionFindings(cache, x), region);
    RegionFindingsTagged(cache, x);
    if x == region {
      assert region !in p;
      RunFindingsRegions(cache, p);
      InRegionNone(RunFindings(cache, p), region);
      InRegionAll(RegionFindings(cache, x), region);
    } else {
      RunFindingsOfRegion(cache, p, region);
      InRegionNone(RegionFindings(cache, x), region);
    }
  }

  // ---------------------------------------------------------------------
  // Two concrete scenarios
  // ---------------------------------------------------------------------

  /** us-east-1 lists R1 (no key, exposure "Enabled") and R2 (a key,
      exposure "Disabled"): four findings, in instance order. */
  lemma TwoInstanceScenario()
    ensures
      var r1 := Instance("R1", "arn:R1", None, Some("Enabled"));
      var r2 := Instance("R2", "arn:R2", Some("key-2"), Some("Disabled"));
      var cache: InstanceCache := map[ListKey("us-east-1") := Data(Some([r1, r2]))];
      RunFindings(cache, ["us-east-1"]) == [
        Finding(Fail, KmsMissingMessage, "us-east-1", Some("arn:R1")),
        Finding(Fail, AccessEnabledMessage, "us-east-1", Some("arn:R1")),
        Finding(Ok, KmsFoundMessage, "us-east-1", Some("arn:R2")),
        Finding(Ok, AccessNotEnabledMessage, "us-east-1", Some("arn:R2"))]
  {
    var r1 := Instance("R1", "arn:R1", None, Some("Enabled"));
    var r2 := Instance("R2", "arn:R2", Some("key-2"), Some("Disabled"));
    var cache: InstanceCache := map[ListKey("us-east-1") := Data(Some([r1, r2]))];
    assert [r1, r2][..1] == [r1];
    assert ["us-east-1"][..0] == [];
    assert Lookup(cache, ListKey("us-east-1")) == Data(Some([r1, r2]));
    assert InstancesFindings([r1], "us-east-1") == [KmsFinding(r1, "us-east-1"), InternetFinding(r1, "us-east-1")];
    assert RunFindings(cache, ["us-east-1"]) == InstancesFindings([r1, r2], "us-east-1");
  }

  /** eu-west-1's list failed with "AccessDenied": one status-3 finding for
      the region, mentioning the error, and nothing else. */
  lemma AccessDeniedScenario()
    ensures
      var cache: InstanceCache := map[ListKey("eu-west-1") := Err("AccessDenied")];
      RunFindings(cache, ["eu-west-1"]) == [
        Finding(Unknown, QueryErrorPrefix + "AccessDenied", "eu-west-1", None)]
  {
    assert ["eu-west-1"][..0] == [];
  }
}
