/**
 * `find_resources_missing_tags` (utils.py): report every resource instance
 * whose configuration has no truthy "tags", unless the provider map given
 * to it is non-empty, in which case every resource counts as inheriting
 * default tags.
 *
 * The specification flattens the document into its resource instances
 * (type, name, configuration), in block, then type, then instance order,
 * and keeps those that `Reported` selects. `FindResourcesMissingTags` is the
 * loop nest of the source, proved to compute the same sequence.
 */
module ResourceTags {
  import opened Wrappers
  import opened Values
  import opened Seqs
  import ProviderTags

  /** One `resource "type" "name" { ... }` declaration: its configuration may be anything. */
  datatype Instance = Instance(resType: string, name: string, config: Value)

  /** One reported resource: the source's `{"type": ..., "name": ...}` dictionary. */
  datatype Untagged = Untagged(resType: string, name: string)

  // ---------- Shape of the document ----------

  /** A block the loop looks into: a dictionary whose "resource" entry is a dictionary. */
  predicate IsResourceBlock(block: Value) {
    block.VMap? && HasKey(block, "resource") && Get(block, "resource").VMap?
  }

  function InstanceOf(resType: string): ((string, Value)) -> seq<Instance> {
    (e: (string, Value)) => [Instance(resType, e.0, e.1)]
  }

  /** The instances of one resource type: none unless its value is a dictionary of names. */
  function TypeInstances(entry: (string, Value)): seq<Instance> {
    if entry.1.VMap? then FlatMap(InstanceOf(entry.0), entry.1.entries) else []
  }

  function BlockInstances(block: Value): seq<Instance> {
    if IsResourceBlock(block) then FlatMap(TypeInstances, Get(block, "resource").entries) else []
  }

  /** Every resource instance of the document, in document order. */
  function DocInstances(doc: Value): seq<Instance> {
    if doc.VList? then FlatMap(BlockInstances, doc.items) else []
  }

  /**
   * The instances are exactly the (type, name, configuration) triples of the
   * document: a name under a type whose value is a dictionary, under a block
   * whose "resource" is a dictionary.
   */
  lemma InstanceOrigin(doc: Value, inst: Instance)
    requires doc.VList?
    ensures inst in DocInstances(doc) <==>
              exists b :: b in doc.items && IsResourceBlock(b) &&
                exists e :: e in Get(b, "resource").entries && e.0 == inst.resType && e.1.VMap?
                            && (inst.name, inst.config) in e.1.entries
  {
    FlatMapMember(BlockInstances, doc.items, inst);
    forall b | b in doc.items && IsResourceBlock(b)
      ensures inst in BlockInstances(b) <==>
                exists e :: e in Get(b, "resource").entries && e.0 == inst.resType && e.1.VMap?
                            && (inst.name, inst.config) in e.1.entries
    {
      var es := Get(b, "resource").entries;
      FlatMapMember(TypeInstances, es, inst);
      forall e | e in es && e.1.VMap?
        ensures inst in TypeInstances(e) <==> e.0 == inst.resType && (inst.name, inst.config) in e.1.entries
      {
        FlatMapMember(InstanceOf(e.0), e.1.entries, inst);
      }
    }
  }

  // ---------- The decision for one instance ----------

  /** A filter argument is in force when it is truthy: None and "" are not. */
  predicate Active(filter: Option<string>) {
    filter.Some? && filter.value != ""
  }

  /** The explicit tags test: "tags" present and truthy, so `tags = {}` does not count. */
  predicate HasTags(config: Value) {
    HasKey(config, "tags") && Truthy(Get(config, "tags"))
  }

  /** The resource-type filter is an exact match, the provider filter a prefix. */
  predicate Selected(resType: string, filterProvider: Option<string>, filterResource: Option<string>) {
    (Active(filterResource) ==> resType == filterResource.value)
    && (Active(filterProvider) ==> filterProvider.value <= resType)
  }

  /**
   * A dictionary configuration that passes the filters and has no truthy
   * tags is reported, unless the provider map is non-empty: `bool(provider_tags)`
   * exempts every resource whatever its provider.
   */
  predicate Reported(inst: Instance, providerTags: ProviderTags.TagMap,
                     filterProvider: Option<string>, filterResource: Option<string>)
  {
    inst.config.VMap? && Selected(inst.resType, filterProvider, filterResource)
    && !HasTags(inst.config) && providerTags == map[]
  }

  function ReportOf(providerTags: ProviderTags.TagMap, filterProvider: Option<string>,
                    filterResource: Option<string>): Instance -> seq<Untagged>
  {
    inst => if Reported(inst, providerTags, filterProvider, filterResource)
            then [Untagged(inst.resType, inst.name)] else []
  }

  /** What `find_resources_missing_tags(doc, provider_tags, filter_provider, filter_resource)` returns. */
  function MissingTags(doc: Value, providerTags: ProviderTags.TagMap,
                       filterProvider: Option<string>, filterResource: Option<string>): (r: seq<Untagged>)
    ensures !doc.VList? ==> r == []
  {
    FlatMap(ReportOf(providerTags, filterProvider, filterResource), DocInstances(doc))
  }

  // ---------- The source's loops ----------

  /** Every instance of a type has that type. */
  lemma InstancesHaveTheirType(entry: (string, Value), inst: Instance)
    requires inst in TypeInstances(entry)
    ensures inst.resType == entry.0
  {
    FlatMapMember(InstanceOf(entry.0), entry.1.entries, inst);
  }

  /** A type that the resource filter rules out reports nothing. */
  lemma FilteredTypeReportsNothing(entry: (string, Value), providerTags: ProviderTags.TagMap,
                                   filterProvider: Option<string>, filterResource: Option<string>)
    requires Active(filterResource) && entry.0 != filterResource.value
    ensures FlatMap(ReportOf(providerTags, filterProvider, filterResource), TypeInstances(entry)) == []
  {
    forall k | 0 <= k < |TypeInstances(entry)|
      ensures ReportOf(providerTags, filterProvider, filterResource)(TypeInstances(entry)[k]) == []
    {
      InstancesHaveTheirType(entry, TypeInstances(entry)[k]);
    }
    FlatMapEmpty(ReportOf(providerTags, filterProvider, filterResource), TypeInstances(entry));
  }

  /** The innermost loop: the named instances of one resource type (a dictionary of names). */
  method AuditInstances(resType: string, instances: seq<(string, Value)>, providerTags: ProviderTags.TagMap,
                        filterProvider: Option<string>, filterResource: Option<string>)
    returns (untagged: seq<Untagged>)
    requires Selected(resType, None, filterResource)
    ensures untagged == FlatMap(ReportOf(providerTags, filterProvider, filterResource),
                                FlatMap(InstanceOf(resType), instances))
  {
    ghost var report := ReportOf(providerTags, filterProvider, filterResource);
    ghost var seen: seq<Instance> := [];
    untagged := [];
    var k := 0;
    while k < |instances|
      invariant 0 <= k <= |instances|
      invariant seen == FlatMap(InstanceOf(resType), instances[..k])
      invariant untagged == FlatMap(report, seen)
    {
      FlatMapPrefix(InstanceOf(resType), instances, k);
      var resName := instances[k].0;
      var resConfig := instances[k].1;
      ghost var inst := Instance(resType, resName, resConfig);
      FlatMapSnoc(report, seen, inst);
      seen := seen + [inst];
      k := k + 1;
      if !resConfig.VMap? {
        assert report(inst) == [];
        assert untagged + [] == untagged;
        continue;
      }
      if Active(filterProvider) && !(filterProvider.value <= resType) {
        assert report(inst) == [];
        assert untagged + [] == untagged;
        continue;
      }
      var hasTags := HasKey(resConfig, "tags") && Truthy(Get(resConfig, "tags"));
      var inheritsTags := providerTags != map[];
      if !hasTags && !inheritsTags {
        assert report(inst) == [Untagged(resType, resName)];
        untagged := untagged + [Untagged(resType, resName)];
      } else {
        assert report(inst) == [];
        assert untagged + [] == untagged;
      }
    }
    assert instances[..k] == instances;
  }

  /** The middle loop: the resource types of one "resource" block and their instances. */
  method AuditTypes(types: seq<(string, Value)>, providerTags: ProviderTags.TagMap,
                    filterProvider: Option<string>, filterResource: Option<string>)
    returns (untagged: seq<Untagged>)
    ensures untagged == FlatMap(ReportOf(providerTags, filterProvider, filterResource),
                                FlatMap(TypeInstances, types))
  {
    ghost var report := ReportOf(providerTags, filterProvider, filterResource);
    ghost var seen: seq<Instance> := [];
    untagged := [];
    var j := 0;
    while j < |types|
      invariant 0 <= j <= |types|
      invariant seen == FlatMap(TypeInstances, types[..j])
      invariant untagged == FlatMap(report, seen)
    {
      FlatMapPrefix(TypeInstances, types, j);
      FlatMapConcat(report, seen, TypeInstances(types[j]));
      var resType := types[j].0;
      var instances := types[j].1;
      seen := seen + TypeInstances(types[j]);
      j := j + 1;
      if Active(filterResource) && resType != filterResource.value {
        FilteredTypeReportsNothing(types[j - 1], providerTags, filterProvider, filterResource);
        continue;
      }
      if !instances.VMap? {
        continue;
      }
      var found := AuditInstances(resType, instances.entries, providerTags, filterProvider, filterResource);
      untagged := untagged + found;
    }
    assert types[..j] == types;
  }

  method FindResourcesMissingTags(blocks: Value, providerTags: ProviderTags.TagMap,
                                  filterProvider: Option<string>, filterResource: Option<string>)
    returns (untagged: seq<Untagged>)
    ensures untagged == MissingTags(blocks, providerTags, filterProvider, filterResource)
  {
    untagged := [];
    if !blocks.VList? {
      return;
    }
    ghost var report := ReportOf(providerTags, filterProvider, filterResource);
    var bs := blocks.items;
    var i := 0;
    while i < |bs|
      invariant 0 <= i <= |bs|
      invariant untagged == FlatMap(report, FlatMap(BlockInstances, bs[..i]))
    {
      FlatMapPrefix(BlockInstances, bs, i);
      FlatMapConcat(report, FlatMap(BlockInstances, bs[..i]), BlockInstances(bs[i]));
      var block := bs[i];
      i := i + 1;
      if !block.VMap? || !HasKey(block, "resource") {
        continue;
      }
      var resourceBlock := Get(block, "resource");
      if !resourceBlock.VMap? {
        continue;
      }
      var found := AuditTypes(resourceBlock.entries, providerTags, filterProvider, filterResource);
      untagged := untagged + found;
    }
    assert bs[..i] == bs;
  }

  // ---------- Properties ----------

  /** Any non-empty provider map, whatever providers it names, exempts every resource. */
  lemma ExemptWhenAnyProviderDefaults(doc: Value, providerTags: ProviderTags.TagMap,
                                      filterProvider: Option<string>, filterResource: Option<string>)
    requires providerTags != map[]
    ensures MissingTags(doc, providerTags, filterProvider, filterResource) == []
  {
    FlatMapEmpty(ReportOf(providerTags, filterProvider, filterResource), DocInstances(doc));
  }

  lemma ReportedMember(doc: Value, providerTags: ProviderTags.TagMap,
                       filterProvider: Option<string>, filterResource: Option<string>, u: Untagged)
    ensures u in MissingTags(doc, providerTags, filterProvider, filterResource) <==>
              exists k :: 0 <= k < |DocInstances(doc)|
                          && Reported(DocInstances(doc)[k], providerTags, filterProvider, filterResource)
                          && u == Untagged(DocInstances(doc)[k].resType, DocInstances(doc)[k].name)
  {
    FlatMapMember(ReportOf(providerTags, filterProvider, filterResource), DocInstances(doc), u);
  }

  /**
   * Every reported resource is an instance of the document with a dictionary
   * configuration and no truthy "tags" (a present but empty "tags" counts as
   * missing), and it passes both filters.
   */
  lemma ReportedAreUntagged(doc: Value, providerTags: ProviderTags.TagMap,
                            filterProvider: Option<string>, filterResource: Option<string>, u: Untagged)
    requires u in MissingTags(doc, providerTags, filterProvider, filterResource)
    ensures exists k :: 0 <= k < |DocInstances(doc)|
                        && DocInstances(doc)[k].resType == u.resType && DocInstances(doc)[k].name == u.name
                        && DocInstances(doc)[k].config.VMap? && !HasTags(DocInstances(doc)[k].config)
    ensures Active(filterResource) ==> u.resType == filterResource.value
    ensures Active(filterProvider) ==> filterProvider.value <= u.resType
  {
    ReportedMember(doc, providerTags, filterProvider, filterResource, u);
  }

  /** A `filter_provider` that is None or the empty string changes nothing, whatever `filter_resource` is. */
  lemma FalsyProviderFilterIgnored(doc: Value, providerTags: ProviderTags.TagMap,
                                   filterProvider: Option<string>, filterResource: Option<string>)
    requires !Active(filterProvider)
    ensures MissingTags(doc, providerTags, filterProvider, filterResource)
            == MissingTags(doc, providerTags, None, filterResource)
  {
    FlatMapCongruent(ReportOf(providerTags, filterProvider, filterResource), ReportOf(providerTags, None, filterResource),
                     DocInstances(doc));
  }

  /** A `filter_resource` that is None or the empty string changes nothing, whatever `filter_provider` is. */
  lemma FalsyResourceFilterIgnored(doc: Value, providerTags: ProviderTags.TagMap,
                                   filterProvider: Option<string>, filterResource: Option<string>)
    requires !Active(filterResource)
    ensures MissingTags(doc, providerTags, filterProvider, filterResource)
            == MissingTags(doc, providerTags, filterProvider, None)
  {
    FlatMapCongruent(ReportOf(providerTags, filterProvider, filterResource), ReportOf(providerTags, filterProvider, None),
                     DocInstances(doc));
  }

  /** With both filters falsy the audit is the unfiltered one. */
  lemma FalsyFiltersHaveNoEffect(doc: Value, providerTags: ProviderTags.TagMap,
                                 filterProvider: Option<string>, filterResource: Option<string>)
    requires !Active(filterProvider) && !Active(filterResource)
    ensures MissingTags(doc, providerTags, filterProvider, filterResource) == MissingTags(doc, providerTags, None, None)
  {
    FalsyProviderFilterIgnored(doc, providerTags, filterProvider, filterResource);
    FalsyResourceFilterIgnored(doc, providerTags, None, filterResource);
  }

  /**
   * With an empty provider map and no filters, every instance with a
   * dictionary configuration and no truthy tags is reported.
   */
  lemma UntaggedAreReported(doc: Value, k: nat)
    requires k < |DocInstances(doc)|
    requires DocInstances(doc)[k].config.VMap? && !HasTags(DocInstances(doc)[k].config)
    ensures Untagged(DocInstances(doc)[k].resType, DocInstances(doc)[k].name) in MissingTags(doc, map[], None, None)
  {
    ReportedMember(doc, map[], None, None, Untagged(DocInstances(doc)[k].resType, DocInstances(doc)[k].name));
  }

  /** The findings of a block list are those of its first blocks followed by those of the rest. */
  lemma ReportFollowsBlockOrder(first: seq<Value>, rest: seq<Value>, providerTags: ProviderTags.TagMap,
                                filterProvider: Option<string>, filterResource: Option<string>)
    ensures MissingTags(VList(first + rest), providerTags, filterProvider, filterResource)
            == MissingTags(VList(first), providerTags, filterProvider, filterResource)
               + MissingTags(VList(rest), providerTags, filterProvider, filterResource)
  {
    FlatMapConcat(BlockInstances, first, rest);
    FlatMapConcat(ReportOf(providerTags, filterProvider, filterResource),
                  FlatMap(BlockInstances, first), FlatMap(BlockInstances, rest));
  }

  /** The number of instances that an empty provider map and no filters let through as (type, name). */
  function UntaggedCount(insts: seq<Instance>, u: Untagged): nat
    decreases |insts|
  {
    if insts == [] then 0
    else
      var last := insts[|insts| - 1];
      UntaggedCount(insts[..|insts| - 1], u)
      + if last.config.VMap? && !HasTags(last.config) && last.resType == u.resType && last.name == u.name
        then 1 else 0
  }

  /** Each untagged instance is reported once per occurrence: no duplicates, no merging. */
  lemma {:induction false} ReportedOncePerOccurrence(insts: seq<Instance>, u: Untagged)
    ensures multiset(FlatMap(ReportOf(map[], None, None), insts))[u] == UntaggedCount(insts, u)
    decreases |insts|
  {
    if insts != [] {
      ReportedOncePerOccurrence(insts[..|insts| - 1], u);
    }
  }

  lemma DocReportedOncePerOccurrence(doc: Value, u: Untagged)
    ensures multiset(MissingTags(doc, map[], None, None))[u] == UntaggedCount(DocInstances(doc), u)
  {
    ReportedOncePerOccurrence(DocInstances(doc), u);
  }
}
