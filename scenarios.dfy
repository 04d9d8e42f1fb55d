/**
 * Small concrete documents, worked through the model: what the audit does
 * on them, including where its single-pass, any-provider design shows.
 */
module Scenarios {
  import opened Wrappers
  import opened Values
  import opened Seqs
  import opened ProviderTags
  import opened ResourceTags
  import opened AuditTags

  /** `provider "<name>" { default_tags { tags = <tags> } }` */
  function ProviderBlock(name: string, defaultTags: Value): Value {
    VMap([("provider", VMap([(name, VMap([("default_tags", defaultTags)]))]))])
  }

  /** `resource "<resType>" "web" { ... }` with the given configuration. */
  function ResourceBlock(resType: string, config: Value): Value {
    VMap([("resource", VMap([(resType, VMap([("web", config)]))]))])
  }

  const OwnerTags: Value := VMap([("Owner", VStr("x"))])

  lemma ProviderBlockShape(name: string, defaultTags: Value)
    ensures BlockCandidates(ProviderBlock(name, defaultTags)) == [(name, VMap([("default_tags", defaultTags)]))]
    ensures BlockInstances(ProviderBlock(name, defaultTags)) == []
  {
    assert "provider" != "resource";
    LookupOne("provider", VMap([(name, VMap([("default_tags", defaultTags)]))]), "resource");
    LookupOne("provider", VMap([(name, VMap([("default_tags", defaultTags)]))]), "provider");
    FlatMapOne(ConfigCandidates, (name, VMap([("default_tags", defaultTags)])));
  }

  lemma ResourceBlockShape(resType: string, config: Value)
    ensures BlockInstances(ResourceBlock(resType, config)) == [Instance(resType, "web", config)]
    ensures BlockCandidates(ResourceBlock(resType, config)) == []
  {
    assert "provider" != "resource";
    var types := VMap([(resType, VMap([("web", config)]))]);
    LookupOne("resource", types, "resource");
    LookupOne("resource", types, "provider");
    FlatMapOne(InstanceOf(resType), ("web", config));
    FlatMapOne(TypeInstances, (resType, VMap([("web", config)])));
  }

  /** A one-provider document records its tags when they are a truthy dictionary's "tags"... */
  lemma ProviderDocDefaults(name: string, tags: Value)
    requires Truthy(tags)
    ensures ProviderDefaults(VList([ProviderBlock(name, VMap([("tags", tags)]))])) == Ok(map[name := tags])
    ensures DocInstances(VList([ProviderBlock(name, VMap([("tags", tags)]))])) == []
  {
    var block := ProviderBlock(name, VMap([("tags", tags)]));
    var conf := VMap([("default_tags", VMap([("tags", tags)]))]);
    ProviderBlockShape(name, VMap([("tags", tags)]));
    FlatMapOne(BlockCandidates, block);
    FlatMapOne(BlockInstances, block);
    LookupOne("default_tags", VMap([("tags", tags)]), "default_tags");
    LookupOne("tags", tags, "tags");
    var cs := [(name, conf)];
    assert DocCandidates(VList([block])) == cs;
    assert cs[..0] == [];
    assert FoldFrom(Ok(map[]), cs) == Step(FoldFrom(Ok(map[]), []), cs[0]);
  }

  /** ... and raises when `default_tags` is not a dictionary. */
  lemma ProviderDocRaises(name: string, defaultTags: Value)
    requires !defaultTags.VMap?
    ensures ProviderDefaults(VList([ProviderBlock(name, defaultTags)])) == Err(DefaultTagsNotMap(name))
  {
    var block := ProviderBlock(name, defaultTags);
    var conf := VMap([("default_tags", defaultTags)]);
    ProviderBlockShape(name, defaultTags);
    FlatMapOne(BlockCandidates, block);
    LookupOne("default_tags", defaultTags, "default_tags");
    var cs := [(name, conf)];
    assert DocCandidates(VList([block])) == cs;
    assert cs[..0] == [];
    assert FoldFrom(Ok(map[]), cs) == Step(FoldFrom(Ok(map[]), []), cs[0]);
  }

  /** A one-resource document: its report and its (absent) provider defaults. */
  lemma ResourceDocReport(resType: string, config: Value, providerTags: TagMap)
    ensures MissingTags(VList([ResourceBlock(resType, config)]), providerTags, None, None)
            == if config.VMap? && !HasTags(config) && providerTags == map[] then [Untagged(resType, "web")] else []
    ensures ProviderDefaults(VList([ResourceBlock(resType, config)])) == Ok(map[])
  {
    ResourceBlockShape(resType, config);
    FlatMapOne(BlockInstances, ResourceBlock(resType, config));
    FlatMapOne(BlockCandidates, ResourceBlock(resType, config));
    FlatMapOne(ReportOf(providerTags, None, None), Instance(resType, "web", config));
  }

  /** The loop body on a parsed file whose provider defaults are known. */
  lemma ScanParsedFile(s: ScanState, path: string, doc: Value, defaults: TagMap)
    requires Truthy(doc) && ProviderDefaults(doc) == Ok(defaults)
    ensures ScanFile(s, (path, Some(doc)))
            == Ok(ScanState(s.providerTags + defaults,
                            s.findings + Map(WithPath(path), MissingTags(doc, s.providerTags + defaults, None, None))))
  {
  }

  lemma ScanOne(file: SourceFile)
    ensures Scan([file]) == ScanFile(ScanState(map[], []), file)
  {
    assert [file][..0] == [];
  }

  lemma ScanTwo(first: SourceFile, second: SourceFile)
    ensures Scan([first, second]) == match ScanFile(ScanState(map[], []), first)
                                     case Err(e) => Err(e)
                                     case Ok(s) => ScanFile(s, second)
  {
    assert [first, second][..1] == [first];
    ScanOne(first);
  }

  /** Scanning a file without provider defaults whose only resource is `u`, reported unless defaults are known. */
  lemma ResourceFileStep(s: ScanState, path: string, doc: Value, u: Untagged)
    requires Truthy(doc) && ProviderDefaults(doc) == Ok(map[])
    requires MissingTags(doc, s.providerTags, None, None) == if s.providerTags == map[] then [u] else []
    ensures ScanFile(s, (path, Some(doc)))
            == Ok(ScanState(s.providerTags, s.findings + if s.providerTags == map[] then [Finding(path, u)] else []))
  {
    var none: TagMap := map[];
    ScanParsedFile(s, path, doc, none);
    assert s.providerTags + none == s.providerTags;
    if s.providerTags == map[] {
      assert Map(WithPath(path), [u]) == [Finding(path, u)];
    } else {
      assert Map(WithPath(path), []) == [];
      assert s.findings + [] == s.findings;
    }
  }

  /**
   * A file whose only content is one resource "web" with a dictionary
   * configuration and no truthy tags: its finding is added, with the file's
   * path, exactly when no provider defaults are known yet.
   */
  lemma UntaggedResourceFileStep(s: ScanState, path: string, resType: string, config: Value)
    requires config.VMap? && !HasTags(config)
    ensures ScanFile(s, (path, Some(VList([ResourceBlock(resType, config)]))))
            == Ok(ScanState(s.providerTags, s.findings + if s.providerTags == map[]
                                                          then [Finding(path, Untagged(resType, "web"))]
                                                          else []))
  {
    ResourceDocReport(resType, config, s.providerTags);
    ResourceFileStep(s, path, VList([ResourceBlock(resType, config)]), Untagged(resType, "web"));
  }

  /** Scanning a file that holds only a provider block with truthy default tags. */
  lemma ProviderFileStep(s: ScanState, path: string, name: string, tags: Value)
    requires Truthy(tags)
    ensures ScanFile(s, (path, Some(VList([ProviderBlock(name, VMap([("tags", tags)]))]))))
            == Ok(ScanState(s.providerTags + map[name := tags], s.findings))
  {
    var doc := VList([ProviderBlock(name, VMap([("tags", tags)]))]);
    ProviderDocDefaults(name, tags);
    ScanParsedFile(s, path, doc, map[name := tags]);
    assert name in map[name := tags];
    ExemptWhenAnyProviderDefaults(doc, s.providerTags + map[name := tags], None, None);
    assert Map(WithPath(path), []) == [];
    assert s.findings + [] == s.findings;
  }

  /** A file with a provider's truthy defaults and one resource without tags, of any type. */
  lemma ProviderAndResourceFile(path: string, name: string, tags: Value, resType: string, config: Value)
    requires Truthy(tags) && config.VMap? && !HasTags(config)
    ensures Scan([(path, Some(VList([ProviderBlock(name, VMap([("tags", tags)])), ResourceBlock(resType, config)])))])
            == Ok(ScanState(map[name := tags], []))
  {
    var pblock := ProviderBlock(name, VMap([("tags", tags)]));
    var rblock := ResourceBlock(resType, config);
    var doc := VList([pblock, rblock]);
    var defaults := map[name := tags];
    ProviderDocDefaults(name, tags);
    ResourceBlockShape(resType, config);
    FlatMapOne(BlockCandidates, pblock);
    FlatMapTwo(BlockCandidates, pblock, rblock);
    assert DocCandidates(doc) == DocCandidates(VList([pblock]));
    assert name in defaults;
    var none: TagMap := map[];
    assert none + defaults == defaults;
    ExemptWhenAnyProviderDefaults(doc, defaults, None, None);
    ScanParsedFile(ScanState(none, []), path, doc, defaults);
    assert Map(WithPath(path), []) == [];
    ScanOne((path, Some(doc)));
  }

  /** A resource without "tags" in a file whose provider declares default tags is not reported. */
  lemma ProviderDefaultsInSameFileExempt()
    ensures Scan([("main.tf", Some(VList([ProviderBlock("aws", VMap([("tags", OwnerTags)])),
                                          ResourceBlock("aws_instance", VMap([]))])))])
            == Ok(ScanState(map["aws" := OwnerTags], []))
  {
    ProviderAndResourceFile("main.tf", "aws", OwnerTags, "aws_instance", VMap([]));
  }

  /** `tags = {}` is present but empty, so the resource is reported. */
  lemma EmptyTagsReported()
    ensures Scan([("main.tf", Some(VList([ResourceBlock("aws_instance", VMap([("tags", VMap([]))]))])))])
            == Ok(ScanState(map[], [Finding("main.tf", Untagged("aws_instance", "web"))]))
  {
    var config := VMap([("tags", VMap([]))]);
    var doc := VList([ResourceBlock("aws_instance", config)]);
    var none: TagMap := map[];
    var noFindings: seq<Finding> := [];
    var found := [Finding("main.tf", Untagged("aws_instance", "web"))];
    LookupOne("tags", VMap([]), "tags");
    assert !HasTags(config);
    ResourceDocReport("aws_instance", config, none);
    ResourceFileStep(ScanState(none, noFindings), "main.tf", doc, Untagged("aws_instance", "web"));
    assert noFindings + found == found;
    assert ScanFile(ScanState(none, noFindings), ("main.tf", Some(doc))) == Ok(ScanState(none, found));
    ScanOne(("main.tf", Some(doc)));
  }

  /** A file with one untagged resource, scanned before the file that declares provider defaults: reported. */
  lemma ResourceBeforeProviderReported(resPath: string, provPath: string, resType: string, name: string, tags: Value)
    requires Truthy(tags)
    ensures Scan([(resPath, Some(VList([ResourceBlock(resType, VMap([]))]))),
                  (provPath, Some(VList([ProviderBlock(name, VMap([("tags", tags)]))])))])
            == Ok(ScanState(map[name := tags], [Finding(resPath, Untagged(resType, "web"))]))
  {
    var res := VList([ResourceBlock(resType, VMap([]))]);
    var prov := VList([ProviderBlock(name, VMap([("tags", tags)]))]);
    var none: TagMap := map[];
    var noFindings: seq<Finding> := [];
    var u := Untagged(resType, "web");
    var found := [Finding(resPath, u)];
    assert none + map[name := tags] == map[name := tags];
    ResourceDocReport(resType, VMap([]), none);
    ResourceFileStep(ScanState(none, noFindings), resPath, res, u);
    assert noFindings + found == found;
    ProviderFileStep(ScanState(none, found), provPath, name, tags);
    ScanTwo((resPath, Some(res)), (provPath, Some(prov)));
  }

  /**
   * The same two files in the other order: the defaults are known first and
   * exempt the resource, whatever its type and whatever the provider's name.
   */
  lemma ProviderBeforeResourceExempt(resPath: string, provPath: string, resType: string, name: string, tags: Value)
    requires Truthy(tags)
    ensures Scan([(provPath, Some(VList([ProviderBlock(name, VMap([("tags", tags)]))]))),
                  (resPath, Some(VList([ResourceBlock(resType, VMap([]))])))])
            == Ok(ScanState(map[name := tags], []))
  {
    var res := VList([ResourceBlock(resType, VMap([]))]);
    var prov := VList([ProviderBlock(name, VMap([("tags", tags)]))]);
    var defaults: TagMap := map[name := tags];
    var none: TagMap := map[];
    var noFindings: seq<Finding> := [];
    assert none + defaults == defaults;
    assert name in defaults;
    ProviderFileStep(ScanState(none, noFindings), provPath, name, tags);
    ResourceDocReport(resType, VMap([]), defaults);
    ResourceFileStep(ScanState(defaults, noFindings), resPath, res, Untagged(resType, "web"));
    assert noFindings + noFindings == noFindings;
    ScanTwo((provPath, Some(prov)), (resPath, Some(res)));
  }

  /**
   * A single pass: defaults declared in a later file are not applied to an
   * earlier file's resources, so swapping two files changes the report.
   */
  lemma SinglePassOrderMatters(resPath: string, provPath: string, resType: string, name: string, tags: Value)
    requires Truthy(tags)
    ensures Scan([(resPath, Some(VList([ResourceBlock(resType, VMap([]))]))),
                  (provPath, Some(VList([ProviderBlock(name, VMap([("tags", tags)]))])))]).Ok?
    ensures Scan([(provPath, Some(VList([ProviderBlock(name, VMap([("tags", tags)]))]))),
                  (resPath, Some(VList([ResourceBlock(resType, VMap([]))])))]).Ok?
    ensures Scan([(resPath, Some(VList([ResourceBlock(resType, VMap([]))]))),
                  (provPath, Some(VList([ProviderBlock(name, VMap([("tags", tags)]))])))]).value.findings
            != Scan([(provPath, Some(VList([ProviderBlock(name, VMap([("tags", tags)]))]))),
                     (resPath, Some(VList([ResourceBlock(resType, VMap([]))])))]).value.findings
  {
    ResourceBeforeProviderReported(resPath, provPath, resType, name, tags);
    ProviderBeforeResourceExempt(resPath, provPath, resType, name, tags);
  }

  /** `default_tags = [ ... ]` is not a dictionary: `.get` raises and the scan ends. */
  lemma DefaultTagsListRaises()
    ensures Scan([("main.tf", Some(VList([ProviderBlock("aws", VList([VMap([("tags", OwnerTags)])]))])))])
            == Err(DefaultTagsNotMap("aws"))
  {
    ProviderDocRaises("aws", VList([VMap([("tags", OwnerTags)])]));
    ScanOne(("main.tf", Some(VList([ProviderBlock("aws", VList([VMap([("tags", OwnerTags)])]))]))));
  }
}
