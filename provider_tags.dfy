/**
 * `find_provider_default_tags` (utils.py): for every provider configuration
 * in a parsed document, record the provider's truthy `default_tags.tags`.
 *
 * The specification flattens the document into its candidates: one
 * (provider name, configuration) pair per configuration, in document order.
 * A single configuration dictionary is one candidate; a list gives one
 * candidate per element. The result is the left fold `Fold` of `Record`
 * over the candidates. `FindProviderDefaultTags` is the loop nest of the
 * source, proved to compute that fold.
 */
module ProviderTags {
  import opened Wrappers
  import opened Values
  import opened Seqs

  /** Provider name to its default tags, Python's `provider_tags` dict. */
  type TagMap = map<string, Value>

  /**
   * `conf["default_tags"].get("tags", {})` raises when `default_tags` is not
   * a dictionary; the error names the provider whose configuration raised.
   */
  datatype Error = DefaultTagsNotMap(provider: string)

  /** A provider name with one of its configurations. */
  type Candidate = (string, Value)

  // ---------- Shape of the document ----------

  /** A block the loop looks into: a dictionary whose "provider" entry is a dictionary. */
  predicate IsProviderBlock(block: Value) {
    block.VMap? && HasKey(block, "provider") && Get(block, "provider").VMap?
  }

  function PairWith(name: string): Value -> seq<Candidate> {
    conf => [(name, conf)]
  }

  /** The configurations of one provider name: a list's elements, or a dictionary on its own. */
  function ConfigCandidates(entry: (string, Value)): seq<Candidate> {
    if entry.1.VList? then FlatMap(PairWith(entry.0), entry.1.items)
    else if entry.1.VMap? then [entry]
    else []
  }

  function BlockCandidates(block: Value): seq<Candidate> {
    if IsProviderBlock(block) then FlatMap(ConfigCandidates, Get(block, "provider").entries) else []
  }

  /** Every (provider name, configuration) of the document, in document order. */
  function DocCandidates(doc: Value): seq<Candidate> {
    if doc.VList? then FlatMap(BlockCandidates, doc.items) else []
  }

  // ---------- What one configuration contributes ----------

  /** A dictionary configuration that has a "default_tags" key. */
  predicate Declares(conf: Value) {
    conf.VMap? && HasKey(conf, "default_tags")
  }

  /** A configuration on which `.get` raises: its `default_tags` is not a dictionary. */
  predicate Faulty(c: Candidate) {
    Declares(c.1) && !Get(c.1, "default_tags").VMap?
  }

  /** A configuration that gets recorded: its `default_tags.tags` is truthy. */
  predicate Qualifies(c: Candidate) {
    Declares(c.1) && Get(c.1, "default_tags").VMap?
    && Truthy(GetOr(Get(c.1, "default_tags"), "tags", VMap([])))
  }

  function TagsOf(c: Candidate): Value
    requires Qualifies(c)
  {
    GetOr(Get(c.1, "default_tags"), "tags", VMap([]))
  }

  /** The effect of one configuration on the map built so far. */
  function Record(acc: TagMap, c: Candidate): Result<TagMap, Error> {
    if Faulty(c) then Err(DefaultTagsNotMap(c.0))
    else if Qualifies(c) then Ok(acc[c.0 := TagsOf(c)])
    else Ok(acc)
  }

  /** Python's exception stops the loops: after an error nothing more is recorded. */
  function Step(r: Result<TagMap, Error>, c: Candidate): Result<TagMap, Error> {
    match r
    case Err(e) => Err(e)
    case Ok(acc) => Record(acc, c)
  }

  /** Processing the candidates cs in order, starting from r. */
  function FoldFrom(r: Result<TagMap, Error>, cs: seq<Candidate>): Result<TagMap, Error>
    decreases |cs|
  {
    if cs == [] then r else Step(FoldFrom(r, cs[..|cs| - 1]), cs[|cs| - 1])
  }

  /** What `find_provider_default_tags(doc)` returns, or the error it raises. */
  function ProviderDefaults(doc: Value): (r: Result<TagMap, Error>)
    ensures !doc.VList? ==> r == Ok(map[])
  {
    FoldFrom(Ok(map[]), DocCandidates(doc))
  }

  lemma {:induction false} FoldFromErr(e: Error, cs: seq<Candidate>)
    ensures FoldFrom(Err(e), cs) == Err(e)
    decreases |cs|
  {
    if cs != [] {
      FoldFromErr(e, cs[..|cs| - 1]);
    }
  }

  lemma {:induction false} FoldFromConcat(r: Result<TagMap, Error>, xs: seq<Candidate>, ys: seq<Candidate>)
    ensures FoldFrom(r, xs + ys) == FoldFrom(FoldFrom(r, xs), ys)
    decreases |ys|
  {
    if ys == [] {
      assert xs + ys == xs;
    } else {
      var n := |ys| - 1;
      assert (xs + ys)[..|xs + ys| - 1] == xs + ys[..n];
      FoldFromConcat(r, xs, ys[..n]);
    }
  }

  // ---------- The source's loops ----------

  /** The body shared by both branches of the source: one configuration dictionary. */
  method RecordConfig(providerTags: TagMap, providerName: string, conf: Value) returns (r: Result<TagMap, Error>)
    ensures r == Record(providerTags, (providerName, conf))
  {
    r := Ok(providerTags);
    if conf.VMap? && HasKey(conf, "default_tags") {
      var defaultTags := Get(conf, "default_tags");
      if !defaultTags.VMap? {
        return Err(DefaultTagsNotMap(providerName));
      }
      var tags := GetOr(defaultTags, "tags", VMap([]));
      if Truthy(tags) {
        r := Ok(providerTags[providerName := tags]);
      }
    }
  }

  /** One provider name and its configuration: a list of configurations or a single one. */
  method RecordProvider(providerTags: TagMap, providerName: string, providerConfig: Value)
    returns (r: Result<TagMap, Error>)
    ensures r == FoldFrom(Ok(providerTags), ConfigCandidates((providerName, providerConfig)))
  {
    if providerConfig.VList? {
      var confs := providerConfig.items;
      var acc := providerTags;
      var k := 0;
      while k < |confs|
        invariant 0 <= k <= |confs|
        invariant FoldFrom(Ok(providerTags), FlatMap(PairWith(providerName), confs[..k])) == Ok(acc)
      {
        FlatMapPrefix(PairWith(providerName), confs, k);
        FoldFromConcat(Ok(providerTags), FlatMap(PairWith(providerName), confs[..k]), [(providerName, confs[k])]);
        var step := RecordConfig(acc, providerName, confs[k]);
        if step.Err? {
          FlatMapSplit(PairWith(providerName), confs, k);
          FoldFromConcat(Ok(providerTags), FlatMap(PairWith(providerName), confs[..k + 1]),
                         FlatMap(PairWith(providerName), confs[k + 1..]));
          FoldFromErr(step.error, FlatMap(PairWith(providerName), confs[k + 1..]));
          return step;
        }
        acc := step.value;
        k := k + 1;
      }
      assert confs[..k] == confs;
      r := Ok(acc);
    } else if providerConfig.VMap? {
      assert FoldFrom(Ok(providerTags), [(providerName, providerConfig)])
          == Step(FoldFrom(Ok(providerTags), []), (providerName, providerConfig));
      r := RecordConfig(providerTags, providerName, providerConfig);
    } else {
      r := Ok(providerTags);
    }
  }

  method FindProviderDefaultTags(blocks: Value) returns (r: Result<TagMap, Error>)
    ensures r == ProviderDefaults(blocks)
  {
    var providerTags: TagMap := map[];
    if !blocks.VList? {
      return Ok(providerTags);
    }
    var bs := blocks.items;
    var i := 0;
    while i < |bs|
      invariant 0 <= i <= |bs|
      invariant FoldFrom(Ok(providerTags), FlatMap(BlockCandidates, bs[i..])) == ProviderDefaults(blocks)
    {
      FlatMapSuffix(BlockCandidates, bs, i);
      ghost var later := FlatMap(BlockCandidates, bs[i + 1..]);
      FoldFromConcat(Ok(providerTags), BlockCandidates(bs[i]), later);
      var block := bs[i];
      if !block.VMap? || !HasKey(block, "provider") {
        i := i + 1;
        continue;
      }
      var providerBlock := Get(block, "provider");
      if !providerBlock.VMap? {
        i := i + 1;
        continue;
      }
      var es := providerBlock.entries;
      var j := 0;
      while j < |es|
        invariant 0 <= j <= |es|
        invariant FoldFrom(FoldFrom(Ok(providerTags), FlatMap(ConfigCandidates, es[j..])), later)
                  == ProviderDefaults(blocks)
      {
        FlatMapSuffix(ConfigCandidates, es, j);
        FoldFromConcat(Ok(providerTags), ConfigCandidates(es[j]), FlatMap(ConfigCandidates, es[j + 1..]));
        var step := RecordProvider(providerTags, es[j].0, es[j].1);
        if step.Err? {
          FoldFromErr(step.error, FlatMap(ConfigCandidates, es[j + 1..]));
          FoldFromErr(step.error, later);
          return step;
        }
        providerTags := step.value;
        j := j + 1;
      }
      assert es[j..] == [];
      i := i + 1;
    }
    assert bs[i..] == [];
    return Ok(providerTags);
  }

  // ---------- Properties ----------

  /**
   * The fold fails exactly when some candidate has a non-dictionary
   * `default_tags`, and the error names the first such candidate.
   */
  lemma {:induction false} FoldRaises(cs: seq<Candidate>)
    ensures FoldFrom(Ok(map[]), cs).Err? <==> exists k :: 0 <= k < |cs| && Faulty(cs[k])
    ensures FoldFrom(Ok(map[]), cs).Err? ==>
              exists k :: 0 <= k < |cs| && Faulty(cs[k])
                          && FoldFrom(Ok(map[]), cs).error == DefaultTagsNotMap(cs[k].0)
                          && forall j :: 0 <= j < k ==> !Faulty(cs[j])
    decreases |cs|
  {
    if cs != [] {
      var n := |cs| - 1;
      var p := cs[..n];
      FoldRaises(p);
      assert forall j :: 0 <= j < n ==> p[j] == cs[j];
      if FoldFrom(Ok(map[]), p).Err? {
        var k :| 0 <= k < n && Faulty(p[k]) && FoldFrom(Ok(map[]), p).error == DefaultTagsNotMap(p[k].0)
                 && forall j :: 0 <= j < k ==> !Faulty(p[j]);
        assert Faulty(cs[k]);
      } else if Faulty(cs[n]) {
        assert forall j :: 0 <= j < n ==> !Faulty(cs[j]);
      }
    }
  }

  /** The last step of the fold, when nothing raised. */
  lemma FoldLast(cs: seq<Candidate>)
    requires cs != [] && FoldFrom(Ok(map[]), cs).Ok?
    ensures FoldFrom(Ok(map[]), cs[..|cs| - 1]).Ok? && !Faulty(cs[|cs| - 1])
    ensures FoldFrom(Ok(map[]), cs).value
            == if Qualifies(cs[|cs| - 1])
               then FoldFrom(Ok(map[]), cs[..|cs| - 1]).value[cs[|cs| - 1].0 := TagsOf(cs[|cs| - 1])]
               else FoldFrom(Ok(map[]), cs[..|cs| - 1]).value
  {
  }

  lemma {:induction false} FoldRecordsKey(cs: seq<Candidate>, name: string)
    requires FoldFrom(Ok(map[]), cs).Ok?
    ensures name in FoldFrom(Ok(map[]), cs).value <==> exists k :: 0 <= k < |cs| && cs[k].0 == name && Qualifies(cs[k])
    decreases |cs|
  {
    if cs != [] {
      var n := |cs| - 1;
      var p := cs[..n];
      FoldLast(cs);
      FoldRecordsKey(p, name);
      assert forall j :: 0 <= j < n ==> p[j] == cs[j];
    }
  }

  lemma {:induction false} FoldRecordsLast(cs: seq<Candidate>, name: string)
    requires FoldFrom(Ok(map[]), cs).Ok? && name in FoldFrom(Ok(map[]), cs).value
    ensures exists k :: 0 <= k < |cs| && cs[k].0 == name && Qualifies(cs[k])
                        && FoldFrom(Ok(map[]), cs).value[name] == TagsOf(cs[k])
                        && forall j :: k < j < |cs| && cs[j].0 == name ==> !Qualifies(cs[j])
    decreases |cs|
  {
    var n := |cs| - 1;
    var p := cs[..n];
    FoldLast(cs);
    var m := FoldFrom(Ok(map[]), cs).value;
    if cs[n].0 == name && Qualifies(cs[n]) {
      assert m[name] == TagsOf(cs[n]);
      assert 0 <= n < |cs| && cs[n].0 == name && Qualifies(cs[n]) && m[name] == TagsOf(cs[n]);
    } else {
      assert m == FoldFrom(Ok(map[]), p).value || cs[n].0 != name;
      assert name in FoldFrom(Ok(map[]), p).value;
      FoldRecordsLast(p, name);
      var k :| 0 <= k < n && p[k].0 == name && Qualifies(p[k])
               && FoldFrom(Ok(map[]), p).value[name] == TagsOf(p[k])
               && forall j :: k < j < n && p[j].0 == name ==> !Qualifies(p[j]);
      assert p[k] == cs[k];
      assert forall j :: k < j < n ==> p[j] == cs[j];
      assert m[name] == FoldFrom(Ok(map[]), p).value[name];
      assert 0 <= k < |cs| && cs[k].0 == name && Qualifies(cs[k]) && m[name] == TagsOf(cs[k])
             && forall j :: k < j < |cs| && cs[j].0 == name ==> !Qualifies(cs[j]);
    }
  }

  /**
   * The extraction raises exactly when some provider configuration has a
   * `default_tags` entry that is not a dictionary, and it names the first one.
   */
  lemma RaisesIffDefaultTagsNotMap(doc: Value)
    ensures ProviderDefaults(doc).Err? <==>
              exists k :: 0 <= k < |DocCandidates(doc)| && Faulty(DocCandidates(doc)[k])
    ensures ProviderDefaults(doc).Err? ==>
              exists k :: 0 <= k < |DocCandidates(doc)| && Faulty(DocCandidates(doc)[k])
                          && ProviderDefaults(doc).error == DefaultTagsNotMap(DocCandidates(doc)[k].0)
                          && forall j :: 0 <= j < k ==> !Faulty(DocCandidates(doc)[j])
  {
    FoldRaises(DocCandidates(doc));
  }

  /** Only truthy tags are recorded: a provider with empty or absent tags is never a key. */
  lemma RecordedTagsAreTruthy(doc: Value, name: string)
    requires ProviderDefaults(doc).Ok? && name in ProviderDefaults(doc).value
    ensures Truthy(ProviderDefaults(doc).value[name])
  {
    FoldRecordsLast(DocCandidates(doc), name);
  }

  /**
   * A name is recorded exactly when some configuration of it declares truthy
   * `default_tags.tags`, and its value is that of the last such configuration:
   * a later configuration with falsy tags does not erase it.
   */
  lemma RecordedIffQualifying(doc: Value, name: string)
    requires ProviderDefaults(doc).Ok?
    ensures name in ProviderDefaults(doc).value <==>
              exists k :: 0 <= k < |DocCandidates(doc)| && DocCandidates(doc)[k].0 == name
                          && Qualifies(DocCandidates(doc)[k])
  {
    FoldRecordsKey(DocCandidates(doc), name);
  }

  lemma LastConfigWins(doc: Value, name: string)
    requires ProviderDefaults(doc).Ok? && name in ProviderDefaults(doc).value
    ensures exists k :: 0 <= k < |DocCandidates(doc)| && DocCandidates(doc)[k].0 == name
                        && Qualifies(DocCandidates(doc)[k])
                        && ProviderDefaults(doc).value[name] == TagsOf(DocCandidates(doc)[k])
                        && forall j :: k < j < |DocCandidates(doc)| && DocCandidates(doc)[j].0 == name
                                       ==> !Qualifies(DocCandidates(doc)[j])
  {
    FoldRecordsLast(DocCandidates(doc), name);
  }

  /**
   * The candidates are the document's provider configurations: a dictionary
   * configuration of a provider name, or a dictionary-or-not element of a
   * list of configurations, under a block whose "provider" is a dictionary.
   */
  lemma CandidateOrigin(doc: Value, c: Candidate)
    requires doc.VList?
    ensures c in DocCandidates(doc) <==>
              exists b :: b in doc.items && IsProviderBlock(b) &&
                exists e :: e in Get(b, "provider").entries && e.0 == c.0 &&
                  ((e.1.VMap? && e.1 == c.1) || (e.1.VList? && c.1 in e.1.items))
  {
    FlatMapMember(BlockCandidates, doc.items, c);
    forall b | b in doc.items && IsProviderBlock(b)
      ensures c in BlockCandidates(b) <==>
                exists e :: e in Get(b, "provider").entries && e.0 == c.0 &&
                  ((e.1.VMap? && e.1 == c.1) || (e.1.VList? && c.1 in e.1.items))
    {
      var es := Get(b, "provider").entries;
      FlatMapMember(ConfigCandidates, es, c);
      forall e | e in es && e.1.VList?
        ensures c in ConfigCandidates(e) <==> e.0 == c.0 && c.1 in e.1.items
      {
        FlatMapMember(PairWith(e.0), e.1.items, c);
      }
    }
  }

  /** A provider entry whose configuration is one dictionary, rewritten as a one-element list. */
  function AsList(entry: (string, Value)): (string, Value) {
    if entry.1.VMap? then (entry.0, VList([entry.1])) else entry
  }

  function AsListInBlock(entry: (string, Value)): (string, Value) {
    if entry.0 == "provider" && entry.1.VMap? then (entry.0, VMap(Map(AsList, entry.1.entries))) else entry
  }

  function AsListBlock(block: Value): Value {
    if block.VMap? then VMap(Map(AsListInBlock, block.entries)) else block
  }

  /** The document with every single-dictionary provider configuration written as a one-element list. */
  function AsListDoc(doc: Value): Value {
    if doc.VList? then VList(Map(AsListBlock, doc.items)) else doc
  }

  lemma {:induction false} LookupAsListInBlock(es: seq<(string, Value)>)
    ensures Lookup(Map(AsListInBlock, es), "provider")
            == match Lookup(es, "provider")
               case None => None
               case Some(v) => Some(AsListInBlock(("provider", v)).1)
    decreases |es|
  {
    if es != [] {
      assert Map(AsListInBlock, es)[1..] == Map(AsListInBlock, es[1..]);
      LookupAsListInBlock(es[1..]);
    }
  }

  /** A single configuration dictionary and a one-element list holding it give the same result. */
  lemma SingleConfigAsList(doc: Value)
    ensures ProviderDefaults(AsListDoc(doc)) == ProviderDefaults(doc)
  {
    if doc.VList? {
      forall k | 0 <= k < |doc.items|
        ensures BlockCandidates(AsListBlock(doc.items[k])) == BlockCandidates(doc.items[k])
      {
        var b := doc.items[k];
        if b.VMap? {
          LookupAsListInBlock(b.entries);
          if IsProviderBlock(b) {
            var es := Get(b, "provider").entries;
            forall j | 0 <= j < |es| ensures ConfigCandidates(AsList(es[j])) == ConfigCandidates(es[j]) {
              if es[j].1.VMap? {
                assert FlatMap(PairWith(es[j].0), [es[j].1]) == FlatMap(PairWith(es[j].0), []) + [es[j]];
              }
            }
            FlatMapOfMap(ConfigCandidates, AsList, ConfigCandidates, es);
          }
        }
      }
      FlatMapOfMap(BlockCandidates, AsListBlock, BlockCandidates, doc.items);
    }
  }

  /** A block that is not a dictionary, lacks "provider" or whose "provider" is not a dictionary is skipped. */
  lemma SkippedBlockIgnored(before: seq<Value>, block: Value, after: seq<Value>)
    requires !IsProviderBlock(block)
    ensures ProviderDefaults(VList(before + [block] + after)) == ProviderDefaults(VList(before + after))
  {
    FlatMapConcat(BlockCandidates, before + [block], after);
    FlatMapSnoc(BlockCandidates, before, block);
    assert BlockCandidates(block) == [];
    FlatMapConcat(BlockCandidates, before, after);
    assert DocCandidates(VList(before + [block] + after)) == DocCandidates(VList(before + after));
  }
}
