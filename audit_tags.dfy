/**
 * The scan in `main` (audit_tags.py): one pass over the parsed files in
 * traversal order. Each file's provider defaults are merged into a running
 * map (`dict.update`) before the same file's resources are audited against
 * that map, and the findings are collected with their file path. The exit
 * status is 1 when the root path is missing, when the scan raised, or when
 * any finding was collected.
 */
module AuditTags {
  import opened Wrappers
  import opened Values
  import opened Seqs
  import opened ProviderTags
  import opened ResourceTags

  /** A file as the walk hands it over: its path and `parse_hcl_file`'s result (None when parsing failed). */
  type SourceFile = (string, Option<Value>)

  /** One row of the report: `(full_path, {"type": ..., "name": ...})`. */
  datatype Finding = Finding(path: string, resource: Untagged)

  /** The loop's variables: `provider_tags` and `untagged_resources`. */
  datatype ScanState = ScanState(providerTags: TagMap, findings: seq<Finding>)

  /** `if not data: continue` skips a failed parse and a falsy (empty) document. */
  predicate Parsed(file: SourceFile) {
    file.1.Some? && Truthy(file.1.value)
  }

  function WithPath(path: string): Untagged -> Finding {
    r => Finding(path, r)
  }

  /** One iteration of the loop, or the exception that ends the scan. */
  function ScanFile(s: ScanState, file: SourceFile): (r: Result<ScanState, Error>)
    ensures !Parsed(file) ==> r == Ok(s)
    ensures r.Err? <==> Parsed(file) && ProviderDefaults(file.1.value).Err?
    ensures r.Ok? ==> s.providerTags.Keys <= r.value.providerTags.Keys && s.findings <= r.value.findings
  {
    if !Parsed(file) then Ok(s)
    else
      match ProviderDefaults(file.1.value)
      case Err(e) => Err(e)
      case Ok(defaults) =>
        var providerTags := s.providerTags + defaults;
        Ok(ScanState(providerTags,
                     s.findings + Map(WithPath(file.0), MissingTags(file.1.value, providerTags, None, None))))
  }

  /** The state after scanning the files in order, starting from empty. */
  function Scan(files: seq<SourceFile>): Result<ScanState, Error>
    decreases |files|
  {
    if files == [] then Ok(ScanState(map[], []))
    else
      match Scan(files[..|files| - 1])
      case Err(e) => Err(e)
      case Ok(s) => ScanFile(s, files[|files| - 1])
  }

  lemma {:induction false} ScanPrefixErr(files: seq<SourceFile>, i: nat)
    requires i <= |files| && Scan(files[..i]).Err?
    ensures Scan(files) == Scan(files[..i])
    decreases |files| - i
  {
    if i < |files| {
      assert files[..i + 1][..i] == files[..i];
      ScanPrefixErr(files, i + 1);
    } else {
      assert files[..i] == files;
    }
  }

  /** The loop of `main` over the files, with `provider_tags` and `untagged_resources`. */
  method ScanFiles(files: seq<SourceFile>) returns (r: Result<ScanState, Error>)
    ensures r == Scan(files)
  {
    var providerTags: TagMap := map[];
    var untaggedResources: seq<Finding> := [];
    var i := 0;
    while i < |files|
      invariant 0 <= i <= |files|
      invariant Scan(files[..i]) == Ok(ScanState(providerTags, untaggedResources))
    {
      assert files[..i + 1][..i] == files[..i];
      var fullPath := files[i].0;
      var data := files[i].1;
      i := i + 1;
      if data.None? || !Truthy(data.value) {
        continue;
      }
      var defaults := FindProviderDefaultTags(data.value);
      if defaults.Err? {
        ScanPrefixErr(files, i);
        return Err(defaults.error);
      }
      providerTags := providerTags + defaults.value;
      var resources := FindResourcesMissingTags(data.value, providerTags, None, None);
      if resources != [] {
        untaggedResources := untaggedResources + Map(WithPath(fullPath), resources);
      } else {
        assert untaggedResources + Map(WithPath(fullPath), resources) == untaggedResources;
      }
    }
    assert files[..i] == files;
    return Ok(ScanState(providerTags, untaggedResources));
  }

  /** How `main` ends: the root path is missing, an exception escaped, or the scan completed. */
  datatype Outcome = PathNotFound | Crashed(error: Error) | Completed(findings: seq<Finding>)

  /**
   * `main`: a missing root path exits 1 before any scanning; otherwise the
   * exit status is 1 exactly when the scan raised (Python's status for an
   * uncaught exception) or found an untagged resource.
   */
  method Run(pathExists: bool, files: seq<SourceFile>) returns (outcome: Outcome, status: int)
    ensures !pathExists ==> outcome == PathNotFound
    ensures pathExists ==> outcome == match Scan(files)
                                      case Err(e) => Crashed(e)
                                      case Ok(s) => Completed(s.findings)
    ensures status == 0 <==> outcome.Completed? && outcome.findings == []
    ensures status == 0 || status == 1
  {
    if !pathExists {
      return PathNotFound, 1;
    }
    var r := ScanFiles(files);
    if r.Err? {
      return Crashed(r.error), 1;
    }
    outcome := Completed(r.value.findings);
    if r.value.findings != [] {
      status := 1;
    } else {
      status := 0;
    }
  }

  // ---------- Properties ----------

  function ParsedOnly(files: seq<SourceFile>): seq<SourceFile> {
    FlatMap((f: SourceFile) => if Parsed(f) then [f] else [], files)
  }

  /** A file that failed to parse or parsed to an empty document adds no provider defaults and no findings. */
  lemma {:induction false} UnparsedFilesSkipped(files: seq<SourceFile>)
    ensures Scan(files) == Scan(ParsedOnly(files))
    decreases |files|
  {
    if files != [] {
      var n := |files| - 1;
      UnparsedFilesSkipped(files[..n]);
      if Parsed(files[n]) {
        var ps := ParsedOnly(files[..n]) + [files[n]];
        assert ParsedOnly(files) == ps;
        assert ps[..|ps| - 1] == ParsedOnly(files[..n]);
        assert Scan(ps) == match Scan(files[..n]) case Err(e) => Err(e) case Ok(s) => ScanFile(s, files[n]);
      } else {
        assert ParsedOnly(files) == ParsedOnly(files[..n]) + [];
        assert ParsedOnly(files) == ParsedOnly(files[..n]);
        assert Scan(files) == Scan(files[..n]);
      }
    }
  }

  /**
   * Scanning more files only adds: the provider map's keys never shrink and
   * the findings so far stay a prefix of the findings.
   */
  lemma {:induction false} ScanOnlyGrows(files: seq<SourceFile>, i: nat, j: nat)
    requires i <= j <= |files| && Scan(files[..j]).Ok?
    ensures Scan(files[..i]).Ok?
    ensures Scan(files[..i]).value.providerTags.Keys <= Scan(files[..j]).value.providerTags.Keys
    ensures Scan(files[..i]).value.findings <= Scan(files[..j]).value.findings
    decreases j - i
  {
    if i < j {
      assert files[..j][..j - 1] == files[..j - 1];
      ScanOnlyGrows(files, i, j - 1);
    }
  }

  /**
   * A parsed file's defaults overwrite the running map for the providers it
   * names and leave the other providers' entries as they were.
   */
  lemma LaterFileOverwrites(files: seq<SourceFile>, i: nat)
    requires i < |files| && Parsed(files[i]) && Scan(files[..i + 1]).Ok?
    ensures Scan(files[..i]).Ok? && ProviderDefaults(files[i].1.value).Ok?
    ensures forall name :: name in ProviderDefaults(files[i].1.value).value ==>
              name in Scan(files[..i + 1]).value.providerTags
              && Scan(files[..i + 1]).value.providerTags[name] == ProviderDefaults(files[i].1.value).value[name]
    ensures forall name :: name !in ProviderDefaults(files[i].1.value).value ==>
              (name in Scan(files[..i + 1]).value.providerTags <==> name in Scan(files[..i]).value.providerTags)
              && (name in Scan(files[..i]).value.providerTags ==>
                    Scan(files[..i + 1]).value.providerTags[name] == Scan(files[..i]).value.providerTags[name])
  {
    assert files[..i + 1][..i] == files[..i];
  }

  /** Provider defaults in a file suppress that same file's findings: they are merged first. */
  lemma DefaultsSuppressSameFile(files: seq<SourceFile>, i: nat)
    requires i < |files| && Parsed(files[i]) && Scan(files[..i]).Ok?
    requires ProviderDefaults(files[i].1.value).Ok? && ProviderDefaults(files[i].1.value).value != map[]
    ensures Scan(files[..i + 1]).Ok?
    ensures Scan(files[..i + 1]).value.findings == Scan(files[..i]).value.findings
  {
    assert files[..i + 1][..i] == files[..i];
    var s := Scan(files[..i]).value;
    var defaults := ProviderDefaults(files[i].1.value).value;
    var k :| k in defaults;
    assert k in s.providerTags + defaults;
    ExemptWhenAnyProviderDefaults(files[i].1.value, s.providerTags + defaults, None, None);
  }

  /** Once the running map is non-empty, no later file adds a finding. */
  lemma {:induction false} NoFindingsOnceDefaultsKnown(files: seq<SourceFile>, i: nat)
    requires i <= |files| && Scan(files[..i]).Ok? && Scan(files[..i]).value.providerTags != map[]
    requires Scan(files).Ok?
    ensures Scan(files).value.findings == Scan(files[..i]).value.findings
    decreases |files| - i
  {
    if i == |files| {
      assert files[..i] == files;
    } else {
      assert files[..i + 1][..i] == files[..i];
      assert files[..|files|] == files;
      ScanOnlyGrows(files, i + 1, |files|);
      var s := Scan(files[..i]).value;
      if Parsed(files[i]) {
        var k :| k in s.providerTags;
        var defaults := ProviderDefaults(files[i].1.value).value;
        assert k in s.providerTags + defaults;
        ExemptWhenAnyProviderDefaults(files[i].1.value, s.providerTags + defaults, None, None);
      }
      NoFindingsOnceDefaultsKnown(files, i + 1);
    }
  }

  /**
   * Every finding is `(path, r)` for a parsed file of the scan with that path
   * and a resource `r` that the audit of that file's own document reports.
   * The running map was empty when the file was audited, since a non-empty one
   * reports nothing.
   */
  lemma {:induction false} FindingsCarryTheirPath(files: seq<SourceFile>, f: Finding)
    requires Scan(files).Ok? && f in Scan(files).value.findings
    ensures exists k :: 0 <= k < |files| && files[k].0 == f.path && Parsed(files[k])
                        && f.resource in MissingTags(files[k].1.value, map[], None, None)
    decreases |files|
  {
    var n := |files| - 1;
    var s := Scan(files[..n]).value;
    if f in s.findings {
      FindingsCarryTheirPath(files[..n], f);
      var k :| 0 <= k < n && files[..n][k].0 == f.path && Parsed(files[..n][k])
               && f.resource in MissingTags(files[..n][k].1.value, map[], None, None);
      assert files[k] == files[..n][k];
    } else {
      assert Parsed(files[n]);
      var doc := files[n].1.value;
      var providerTags := s.providerTags + ProviderDefaults(doc).value;
      var found := MissingTags(doc, providerTags, None, None);
      assert f in Map(WithPath(files[n].0), found);
      var i :| 0 <= i < |found| && f == WithPath(files[n].0)(found[i]);
      if providerTags != map[] {
        ExemptWhenAnyProviderDefaults(doc, providerTags, None, None);
      }
      assert f.resource in MissingTags(doc, map[], None, None);
    }
  }
}
