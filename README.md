# Terraform tag audit: a verified model

This project models the decision logic of a small tool that audits Terraform/HCL configuration for
resources that carry no tags. There are three parts:

- `find_provider_default_tags` (`utils.py`) collects, per provider name, the truthy
  `default_tags.tags` of every provider configuration in one parsed document.
- `find_resources_missing_tags` (`utils.py`) lists the `resource` instances of a document whose
  configuration has no truthy `tags`, unless the provider map handed to it is non-empty.
- The loop of `main` (`audit_tags.py`) runs over the parsed files in traversal order.
  - For each file it merges the file's provider defaults into a running map with `dict.update`.
  - It then audits that same file against the running map and collects `(path, resource)` findings.
  - It exits with status 1 when the root path is missing or when any finding was collected.

A parsed document is a `Values.Value`: an ordered association list for a dictionary, a list, a
string, or any other scalar, which keeps only its Python truthiness. Each of the three Python
functions is an imperative Dafny method whose loops mirror the source's loops. Each method is proved
to compute a specification function:

- `ProviderTags.ProviderDefaults` is a left fold over the document's (provider name, configuration)
  pairs.
- `ResourceTags.MissingTags` is a filter over the document's resource instances.
- `AuditTags.Scan` is a fold over the files.

The properties are then proved as lemmas about these functions. `scenarios.dfy` works a few concrete
documents through the model.

### Behaviour of the code as written

The docstring of `find_resources_missing_tags` (`utils.py:53-56`) describes the findings as resources
that "do not inherit from a provider with default_tags". Next to that description, three behaviours of
the code are worth stating. The model follows the code in each.

- **Any provider exempts everything.** Line 89 of `utils.py` computes inheritance as
  `bool(provider_tags)`. A resource is exempt whenever *any* provider has recorded defaults, whatever
  the resource's type. It is not matched against its own provider's prefix.
  - `ResourceTags.ExemptWhenAnyProviderDefaults` proves this.
  - `Scenarios.ProviderAndResourceFile` and `Scenarios.ProviderBeforeResourceExempt` hold for every
    provider name and every resource type, so an `azurerm_vm` is exempted by `aws` defaults.
- **A single pass.** Provider defaults declared in a later file are not applied to an earlier
  file's resources, so the report depends on the order of the files. `Scenarios.SinglePassOrderMatters`
  proves that swapping two files changes the report. `Scenarios.ResourceBeforeProviderReported` and
  `Scenarios.ProviderBeforeResourceExempt` give the two outcomes.
- **A malformed `default_tags` raises.**
  - When `default_tags` is present but is not a dictionary, `.get` on it raises. This happens at line
    39 or 44 of `utils.py`.
  - The model returns `Err(DefaultTagsNotMap(provider))`. The error is sticky: nothing after it is
    recorded.
  - `main` does not catch the exception, so the run ends with `AuditTags.Outcome.Crashed` and exit
    status 1, which is Python's status for an uncaught exception. The malformed configuration is not
    skipped.

## Model

| member | source | states |
|---|---|---|
| Values.Truthy | utils.py:40 | definition: Python's `bool()`, false exactly for an empty dictionary, list or string and for a false scalar |
| Values.HasKey | utils.py:28 | definition: Python's `key in d` on a dictionary |
| Values.Get | utils.py:31 | definition: Python's `d[key]` for a present key |
| Values.GetFirst | utils.py:28-31 | `key in d` holds exactly when some entry has the key, and `d[key]` is the value of the first such entry |
| Values.GetOr | utils.py:39 | `d.get(key, default)`: the stored value when the key is present, the default otherwise |
| ProviderTags.IsProviderBlock | utils.py:28-33 | definition: a block the loop looks into, a dictionary with a `provider` entry that is itself a dictionary |
| ProviderTags.Faulty | utils.py:38-39 | definition: a dictionary configuration with `default_tags` that is not a dictionary, on which `.get` raises |
| ProviderTags.Qualifies | utils.py:38-40 | definition: a dictionary configuration whose `default_tags` is a dictionary with truthy `.get("tags", {})` |
| ProviderTags.Record | utils.py:38-46 | definition: one configuration raises (`Faulty`), records its tags under the provider's name (`Qualifies`), or keeps the map |
| ProviderTags.ProviderDefaults | utils.py:24-25 | a document that is not a list yields the empty map and no error |
| ProviderTags.RecordConfig | utils.py:38-41 | one configuration: an error naming the provider when `default_tags` is not a dictionary; the map with the provider's entry set when `default_tags.tags` is truthy; the map unchanged otherwise (`Record`) |
| ProviderTags.RecordProvider | utils.py:36-46 | one provider name: its list of configurations, or its single configuration dictionary, folded in order into the map; anything else leaves the map unchanged |
| ProviderTags.FindProviderDefaultTags | utils.py:16-48 | the nested loops return exactly `ProviderDefaults(blocks)`, including the error case |
| ProviderTags.FoldFromErr | utils.py:39 | after an error no later configuration changes the result |
| ProviderTags.FoldRaises | utils.py:36-46 | the fold fails exactly when some configuration has a non-dictionary `default_tags`, and the error names the first such configuration |
| ProviderTags.RaisesIffDefaultTagsNotMap | utils.py:36-46 | the extraction raises exactly when some provider configuration of the document has a non-dictionary `default_tags`; the error names the provider of the first one |
| ProviderTags.RecordedTagsAreTruthy | utils.py:39-46 | every recorded value is truthy: a provider with empty or absent `default_tags.tags` is never a key |
| ProviderTags.RecordedIffQualifying | utils.py:35-46 | a name is recorded exactly when some configuration of that name is a dictionary with a dictionary `default_tags` whose `tags` is truthy |
| ProviderTags.LastConfigWins | utils.py:37-46 | the recorded value is the `tags` of the last qualifying configuration with that name; no later configuration of the name qualifies, so a later falsy one does not erase it |
| ProviderTags.FoldRecordsKey | utils.py:35-46 | on the pairs: a name is in the folded map exactly when a qualifying pair carries it |
| ProviderTags.FoldRecordsLast | utils.py:37-46 | on the pairs: the folded value of a name is that of its last qualifying pair |
| ProviderTags.CandidateOrigin | utils.py:27-37 | the configurations considered are exactly the dictionary configurations, and the elements of list configurations, of provider names under blocks whose `provider` is a dictionary |
| ProviderTags.SingleConfigAsList | utils.py:36-46 | rewriting every single configuration dictionary as a one-element list leaves the result (and any error) unchanged |
| ProviderTags.SkippedBlockIgnored | utils.py:27-33 | inserting a block that is not a dictionary, has no `provider` or has a non-dictionary `provider` changes nothing |
| ResourceTags.IsResourceBlock | utils.py:64-69 | definition: a block the loop looks into, a dictionary with a `resource` entry that is itself a dictionary |
| ResourceTags.InstanceOrigin | utils.py:63-77 | an instance is in the document exactly when some such block has a type whose value is a dictionary holding that (name, configuration) entry |
| ResourceTags.Active | utils.py:72 | definition: a filter argument is in force when it is truthy (truthiness of the filters at lines 72 and 82) |
| ResourceTags.HasTags | utils.py:86 | definition: `"tags" in res_config and bool(res_config["tags"])` |
| ResourceTags.Selected | utils.py:72-83 | definition: an active `filter_resource` must equal the type; an active `filter_provider` must be a prefix of it |
| ResourceTags.Reported | utils.py:78-91 | definition: an instance is reported when its configuration is a dictionary, it passes the filters, it has no truthy `tags`, and the provider map is empty (`bool(provider_tags)` is false) |
| ResourceTags.MissingTags | utils.py:60-61 | a document that is not a list yields no findings |
| ResourceTags.AuditInstances | utils.py:77-95 | the instance loop of a type that passed the resource filter reports exactly the `Reported` instances of that type, in order |
| ResourceTags.AuditTypes | utils.py:71-95 | the type loop reports exactly the `Reported` instances of the block's types, in type then instance order |
| ResourceTags.FindResourcesMissingTags | utils.py:51-97 | the nested loops return exactly `MissingTags(blocks, provider_tags, filter_provider, filter_resource)` |
| ResourceTags.FilteredTypeReportsNothing | utils.py:72-73 | a type other than an active `filter_resource` contributes nothing |
| ResourceTags.ExemptWhenAnyProviderDefaults | utils.py:89-91 | a non-empty provider map, naming any providers, yields no findings |
| ResourceTags.ReportedMember | utils.py:63-95 | a resource is reported exactly when it is some instance of the document that has a dictionary configuration, passes both filters, has no truthy `tags`, and the provider map is empty |
| ResourceTags.ReportedAreUntagged | utils.py:78-91 | every reported resource is an instance with a dictionary configuration and no truthy `tags` (`tags = {}` counts as missing); its type equals an active `filter_resource` and starts with an active `filter_provider` |
| ResourceTags.FalsyProviderFilterIgnored | utils.py:82-83 | a `filter_provider` that is None or the empty string gives the same findings as no provider filter, whatever `filter_resource` is |
| ResourceTags.FalsyResourceFilterIgnored | utils.py:72-73 | a `filter_resource` that is None or the empty string gives the same findings as no resource filter, whatever `filter_provider` is |
| ResourceTags.FalsyFiltersHaveNoEffect | utils.py:72-83 | with both filters None or empty, the findings are those of the unfiltered audit |
| ResourceTags.UntaggedAreReported | utils.py:77-95 | with an empty provider map and no filters, every instance with a dictionary configuration and no truthy `tags` is reported |
| ResourceTags.ReportFollowsBlockOrder | utils.py:63-95 | the findings of a block list are those of its first blocks followed by those of the remaining blocks |
| ResourceTags.ReportedOncePerOccurrence | utils.py:77-95 | each (type, name) is reported exactly as many times as untagged instances carry it: no duplicates are added and none are merged |
| ResourceTags.DocReportedOncePerOccurrence | utils.py:63-95 | the same count, for a whole document |
| AuditTags.Parsed | audit_tags.py:23 | definition: the file parsed (not `None`) to a truthy document, the negation of `if not data` |
| AuditTags.ScanFile | audit_tags.py:22-32 | one iteration: a file that failed to parse or is empty leaves the state unchanged; the iteration raises exactly when the file's provider extraction raises; otherwise the provider map's keys only grow and the earlier findings stay a prefix |
| AuditTags.Scan | audit_tags.py:18-33 | definition: the per-file step folded over the files in order from an empty map and no findings; an exception ends the fold |
| AuditTags.ScanPrefixErr | audit_tags.py:18-33 | once a file has raised, the files after it do not change the outcome |
| AuditTags.ScanFiles | audit_tags.py:14-33 | the loop's `provider_tags` and `untagged_resources` (or the exception raised) are exactly `Scan(files)` |
| AuditTags.Run | audit_tags.py:9-47 | a missing path gives `PathNotFound`; otherwise the scan's findings, or the crash; status 0 exactly when the scan completed with no findings, else 1 |
| AuditTags.UnparsedFilesSkipped | audit_tags.py:22-24 | files that failed to parse or parsed to an empty document can be dropped without changing the scan |
| AuditTags.ScanOnlyGrows | audit_tags.py:27-32 | as files are scanned the provider map's keys never shrink and the earlier findings stay a prefix of the later ones |
| AuditTags.LaterFileOverwrites | audit_tags.py:27 | a parsed file's defaults overwrite the running map for the providers it names and leave every other provider's entry as it was |
| AuditTags.DefaultsSuppressSameFile | audit_tags.py:27-32 | a file with provider defaults adds no findings of its own, because its defaults are merged before its resources are audited |
| AuditTags.NoFindingsOnceDefaultsKnown | audit_tags.py:27-32 | once the running map is non-empty, no later file adds a finding |
| AuditTags.FindingsCarryTheirPath | audit_tags.py:21-32 | every finding is `(path, r)` where `path` is a parsed file of the scan and `r` is reported by the audit of that same file's document (with the empty provider map, the only one under which the audit reports anything) |
| Scenarios.ProviderDocDefaults | utils.py:42-46 | a provider with truthy `default_tags.tags` in a single configuration dictionary is recorded with those tags |
| Scenarios.ProviderDocRaises | utils.py:43-44 | a `default_tags` that is not a dictionary raises, naming the provider |
| Scenarios.ResourceDocReport | utils.py:77-95 | a single resource without truthy tags is reported exactly when the provider map is empty |
| Scenarios.UntaggedResourceFileStep | audit_tags.py:22-32 | a file holding one resource with a dictionary configuration and no truthy tags adds that resource's finding, with the file's path, exactly when no provider defaults are known yet; the map is unchanged |
| Scenarios.ProviderFileStep | audit_tags.py:27-32 | a file holding only provider defaults adds them to the map and no findings |
| Scenarios.ProviderAndResourceFile | audit_tags.py:27-30 | provider defaults and an untagged resource of any type in one file yield no findings |
| Scenarios.ProviderDefaultsInSameFileExempt | audit_tags.py:27-30 | an `aws_instance` without tags is not reported next to `aws` default tags |
| Scenarios.EmptyTagsReported | utils.py:86 | `tags = {}` is reported as missing |
| Scenarios.ResourceBeforeProviderReported | audit_tags.py:18-33 | an untagged resource in a file scanned before the file declaring provider defaults is reported with its path |
| Scenarios.ProviderBeforeResourceExempt | audit_tags.py:18-33 | the same two files with the provider file first: no findings, whatever the resource's type and the provider's name |
| Scenarios.SinglePassOrderMatters | audit_tags.py:18-33 | swapping those two files changes the findings |
| Scenarios.DefaultTagsListRaises | utils.py:44 | `default_tags` written as a list ends the scan with `DefaultTagsNotMap("aws")` |

## Left out

- `parse_hcl_file` (`utils.py:4-13`): file I/O and the external HCL parser. Each file arrives already parsed, as an `Option<Value>` whose `None` is a failed parse.
- The `os.walk` traversal and the `.tf`/`.hcl` extension filter (`audit_tags.py:18-21`): the scan takes an already ordered sequence of (path, parse result) pairs.
- `os.path.exists` is a Boolean input of `AuditTags.Run`.
- `sys.exit` is modelled as the returned status. The table and console output (`audit_tags.py:35-49`) is not modelled.
- `all_resources` (`audit_tags.py:15, 33`) is accumulated but never read, so it is not modelled.
- The command-line entry point (`audit_tags.py:51-53`) is not modelled.
- Values.Value: numbers, Booleans and None are one scalar case that keeps only its truthiness, because the audit only ever tests them with `bool()` or `isinstance`.
- Values.Lookup: a dictionary is an association list that may repeat a key. Lookup uses the first entry, while iteration visits every entry. Parser output has unique keys, so the two agree there.
- Resource filters are modelled as optional strings. The driver never passes a filter (`audit_tags.py:30`), and non-string filter values are not modelled.
- ProviderTags.Error: the `AttributeError` raised at `utils.py:39` or `utils.py:44` carries only the offending value's type in its message (for example "'list' object has no attribute 'get'"). The model replaces the exception's type and message with the name of the provider whose configuration raised first.
