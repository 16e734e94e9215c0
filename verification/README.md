# Marduk OpenCog integration analyzer — a Dafny model

The analyzer walks a repository and sorts its Python files into four
"cognitive subsystems" by keyword: Memory, Task, AI and Autonomy. It also
flags OpenCog integration opportunities and recognises YAML documents that
look like workflows. Finally it renders the resulting record as a theatrical
text report. This project models that core as pure Dafny functions over
immutable data and proves what the analyzer promises about it:

- `text.dfy` (module `Text`): the string primitives the analyzer leans on.
  - ASCII lower-casing.
  - Substring search, with `Occurs` as its specification.
  - `any(k in s for k in keys)`.
  - Character repetition.
  - Decimal rendering of counts, with a parser that reads them back.
- `analysis.dfy` (module `Analysis`): the analysis record.
  - Four buckets of findings keyed by subsystem.
  - The integration points, the workflow connections and the (always empty)
    emergent patterns.
  - The initial record, and the two totals the report prints.
- `classifier.dfy` (module `Classifier`): the per-file keyword classifier
  (`_analyze_file_for_patterns`).
  - The keyword rule of each bucket and its strong-keyword confidence rule.
  - The integration check.
  - The effect of one file on the record.
- `workflow.dfy` (module `Workflow`): the workflow detector
  (`_analyze_yaml_for_workflows`).
  - A parsed document is seen through its top-level keys and its string form.
- `scanner.dfy` (module `Scanner`): `analyze_repository_structure`.
  - The initial record, then a fold over the source files, then a fold over the
    parsed data documents. The persona configuration `marduk-v15.prompt.yml`
    is skipped.
  - Each fold is proved equal to a reference definition that filters the file
    list in order.
- `report.dfy` (module `Report`): `generate_theatrical_analysis`, as the list of
  lines the source joins with newlines.
  - The time stamp is a parameter.
- `scenario.dfy` (module `Scenario`): the whole scan worked through on a
  two-file repository. One file holds a cache class; one CI document has a
  `jobs` key.

## Model

| member | source | states |
|---|---|---|
| Text.Lower | scripts/marduk_opencog_integration.py:91 | `content.lower()` on ASCII: same length; each position is the lower-cased character, and only capitals change |
| Text.Contains | scripts/marduk_opencog_integration.py:91 | the scanning search answers true exactly when some window of the text equals the keyword (Python's `k in s`) |
| Text.ContainsAny | scripts/marduk_opencog_integration.py:91 | `any(k in s for k in keys)` is true exactly when one of the keywords occurs |
| Text.Repeat | scripts/marduk_opencog_integration.py:152 | `c * n` has length `n`, and every position holds `c` |
| Text.NatToString | scripts/marduk_opencog_integration.py:181 | a rendered count is a non-empty string of digits with no leading zero |
| Text.ParseNatToString | scripts/marduk_opencog_integration.py:235-236 | reading a rendered count back gives the count (round trip) |
| Text.NatToStringInjective | scripts/marduk_opencog_integration.py:235-236 | different counts never render to the same text |
| Analysis.Initial | scripts/marduk_opencog_integration.py:51-61 | the starting record has all four buckets, each empty, and no points, connections or emergent patterns |
| Classifier.Classify | scripts/marduk_opencog_integration.py:90-120 | a bucket gets a finding exactly when one of its keywords occurs in the lower-cased content; the finding names the file and the bucket's pattern text; it is HIGH exactly when a strong keyword occurs |
| Classifier.DetectIntegration | scripts/marduk_opencog_integration.py:122-128 | an integration point is added exactly when an integration keyword occurs, and it carries the fixed opportunity and details texts |
| Classifier.AnalyzeFile | scripts/marduk_opencog_integration.py:86-128 | one file appends, at the end of each bucket, that bucket's finding if any; it appends its integration point if any; the workflow connections and emergent patterns are unchanged |
| Classifier.AnalyzeFileAppendsAtMostOne | scripts/marduk_opencog_integration.py:90-120 | a bucket grows by at most one entry and keeps its earlier entries in place; it grows exactly when a bucket keyword occurs; the new entry is for this file, with HIGH exactly on a strong keyword |
| Classifier.AnalyzeFileIntegrationIndependent | scripts/marduk_opencog_integration.py:122-128 | the integration points keep their prefix and grow by one exactly when an integration keyword occurs, whatever the buckets did |
| Classifier.MemoryRule | scripts/marduk_opencog_integration.py:90-96 | Memory fires on cache, memory, store or persist, and is HIGH exactly when cache occurs |
| Classifier.TaskRule | scripts/marduk_opencog_integration.py:98-104 | Task fires on execute, workflow, task or process, and is HIGH exactly when workflow occurs |
| Classifier.AIRule | scripts/marduk_opencog_integration.py:106-112 | AI fires on model, inference, neural, ai or ml, and is HIGH exactly when model or inference occurs |
| Classifier.AutonomyRule | scripts/marduk_opencog_integration.py:114-120 | Autonomy fires on auto, self, adaptive or dynamic, and is always MEDIUM |
| Classifier.IntegrationRule | scripts/marduk_opencog_integration.py:122-128 | an integration point is found exactly when atom, knowledge, reasoning or semantic occurs |
| Classifier.BareAiFiresAI | scripts/marduk_opencog_integration.py:107 | the bare substring `ai` is enough: the word `Email` yields a MEDIUM AI finding |
| Classifier.CacheMeansHighMemory | scripts/marduk_opencog_integration.py:91-96 | any content containing `cache`, in any letter case, yields a HIGH Memory finding |
| Classifier.DataCacheIsHighMemory | tests-unit/test_marduk_analyzer.py:147-156 | the DataCache snippet of the analyzer's unit test, analysed on a fresh record, gives exactly one Memory finding, HIGH, with the memory pattern text |
| Workflow.DetectWorkflow | scripts/marduk_opencog_integration.py:130-139 | a document with a `jobs` or `steps` key, or with `workflow` in its lower-cased string form, adds one GitHub Actions connection of HIGH potential; any other document leaves the record unchanged |
| Workflow.DetectWorkflowTouchesOnlyConnections | scripts/marduk_opencog_integration.py:134-139 | the detector touches only the workflow connections; it keeps their prefix and adds one entry exactly on a workflow-like document |
| Workflow.JobsDocumentIsWorkflow | tests-unit/test_marduk_analyzer.py:238-247 | a mapping with a `jobs` key yields one connection, of type GitHub Actions Workflow and potential HIGH |
| Scanner.VisitSource | scripts/marduk_opencog_integration.py:64-71 | a readable source file appends to each bucket its finding, if any, and to the integration points its point, if any; an unreadable one leaves the record as it was |
| Scanner.ScanSources | scripts/marduk_opencog_integration.py:64-71 | after the source walk, each bucket is its old contents followed by the findings of the matching files in walk order; the same holds for the integration points; the connections are untouched |
| Scanner.VisitDocument | scripts/marduk_opencog_integration.py:74-82 | a data file adds a connection only when it parsed to a workflow-like document and is not the persona configuration; nothing else changes |
| Scanner.ScanDocuments | scripts/marduk_opencog_integration.py:73-82 | the document walk appends the connections of the qualifying documents in walk order and changes nothing else |
| Scanner.Scan | scripts/marduk_opencog_integration.py:44-84 | the finished record has all four buckets, each equal to the in-order findings of the source files; the points and connections are likewise in walk order; the emergent patterns stay empty |
| Scanner.MatchingAppend | scripts/marduk_opencog_integration.py:64-71 | findings keep walk order: scanning two stretches of files gives the first stretch's findings, then the second's |
| Scanner.PointsAppend | scripts/marduk_opencog_integration.py:64-71 | integration points keep walk order across two stretches of files |
| Scanner.ConnectionsAppend | scripts/marduk_opencog_integration.py:74-82 | workflow connections keep walk order across two stretches of documents |
| Scanner.MatchingMembers | scripts/marduk_opencog_integration.py:64-71 | a finding is in a bucket exactly when some scanned file produced it |
| Scanner.MatchingAtMostOnePerFile | scripts/marduk_opencog_integration.py:90-120 | a bucket never holds more findings than there are source files |
| Scanner.PointsAtMostOnePerFile | scripts/marduk_opencog_integration.py:122-128 | there are never more integration points than source files |
| Scanner.ConnectionsAtMostOnePerDocument | scripts/marduk_opencog_integration.py:130-139 | there are never more workflow connections than data files |
| Scanner.PromptNeverConnected | scripts/marduk_opencog_integration.py:75 | no workflow connection ever names the persona configuration file |
| Scanner.EmptyRepository | scripts/marduk_opencog_integration.py:51-61 | scanning an empty repository returns exactly the initial record |
| Scanner.ScanTotalsAdditive | scripts/marduk_opencog_integration.py:228-229 | both totals of a repository split in two are the sums of the totals of the parts |
| Scanner.ScanTotalsBounded | scripts/marduk_opencog_integration.py:228-229 | there are at most four patterns per source file, and at most one integration per file |
| Scenario.SampleMentionsOnlyMemory | scripts/marduk_opencog_integration.py:90-128 | the text `class MemoryCache` contains `cache`, in lower case, and no keyword of Task, AI, Autonomy or integration |
| Scenario.SampleFileFindings | scripts/marduk_opencog_integration.py:90-128 | that file alone gives one HIGH Memory finding, no other finding and no integration point |
| Scenario.SampleScanBuckets | scripts/marduk_opencog_integration.py:44-84 | scanning that file with one `jobs` document gives one HIGH Memory finding, empty Task, AI and Autonomy buckets, and no integration point |
| Scenario.SampleScanConnections | scripts/marduk_opencog_integration.py:73-82 | the `jobs` document of that repository, not being the persona configuration, yields its single connection |
| Scenario.SampleScanPatternTotal | scripts/marduk_opencog_integration.py:228 | that repository reports one cognitive pattern in total |
| Scenario.SampleScanIntegrationTotal | scripts/marduk_opencog_integration.py:229 | that repository reports one integration opportunity in total: the workflow connection |
| Report.IntensityOf | scripts/marduk_opencog_integration.py:179 | BLAZING exactly above five findings, MODERATE exactly from three to five, EMERGING exactly at two or fewer |
| Report.IntensityMonotone | scripts/marduk_opencog_integration.py:179 | more findings never give a lower intensity |
| Report.FindingLineMarker | scripts/marduk_opencog_integration.py:186-187 | a finding line carries the target marker exactly for a HIGH finding and the dice otherwise |
| Report.FindingLines | scripts/marduk_opencog_integration.py:185-187 | one line per finding shown, in order |
| Report.SubsystemBlock | scripts/marduk_opencog_integration.py:176-191 | a bucket block is empty for an empty bucket; otherwise it has the header with the count, then min(count, 3) finding lines for the first findings, then the "more" line exactly when count > 3, then a blank line |
| Report.FindingMarkersFollowConfidence | scripts/marduk_opencog_integration.py:185-187 | in the rendered block, each shown finding's marker is the target exactly when that finding is HIGH |
| Report.SubsystemBlockAccountsForAll | scripts/marduk_opencog_integration.py:189-190 | the "more" line's number plus the three shown findings is the bucket's size, so no finding goes unaccounted |
| Report.HeaderLineNamesBucket | scripts/marduk_opencog_integration.py:181 | a header line determines its bucket: two buckets never share a header line |
| Report.PointLines | scripts/marduk_opencog_integration.py:205-206 | one line per integration point shown, in order |
| Report.IntegrationBlock | scripts/marduk_opencog_integration.py:193-210 | the integration block is empty without points; otherwise every line is fixed: the title, the 42-character rule, a blank, the count line, the AtomSpace line, a blank, the first min(count, 5) points in order, the line counting the rest when count > 5, and a closing blank |
| Report.IntegrationBlockLineKinds | scripts/marduk_opencog_integration.py:205-209 | a line of the integration block is a point line exactly at the positions of the first min(count, 5) points, and is the "more cosmic connections" line exactly when count > 5, right after them |
| Report.WorkflowLines | scripts/marduk_opencog_integration.py:223-224 | one line per workflow connection, in order |
| Report.WorkflowBlock | scripts/marduk_opencog_integration.py:212-225 | the workflow block is empty without connections; otherwise every line is fixed: the title, the 33-character rule, a blank, the count line, a blank, a line for every connection in order with no cap, and a closing blank |
| Report.Opening | scripts/marduk_opencog_integration.py:150-174 | the opening has eighteen lines, the fifth carrying the given time stamp after its fixed prefix |
| Report.Closing | scripts/marduk_opencog_integration.py:227-259 | the conclusions have twenty-seven lines, the fourth and fifth carrying the two totals |
| Report.Render | scripts/marduk_opencog_integration.py:141-261 | the report starts with the opening and ends with the conclusions carrying the totals computed from the record; everything in between is the middle section; its length depends only on the counts |
| Report.BlocksInOrder | scripts/marduk_opencog_integration.py:176-225 | between the 18-line opening and the 27-line conclusions lie the Memory, Task, AI and Autonomy blocks, then the integration block, then the workflow block, each starting exactly where the one before it ends |
| Report.SectionsInOrder | scripts/marduk_opencog_integration.py:176-225 | in the report itself, the six blocks sit in that order at their section starts |
| Report.StartsIncrease | scripts/marduk_opencog_integration.py:176-225 | the section starts never decrease in the order Memory, Task, AI, Autonomy, integration, workflow, and each non-empty section pushes the next one strictly further |
| Report.BucketHeadAt | scripts/marduk_opencog_integration.py:176-183 | a non-empty bucket's block opens, at the bucket's section start, with the header carrying its count |
| Report.IntegrationTitleAt | scripts/marduk_opencog_integration.py:194-197 | with integration points present, the integration title sits at the integration block's start |
| Report.WorkflowTitleAt | scripts/marduk_opencog_integration.py:213-216 | with workflow connections present, the workflow title sits at the workflow block's start |
| Report.HeadsInReport | scripts/marduk_opencog_integration.py:176-225 | in the report, each non-empty bucket's header and each non-empty block's title sit at its section start, so headers come in bucket order and the titles after them |
| Report.OpeningIsPlain | scripts/marduk_opencog_integration.py:150-174 | no opening line can pass for a bucket header or a block title |
| Report.ClosingIsPlain | scripts/marduk_opencog_integration.py:231-259 | no conclusion line can pass for a bucket header or a block title |
| Report.SubsystemBlockLines | scripts/marduk_opencog_integration.py:176-191 | a bucket block holds no block title, and its only header is its own bucket's |
| Report.IntegrationBlockLines | scripts/marduk_opencog_integration.py:193-210 | the integration block holds no header and no workflow title; it shows its own title exactly when there are points |
| Report.WorkflowBlockLines | scripts/marduk_opencog_integration.py:212-225 | the workflow block holds no header and no integration title; it shows its own title exactly when there are connections |
| Report.InReport | scripts/marduk_opencog_integration.py:141-261 | a line is in the report exactly when it is in the opening, one of the four bucket blocks, the integration block, the workflow block or the conclusions |
| Report.HeaderShownWhenNonEmpty | scripts/marduk_opencog_integration.py:176-183 | a non-empty bucket's header, with its count, appears in the report |
| Report.HeaderAbsentWhenEmpty | scripts/marduk_opencog_integration.py:176-178 | no header for an empty bucket appears anywhere in the report, whatever count it might show |
| Report.SubsystemBlockShownIffNonEmpty | scripts/marduk_opencog_integration.py:176-191 | a bucket's header appears in the report if and only if the bucket is non-empty |
| Report.BlocksShownIffNonEmpty | scripts/marduk_opencog_integration.py:193-225 | the integration title appears iff there are integration points, and the workflow title iff there are connections |
| Report.IntegrationTitleShownIffPoints | scripts/marduk_opencog_integration.py:194-203 | the integration title appears in the report iff there is at least one integration point |
| Report.WorkflowTitleShownIffConnections | scripts/marduk_opencog_integration.py:213-221 | the workflow title appears in the report iff there is at least one workflow connection |
| Report.TitlesOnlyInTheirBlocks | scripts/marduk_opencog_integration.py:193-225 | the two block titles appear in the report only through the integration and workflow blocks |
| Report.WorkflowsNeverTruncated | scripts/marduk_opencog_integration.py:223-224 | every workflow connection has its line in the report, however many there are |
| Report.CountLineReadsBack | scripts/marduk_opencog_integration.py:235-236 | a totals line is its prefix followed by digits that read back as the count |
| Report.TotalsReadBack | scripts/marduk_opencog_integration.py:228-236 | the report's two totals lines read back as the sum of the four bucket sizes and as the points plus the connections |

## Left out

- Walking the file system is not modelled: `rglob`, `is_file` and the order they yield files in. The walk is a given sequence of files; the model keeps whatever order it has.
- Reading a file with its encoding handling is not modelled. A file that cannot be read is a source file with no content, and is skipped as the source skips it.
- YAML parsing (`yaml.safe_load`) is not modelled. A data file carries either no document or a parsed one. "No document" covers a parse error, an empty or falsy document, and a value on which `in` raises; the source skips all of these.
- A parsed document is seen only through its top-level keys and its `str()` form. For a list or a string, Python's `in` looks for elements or substrings; the `keys` set stands for whatever `in` finds.
- `relative_to` is not modelled: each file arrives with its relative path as a string. The persona configuration is recognised by its path `marduk-v15.prompt.yml`.
- `load_marduk_prompt`, `save_analysis_artifacts`, `run_analysis`, `main` and the module-level entry point are left out: they are file and console I/O around the core.
- `datetime.now().isoformat()` is left out: the time stamp is a parameter of the renderer.
- Text.Lower: lower-cases ASCII capitals only, not the full Unicode case mapping of `str.lower`. Every keyword is ASCII, but a non-ASCII capital whose lower case is ASCII (the Kelvin sign becomes `k`) could make a keyword match in Python and not in the model.
- Report.Render: returns the report's lines instead of joining them with newlines.
- Report.Render: renders the buckets in the fixed order Memory, Task, AI, Autonomy. This is the insertion order of the record's dictionary, which Python's iteration follows.
- Report.Render: treats a bucket missing from the record as empty. The analyzer always creates all four, so this case does not arise from a scan.
- Classifier.AnalyzeFile: requires all four buckets in the record. Where one is missing, the source raises `KeyError` only when the text contains a keyword of that bucket, since each lookup sits inside its keyword test. The walk swallows that error after the earlier buckets may already have been appended to. Without such a keyword the call returns normally. Every caller builds all four buckets, so none of this arises from a scan.
- The `emergent_patterns` list is never written by the source. The model only proves it stays empty.
- Report.Opening: fixes the banner and prose lines by definition and states only the line count and the time-stamp line in its contract. The fixed lines are checked through OpeningIsPlain.
- Report.Closing: likewise states only the line count and the two totals lines; the fixed lines are checked through ClosingIsPlain.
