# Gluon census exporter, modelled in Dafny

The Freifunk census exporter downloads each community's node list. A node list is a meshviewer document (current or old layout) or a nodes.json document (version 1 or 2). The exporter counts each node once across all communities, sorting it by firmware version, device model, domain and feed type, and writes the counts as Prometheus gauges. The repository has two exporters:

- `src/gluon_census_exporter/__main__.py`, the packaged exporter. A generic per-node projector (`parse_generic`) feeds a gluon/alien split of four counters. It keeps running totals that `check_node_counts` compares with the number of unique nodes at the end of a run.
- `census-exporter.py`, the older script. Its three parsers return plain `(bases, models, domains)` counters. Its result loop derives a base label for every version with a second pattern, and it finishes by printing the number of unique nodes and skipped duplicates.

The model covers the normalisation core of both programs, from a decoded JSON document onwards:

- the firmware classifier: `PATTERNS`/`get_base_version`, plus `VERSION_PATTERN`/`BASE_PATTERN` of the script;
- the deduplicator: `seen`, `duplicates`, `already_seen`;
- the key-path accessor and the parsers;
- format detection in `load`, and `named_load`;
- the counters and gauges of the result loop;
- the final consistency check, and the script's summary output.

Modules:

- `Json`: decoded JSON values and the Python operations the code applies to them:
  - `v[key]`, which raises KeyError on a dict without the key and TypeError on anything that is not a dict;
  - `reduce(getitem, keys, v)`;
  - `for x in v` and `.items()`;
  - the hashing a set or dict key needs. True and False collide with 1 and 0; lists and dicts are unhashable.
- `Text`: `re.sub(r"\s+", " ", …)` over the characters `\s` matches, and the decimal text `print` writes for a count.
- `Version`: each regular expression written out as the group `re.match` captures, under Python's rules: anchored at the start only, `.` stops at a newline, `$` also matches before one final newline.
  - `Classify` is a bucket-by-bucket reference definition.
  - `GetBaseVersion` is the program's first-match loop over `Patterns`, proved equal to it.
- `Formats`: the registered formats in registration order, and the detection loop shared by both programs.
- `Counters`: a `defaultdict(int)` that only receives `+= 1` is a multiset. A gauge is a multiset of keys per community.
- `Dedup`: the `seen`/`duplicates` state as a class with `already_seen` as a method, plus the function `Claim` that specifies it.
- `Census`: the packaged exporter.
  - The class `Census` holds the module-level state: the deduplicator, the eight running totals and the eight gauges.
  - Its methods are the program's functions. Each is proved equal to a function on values: `Generic`, `Fold`, `ParseSpec`, `LoadSpec`, `NamedLoadSpec`, `UpdateGaugesSpec`, `RunSpec`, `CheckNodeCounts`.
  - The lemmas state what the program relies on about those functions.
- `Legacy`: `census-exporter.py`, built the same way around the class `LegacyCensus`.

Where the code decides an edge case, the model follows the code.

- **TypeError aborts the document.** `get_node_item` catches only KeyError. A lookup through a value that is not a dict raises TypeError. `named_load` turns that into "no result" for the whole document, after `parse_generic` has already put the node's id into `seen`. Consequences, all proved for the sequential fold described under "## Left out":
  - `TypeErrorLosesDocument` gives a concrete node with this behaviour.
  - `RunBalance` states the resulting balance: running totals plus orphaned ids equal unique ids.
  - `MismatchIffOrphans` shows that, when loads do not interleave, `check_node_counts` reports all four mismatches exactly when some document lost ids this way.
- **The script keeps partial counts.** A missing key halfway through a node keeps the increments already made for it (`MissingModelKeepsVersion`, `NodesFoldCounts`).

Nothing in this project was executed. The claims below are what the Dafny verifier proves about the model.

## Model

| member | source | states |
|---|---|---|
| Json.Lookup | src/gluon_census_exporter/__main__.py:233 | The value under a key is found exactly when some member has that key, and the found pair is a member of the dict. |
| Json.GetItem | src/gluon_census_exporter/__main__.py:233 | `v[key]` succeeds exactly on a dict holding the key, with that key's value. A dict without the key raises KeyError; anything that is not a dict raises TypeError. |
| Json.Walk | src/gluon_census_exporter/__main__.py:232-235 | A chain of lookups fails only with KeyError or TypeError. |
| Json.WalkAppend | src/gluon_census_exporter/__main__.py:233 | A walk along `a + b` is the walk along `a`, continued along `b` from its value; a failure along `a` is final. |
| Json.WalkTypeError | src/gluon_census_exporter/__main__.py:233-235 | A walk raises TypeError iff some lookup on the path is applied to a value that is not a dict, every earlier lookup having succeeded. This is the exception `get_node_item` does not catch. |
| Json.WalkKeyError | src/gluon_census_exporter/__main__.py:233-235 | A walk raises KeyError iff some dict reached on the path lacks the next key. |
| Json.Iterate | src/gluon_census_exporter/__main__.py:277 | `for node in data["nodes"]` yields a list's items or a dict's keys (as strings, in order). A string yields its characters, each as a one-character string, in order. Anything else raises TypeError. |
| Json.LookupUnique | src/gluon_census_exporter/__main__.py:233 | On an object whose keys are distinct, looking up any member's key gives that member's value: the first and the last occurrence (Python's choice) coincide. |
| Json.Items | src/gluon_census_exporter/__main__.py:297 | `.items()` succeeds exactly on a dict and yields its members in order; anything else raises AttributeError. |
| Json.HashKey | src/gluon_census_exporter/__main__.py:219-222 | A list or dict id is unhashable, and then `node_id in seen` raises. True and False are stored as 1 and 0. Every other value is stored as itself. |
| Text.NormalizeShape | src/gluon_census_exporter/__main__.py:151-152 | The result of `normalize_model_name` keeps the non-whitespace characters in order. Its only whitespace is single spaces, never two adjacent. It starts with a space iff the input starts with whitespace, and it is empty iff the input is. The result is never longer than the input. |
| Text.NormalizeIdempotent | src/gluon_census_exporter/__main__.py:151-152 | Normalising a normalised model name changes nothing. |
| Text.NormalizeNoSpace | src/gluon_census_exporter/__main__.py:151-152 | A name without whitespace is left as it is. |
| Text.NormalizeAppend | src/gluon_census_exporter/__main__.py:151-152 | Splitting a name anywhere except inside a whitespace run, the result is the two parts normalised separately and concatenated. |
| Text.NormalizeJoin | src/gluon_census_exporter/__main__.py:151-152 | A maximal whitespace run of any length, including a trailing or leading one, becomes exactly one space: normalising `a + w + b` gives `a` normalised, one space, and `b` normalised. |
| Text.NatToString | census-exporter.py:269-270 | The printed text of a count is non-empty, all decimal digits, and has no leading zero. |
| Text.NatToStringRoundTrip | census-exporter.py:269-270 | Reading the printed digits back gives the count. |
| Version.Classify | src/gluon_census_exporter/__main__.py:35-93 | No firmware and the empty string both yield `("undefined", "undefined", undefined)`. The vtype is alien (undefined or foreign) exactly when there is no firmware string or it does not start with `gluon-`. Outside gluon-base, version and base coincide. |
| Version.GluonBucketsStartGluon | src/gluon_census_exporter/__main__.py:36-55 | A release, `gluon-unknown` or a commit id always starts with `gluon-`; a string that is empty up to a final newline never does. |
| Version.ClassifyBuckets | src/gluon_census_exporter/__main__.py:35-55 | Each bucket, both directions:<br>- gluon-base iff the string starts with `gluon-vDDDD.D`;<br>- gluon-unknown iff it is `gluon-unknown`, optionally followed by a newline;<br>- gluon-commitid iff it is `gluon-` followed by seven or more lower-case hex digits (and optionally a newline), which is then the version;<br>- gluon-custom iff it starts with `gluon-` and is none of those three;<br>- undefined iff it is missing, empty or a lone newline;<br>- foreign iff it does not start with `gluon-` and is not empty. |
| Version.ReleaseShape | src/gluon_census_exporter/__main__.py:36-40 | A gluon-base base is `gluon-vDDDD.D` or `gluon-vDDDD.D.D`. It is the longer form exactly when the firmware string continues with `.` and a digit. The version is that base alone, or the base followed by `-` and a digit run. It keeps the `-N` suffix whenever the firmware string has one after the base, and it takes the whole digit run. |
| Version.ClassifyTakesPrefix | src/gluon_census_exporter/__main__.py:35-66 | The base is a prefix of the version, and the version a prefix of the firmware string. Without a newline, a commit-id, custom or foreign string is its own version. |
| Version.BaseMatchesWithVersion | src/gluon_census_exporter/__main__.py:85-89 | Wherever a pattern's version expression matches, its base expression matches too, so the first "Could not match base version" raise is unreachable. |
| Version.FirstMatchClassifies | src/gluon_census_exporter/__main__.py:77-92 | The first pattern whose version expression matches decides the result. The empty-string pattern keeps the defaults; any other gives the two captured groups and the pattern's vtype. |
| Version.LastPatternMatches | src/gluon_census_exporter/__main__.py:61-65 | The foreign pattern matches every string, so the pattern walk always ends at a match. |
| Version.GetBaseVersion | src/gluon_census_exporter/__main__.py:69-93 | The first-match loop never raises, and its result is the bucket-by-bucket classification `Classify`. |
| Version.VersionPrefix | census-exporter.py:26 | `VERSION_PATTERN` matches exactly the release strings, and its capture is a release prefix of the input. |
| Version.VersionKeyHasBase | census-exporter.py:247-252 | Every version key a parser records matches `BASE_PATTERN`. The base it yields is the key without its `-N` build suffix, the same base the original firmware string has. |
| Version.ReleaseExample | src/gluon_census_exporter/__main__.py:36-40 | `gluon-v2023.2.1-12-x` has version `gluon-v2023.2.1-12`, base `gluon-v2023.2.1`, vtype gluon-base. |
| Version.ReleaseBeforeCustomExample | src/gluon_census_exporter/__main__.py:35-56 | `gluon-v2024.1` also matches the `gluon-.*` pattern, yet it is classified gluon-base, because the release pattern comes first. |
| Version.CommitIdExample | src/gluon_census_exporter/__main__.py:46-50 | `gluon-1a2b3c4` is a gluon-commitid and its own version and base. |
| Version.ShortGluonIsCustom | src/gluon_census_exporter/__main__.py:46-55 | A newline-free `gluon-` string shorter than 13 characters is gluon-custom, with itself as version and base. |
| Version.ShortCommitExample | src/gluon_census_exporter/__main__.py:46-55 | Six hex digits are too few for a commit id: `gluon-1a2b3c` is gluon-custom. |
| Formats.DetectFrom | src/gluon_census_exporter/__main__.py:365-371 | From position k of the registration list, no format is found iff no remaining schema accepts. A found format is the first accepting one from k on. |
| Formats.Detect | src/gluon_census_exporter/__main__.py:365-374 | The detected format is the first registered one whose schema accepts the document. There is none ("No parser found") iff no schema accepts. |
| Formats.DetectFormat | src/gluon_census_exporter/__main__.py:365-374 | The detection loop of `load` (the same in census-exporter.py:181-190) returns the format `Detect` describes. |
| Formats.MeshviewerFirst | src/gluon_census_exporter/__main__.py:328-331 | A document the current meshviewer schema accepts is parsed as current meshviewer, never as the old layout or a nodes.json format. |
| Counters.AddCountsValue | src/gluon_census_exporter/__main__.py:398-404 | Adding a counter to a gauge under one community raises each label's value by the key's count there, and changes no value under any other community. |
| Counters.AddCountsStep | src/gluon_census_exporter/__main__.py:399-404 | One `.labels(community, *key).inc(n)` with `n > 0` extends the counts added so far by n copies of the key. |
| Counters.IncrementGauge | src/gluon_census_exporter/__main__.py:398-405 | One `for key, n in counter.items()` loop (also census-exporter.py:258-265) adds the counter's entries to the gauge. The sum it accumulates is the counter's total. |
| Dedup.Claim | src/gluon_census_exporter/__main__.py:217-223 | `already_seen` (identical at census-exporter.py:66-72):<br>- An unhashable id raises TypeError and changes nothing.<br>- A repeated id returns true, leaves `seen` unchanged and adds one duplicate.<br>- A new id returns false and is inserted, with `duplicates` unchanged.<br>- Every call that returns adds exactly one to `len(seen) + duplicates`. |
| Dedup.SeenSet.constructor | src/gluon_census_exporter/__main__.py:96-105 | A run starts with nothing seen and no duplicates. |
| Dedup.SeenSet.AlreadySeen | src/gluon_census_exporter/__main__.py:217-223 | The method's new state and result are those `Claim` describes. |
| Census.GetNodeItem | src/gluon_census_exporter/__main__.py:226-238 | - No key path gives None.<br>- A string at the end of the path is returned.<br>- A missing key at any depth, or a non-string value, gives None.<br>- A TypeError from the walk, and only that, propagates. |
| Census.Record | src/gluon_census_exporter/__main__.py:250-260 | The lookups of `parse_generic` succeed iff none of the four raises, and a failure is TypeError. The base is classified. A missing model, domain or site becomes "". The model has its whitespace collapsed. |
| Census.Tally | src/gluon_census_exporter/__main__.py:261-269 | A node goes into all four alien counters iff its vtype is undefined or foreign, and into all four gluon counters otherwise; the other side is untouched. Every dimension's total grows by exactly one. |
| Census.Generic | src/gluon_census_exporter/__main__.py:241-269 | The id is claimed before any lookup. A repeated id leaves the result unchanged. On success every dimension's total grows by the number of ids newly seen (0 or 1). The only exception is TypeError. |
| Census.MeshviewerEntries | src/gluon_census_exporter/__main__.py:277-281 | Each meshviewer node is paired with the outcome of its `node["node_id"]` lookup. |
| Census.NodesJsonV1Entries | src/gluon_census_exporter/__main__.py:297 | Each nodes.json v1 member's mapping key is its id. |
| Census.NodesJsonV2Entries | src/gluon_census_exporter/__main__.py:313-317 | Each nodes.json v2 node is paired with the outcome of its `node["nodeinfo"]["node_id"]` lookup. |
| Census.FoldFailurePersists | src/gluon_census_exporter/__main__.py:277-288 | Once a node has raised, the parser's remaining nodes are never looked at. |
| Census.FoldNext | src/gluon_census_exporter/__main__.py:277-288 | One iteration of a parser's loop extends the prefix processed so far; an exception it raises is the parser's outcome. |
| Census.TallyWellFormed | src/gluon_census_exporter/__main__.py:261-269 | Tallying a classified node keeps gluon counts gluon, alien counts alien (with version = base), and every source-type entry the detected format's name. |
| Census.GenericCounts | src/gluon_census_exporter/__main__.py:241-269 | A call of `parse_generic` that returns adds exactly one to new ids plus duplicates, and keeps the counts well formed. |
| Census.StepCounts | src/gluon_census_exporter/__main__.py:277-288 | A node without an id (KeyError) leaves `seen`, `duplicates` and the result unchanged. A TypeError from the id lookup ends the loop with that exception and the state unchanged. Any other node adds one to new ids plus duplicates. Each dimension's total grows by the ids newly seen. |
| Census.FoldCounts | src/gluon_census_exporter/__main__.py:272-325 | When a parser returns, each dimension's gluon + alien total equals the number of ids it newly inserted into `seen`. New ids plus duplicates equal the nodes that have an id. The counts are well formed. Returning or raising, `seen` and `duplicates` only grow. |
| Census.NoParserFound | src/gluon_census_exporter/__main__.py:373-374 | A document no schema accepts raises "No parser found" and leaves the deduplicator as it was. |
| Census.LoadCounts | src/gluon_census_exporter/__main__.py:365-374 | A document that loads has, in every dimension, a gluon + alien total equal to the ids it newly inserted, and all its source types name the detected format. A document that raises has still only added to `seen`. |
| Census.TypeErrorLosesDocument | src/gluon_census_exporter/__main__.py:233-235 | A meshviewer node whose `firmware` is a string: its id enters `seen`, then the base lookup raises TypeError and the document yields no result. |
| Census.VTypeNameInjective | src/gluon_census_exporter/__main__.py:39-65 | The six vtype label strings are distinct. |
| Census.VersionLabelsDetermineClass | src/gluon_census_exporter/__main__.py:398-404 | The labels `(base, version, vtype)` of `gluon_base_total` determine the class, so a gauge keyed by the class exports the same values. |
| Census.AlienLabelsDetermineClass | src/gluon_census_exporter/__main__.py:406-411 | The labels `(version, vtype)` of `gluon_alien_total` determine an alien class, whose base is its version. |
| Census.AddPartTotals | src/gluon_census_exporter/__main__.py:398-459 | Adding a part's counters to the running totals adds its total in each dimension. |
| Census.UpdateGaugesCounts | src/gluon_census_exporter/__main__.py:390-459 | `update_gauges` adds the result's gluon + alien total to each dimension's running total and leaves the deduplicator alone. |
| Census.UpdateGaugesValues | src/gluon_census_exporter/__main__.py:390-459 | Under the community, each of the eight gauges grows by the result's count for the key, on its own side only. Under any other community nothing changes. |
| Census.RunBalance | src/gluon_census_exporter/__main__.py:526-537 | Over a run, each dimension's running total plus the ids orphaned by documents that raised equals the number of ids added to `seen`. |
| Census.Mismatch | src/gluon_census_exporter/__main__.py:480-486 | One check logs its error iff the total differs from the number of unique ids. |
| Census.CheckNodeCounts | src/gluon_census_exporter/__main__.py:480-508 | At most four errors. None iff every dimension's gluon + alien total equals `len(seen)`. |
| Census.CheckShortfall | src/gluon_census_exporter/__main__.py:480-508 | When every dimension falls short of `len(seen)` by the same n, there is no error iff n is 0. Otherwise all four messages appear, in order. |
| Census.MismatchIffOrphans | src/gluon_census_exporter/__main__.py:480-537 | A run from the initial state reports no mismatch iff no document raised after claiming an id. Otherwise it reports all four mismatches. |
| Census.IncrementGluonGauges | src/gluon_census_exporter/__main__.py:398-405 | The gluon loops of `update_gauges` add each gluon counter to its gauge and its total to its running total. |
| Census.IncrementAlienGauges | src/gluon_census_exporter/__main__.py:406-412 | The alien loops do the same for the alien counters and totals. |
| Census.Census.constructor | src/gluon_census_exporter/__main__.py:96-105 | Nothing seen, all totals zero, no gauge incremented. |
| Census.Census.ParseGeneric | src/gluon_census_exporter/__main__.py:241-269 | `parse_generic` changes the deduplicator and returns the result as `Generic` describes. |
| Census.Census.ParseMeshviewer | src/gluon_census_exporter/__main__.py:272-289 | `parse_meshviewer`'s loop does what `ParseSpec` describes for its format: nodes without `node_id` are skipped and the first other exception ends it. |
| Census.Census.ParseNodesJsonV1 | src/gluon_census_exporter/__main__.py:292-305 | `parse_nodes_json_v1`'s loop over the mapping does what `ParseSpec` describes. |
| Census.Census.ParseNodesJsonV2 | src/gluon_census_exporter/__main__.py:308-325 | `parse_nodes_json_v2`'s loop does what `ParseSpec` describes. |
| Census.Census.Parse | src/gluon_census_exporter/__main__.py:328-331 | The parser a format was registered with does what `ParseSpec` describes. |
| Census.Census.Load | src/gluon_census_exporter/__main__.py:365-374 | `load` after the download does what `LoadSpec` describes: only the first accepting format parses, and parser exceptions propagate. |
| Census.Census.NamedLoad | src/gluon_census_exporter/__main__.py:377-387 | `named_load` returns None for a missing document or any exception of `load`, keeping what `load` did to `seen`. |
| Census.Census.UpdateGauges | src/gluon_census_exporter/__main__.py:390-459 | The new totals and gauges are those `UpdateGaugesSpec` describes. |
| Census.Census.Run | src/gluon_census_exporter/__main__.py:526-537 | The result loop leaves the state `RunSpec` describes, to which `RunBalance` and `MismatchIffOrphans` apply. |
| Census.Census.CheckNodeCountsAtEnd | src/gluon_census_exporter/__main__.py:480-508 | The errors logged are `CheckNodeCounts` of the final state. |
| Legacy.CountVersionBased | census-exporter.py:88-90 | Counting a base adds at most one version key, and only a release one. |
| Legacy.DomainFieldCounts | census-exporter.py:93-94 | The domain lookup adds at most one domain and nothing else; it raises only TypeError (an unhashable domain). |
| Legacy.ModelFieldCounts | census-exporter.py:91-94 | The model lookup adds at most one model, and a domain only after it. The only exception is TypeError. |
| Legacy.FieldsCounts | census-exporter.py:87-94 | After a new id, bases and models each gain at most one entry, domains no more than models, and every version key stays a release. The only exception is TypeError. |
| Legacy.MissingModelKeepsVersion | census-exporter.py:87-96 | A node whose model is missing after its base was found is abandoned with its version already counted. |
| Legacy.MissingIdSkips | census-exporter.py:82-86 | A node without `node_id` is skipped: nothing claimed, nothing counted. |
| Legacy.NodeStepCounts | census-exporter.py:82-96 | One node claims at most one id, counts only when the id is new, and adds one to new ids plus duplicates unless it has no id. |
| Legacy.NodesFoldCounts | census-exporter.py:82-97 | `parse_meshviewer` and `parse_nodes_json_v2`, when they return:<br>- bases total ≤ newly seen ids;<br>- domains total ≤ models total ≤ newly seen ids;<br>- every version key is a release;<br>- new ids plus duplicates equal the nodes with an id. |
| Legacy.MemberStepCounts | census-exporter.py:105-114 | A member's mapping key enters `seen` whatever follows. Only a new key can count a base, and models and domains stay empty. |
| Legacy.MembersFoldCounts | census-exporter.py:100-115 | `parse_nodes_json_v1`, when it returns:<br>- `seen` grows by exactly the mapping keys, including nodes without a base;<br>- each member counted once as new or duplicate;<br>- bases total ≤ newly seen ids, all releases;<br>- empty model and domain counters. |
| Legacy.MemberIdsAreKeys | census-exporter.py:105-106 | The ids `parse_nodes_json_v1` claims are exactly the mapping's keys. |
| Legacy.LoadBased | census-exporter.py:181-190 | Whichever format accepts a document, the version keys its parser returns are releases. |
| Legacy.RunFailurePersists | census-exporter.py:247-251 | Once the result loop has raised, the rest of the worklist is never looked at. |
| Legacy.RunNeverRaises | census-exporter.py:240-265 | "Could not match version" is never raised: the result loop always runs to the end. |
| Legacy.AccumulateValues | census-exporter.py:247-265 | Under the community, each of the three gauges grows by the counter's count for its key; under every other community nothing changes. Every counted version has a base label. |
| Legacy.SummaryReadsBack | census-exporter.py:269-270 | The printed text starts with the digits of `len(seen)` and has the digits of `duplicates` after the first caption; both read back as the counts. |
| Legacy.EmptyRunSummary | tests/integration/test_census_exporter.py:14-19 | With no communities, nothing is seen and the output is `0 unique nodes\n0 duplicates skipped\n`. |
| Legacy.CountFields | census-exporter.py:87-94 | The lookups after a new id, each increment made as soon as its value is known, do what `Fields` describes. |
| Legacy.IncrementVersionGauge | census-exporter.py:247-257 | The version loop succeeds iff every key matches `BASE_PATTERN`; it then adds the counter to `gluon_base_total`. Otherwise it raises "Could not match version". |
| Legacy.LegacyCensus.constructor | census-exporter.py:29-30 | Nothing seen, no duplicates, no gauge incremented. |
| Legacy.LegacyCensus.ParseNode | census-exporter.py:83-96 | One node loop iteration does what `NodeStep` describes. |
| Legacy.LegacyCensus.ParseNodes | census-exporter.py:75-97 | `parse_meshviewer` (and `parse_nodes_json_v2`, lines 118-141) do what `NodesSpec` describes. |
| Legacy.LegacyCensus.ParseMember | census-exporter.py:106-114 | One member iteration of `parse_nodes_json_v1` does what `MemberStep` describes. |
| Legacy.LegacyCensus.ParseNodesJsonV1 | census-exporter.py:100-115 | `parse_nodes_json_v1` does what `MembersSpec` describes. |
| Legacy.LegacyCensus.Parse | census-exporter.py:144-147 | The parser a format was registered with does what `ParseSpec` describes. |
| Legacy.LegacyCensus.Load | census-exporter.py:181-190 | `load` after the download does what `LoadSpec` describes. |
| Legacy.LegacyCensus.NamedLoad | census-exporter.py:193-205 | `named_load` returns None for a missing document or any exception of `load`. |
| Legacy.LegacyCensus.Accumulate | census-exporter.py:247-265 | One community's counters are added to the three gauges as `AccumulateSpec` describes, or "Could not match version" is returned. |
| Legacy.LegacyCensus.Run | census-exporter.py:240-265 | The result loop leaves the state `RunSpec` describes, or returns the exception that ends the program (never raised, by `RunNeverRaises`). |
| Legacy.LegacyCensus.Summary | census-exporter.py:269-270 | The printed lines are `SummaryText` of the deduplicator. |
| Legacy.NodesFoldNext | census-exporter.py:82-96 | One iteration of the node loop extends the processed prefix; an exception it raises is the loop's outcome. |
| Legacy.MembersFoldNext | census-exporter.py:105-114 | The same for the member loop of `parse_nodes_json_v1`. |

## Left out

- Downloading (`download`, `requests`, status codes, timeouts) and `response.json()` are not modelled. A document is given as a decoded JSON value, or as None when fetching or decoding failed; both end in `named_load`'s None.
- `KeyboardInterrupt` and `sys.exit` in `named_load` are not modelled.
- The `ThreadPool(16).imap_unordered` concurrency (src/gluon_census_exporter/__main__.py:526, census-exporter.py:238) is modelled as a sequential fold over the worklist, in the order the loads complete. This assumes that loads do not interleave: each `already_seen` call (src/gluon_census_exporter/__main__.py:217-223, census-exporter.py:66-72) runs as one atomic step. In the source, the membership test, `seen.add` and `duplicates += 1` are separate steps. Two threads loading the same id at once can then both count it as new, or lose an increment of `duplicates`. `Dedup.Claim`, `StepCounts`, `FoldCounts`, `RunBalance`, `MismatchIffOrphans` and the legacy count lemmas hold only under that assumption. The gauges are updated in the main thread and are not affected.
- Json.Lookup: returns the first member with the key, while a Python dict decoded from a document that repeats a key keeps the last one. The two agree on objects with `UniqueKeys`, which `LookupUnique` shows.
- Json.Iterate: on an object that repeats a key, it yields that key once per occurrence, where iterating the decoded Python dict yields it once. The model over-counts such documents. The same holds for `Census.NodesJsonV1Entries`, `Census.Fold` over those entries, and `Legacy.MembersFold`. A nodes.json v1 `nodes` object listing the key `a` twice makes the model claim `a` twice and count one duplicate, where the program sees one node and no duplicate. On objects with `UniqueKeys` at every depth the model and the program agree.
- Json.Items: the same as `Json.Iterate`: it lists every member of an object, repeats included, where `.items()` of the decoded dict lists each key once, with its last value.
- The Prometheus library (`CollectorRegistry`, `create_gauges`, `write_to_textfile`) is not modelled. A gauge is modelled as the multiset of keys it was incremented under, per community.
- The version gauges of the packaged exporter are keyed by the `(version, base, vtype)` class rather than by label strings. `VersionLabelsDetermineClass` and `AlienLabelsDetermineClass` show that the labels determine the class.
- The script's version gauge is keyed by the version alone. Its base label is `BaseLabel(version)`.
- The script's domain gauge is keyed by the hashed JSON value of the domain, not by the `str()` text Prometheus would print. A number and a string with the same text, or `True` and `"True"`, would share one exported label but are separate keys here.
- The click command line, reading `communities.json`, structlog messages and `log_summary` are not modelled. The `print` of the format name in the script's `load` is not modelled either.
- Voluptuous schema semantics are not modelled. Each format's schema is an opaque yes/no predicate on the document, passed in as `accepts`.
- Floating-point JSON numbers are not modelled; numbers are integers.
- `\d` is read as ASCII `[0-9]`; Python's `str` patterns also accept other Unicode digits. `\s` is modelled as the characters `str.isspace` accepts.
- contrib/switch-to-nodesJson.py is not part of this model. It is network probing plus an in-place rewrite of `communities.json`.
- The in-place mutation of the shared `ParseResult` by `parse_generic` is modelled by passing the result value in and returning the new one.
- The `except TypeError` around the result tuple, in both `main` loops, is not modelled because it is unreachable: a load's result is None or a well-formed result.
- Legacy.LegacyCensus.Accumulate: on "Could not match version" it leaves all three gauges unchanged, whereas the script would already have incremented the labels of the keys it had visited. The program then ends with the exception, and `RunNeverRaises` proves the exception never occurs.
