/**
 * census-exporter.py, the older exporter. It shares the deduplicator, the
 * format registration and the detection loop with the packaged exporter,
 * but its parsers return three plain counters (bases, models, domains),
 * catch only KeyError per node, and keep whatever a node had already added
 * when a later lookup misses. Its result loop derives each version's base
 * with `BASE_PATTERN`, and the run ends by printing the deduplicator's
 * two counts.
 */
module Legacy {
  import opened Wrappers
  import opened Json
  import opened Text
  import opened Version
  import opened Formats
  import opened Dedup
  import opened Counters

  /**
   * The `(bases, models, domains)` triple a parser returns. A domain is
   * counted as the element its value hashes to.
   */
  datatype Counts = Counts(bases: multiset<string>, models: multiset<string>, domains: multiset<Json>)

  const NoCounts := Counts(multiset{}, multiset{}, multiset{})

  /** The lookup chains of a parser that walks a node list. */
  datatype Paths = Paths(id: seq<string>, base: seq<string>, model: seq<string>, domain: seq<string>)

  const MeshviewerPaths := Paths(["node_id"], ["firmware", "base"], ["model"], ["domain"])

  const NodesJsonV2Paths := Paths(["nodeinfo", "node_id"], ["nodeinfo", "software", "firmware", "base"],
                                  ["nodeinfo", "hardware", "model"], ["nodeinfo", "system", "domain_code"])

  const NodesJsonV1BasePath := ["nodeinfo", "software", "firmware", "base"]

  /** The deduplicator's state after a call, and what the call returned or raised. */
  datatype Outcome = Outcome(ctx: Ctx, result: Result<Counts, Exception>)

  /** `bases[match.group("version")] += 1` for a base string, when `VERSION_PATTERN` matches it. */
  function CountVersion(bases: multiset<string>, base: string): multiset<string> {
    match VersionPrefix(base)
    case None => bases
    case Some(v) => bases + multiset{v}
  }

  /**
   * The lookups after the id in `parse_meshviewer` and
   * `parse_nodes_json_v2`, each followed by its increment. A missing key ends
   * the node and keeps the increments made so far. A base or model that is
   * not a string, or a domain that cannot be hashed, raises TypeError.
   */
  function Fields(node: Json, p: Paths, counts: Counts): Result<Counts, Exception> {
    match Walk(node, p.base)
    case Failure(KeyError) => Success(counts)
    case Failure(e) => Failure(e)
    case Success(base) =>
      if base.Str? then ModelField(node, p, counts.(bases := CountVersion(counts.bases, base.s)))
      else Failure(TypeError)
  }

  /** The model lookup and `models[normalize_model_name(model)] += 1`, then the domain. */
  function ModelField(node: Json, p: Paths, counts: Counts): Result<Counts, Exception> {
    match Walk(node, p.model)
    case Failure(KeyError) => Success(counts)
    case Failure(e) => Failure(e)
    case Success(model) =>
      if model.Str? then DomainField(node, p, counts.(models := counts.models + multiset{NormalizeModelName(model.s)}))
      else Failure(TypeError)
  }

  /** The domain lookup and `domains[domain] += 1`. */
  function DomainField(node: Json, p: Paths, counts: Counts): Result<Counts, Exception> {
    match Walk(node, p.domain)
    case Failure(KeyError) => Success(counts)
    case Failure(e) => Failure(e)
    case Success(domain) =>
      match HashKey(domain)
      case None => Failure(TypeError)
      case Some(k) => Success(counts.(domains := counts.domains + multiset{k}))
  }

  /** One iteration of the node loop: a node without an id is skipped, a repeated id adds nothing. */
  function NodeStep(c: Ctx, node: Json, p: Paths, counts: Counts): Outcome {
    match Walk(node, p.id)
    case Failure(KeyError) => Outcome(c, Success(counts))
    case Failure(e) => Outcome(c, Failure(e))
    case Success(nodeId) =>
      var claimed := Claim(c, nodeId);
      match claimed.result
      case Failure(e) => Outcome(claimed.ctx, Failure(e))
      case Success(seenBefore) => Outcome(claimed.ctx, if seenBefore then Success(counts) else Fields(node, p, counts))
  }

  /** The node loop over a list from empty counters; the first exception ends it. */
  function NodesFold(c: Ctx, nodes: seq<Json>, p: Paths): Outcome
    decreases |nodes|
  {
    if nodes == [] then Outcome(c, Success(NoCounts))
    else
      var prev := NodesFold(c, nodes[..|nodes| - 1], p);
      if prev.result.Failure? then prev
      else NodeStep(prev.ctx, nodes[|nodes| - 1], p, prev.result.value)
  }

  /** One member of `data["nodes"].items()` in `parse_nodes_json_v1`: the mapping key is the id. */
  function MemberStep(c: Ctx, nodeId: string, node: Json, counts: Counts): Outcome {
    var claimed := Claim(c, Str(nodeId));
    if claimed.result == Success(true) then Outcome(claimed.ctx, Success(counts))
    else
      match Walk(node, NodesJsonV1BasePath)
      case Failure(KeyError) => Outcome(claimed.ctx, Success(counts))
      case Failure(e) => Outcome(claimed.ctx, Failure(e))
      case Success(base) =>
        Outcome(claimed.ctx, if base.Str? then Success(counts.(bases := CountVersion(counts.bases, base.s)))
                             else Failure(TypeError))
  }

  /** The member loop of `parse_nodes_json_v1`; the first exception ends it. */
  function MembersFold(c: Ctx, members: seq<(string, Json)>): Outcome
    decreases |members|
  {
    if members == [] then Outcome(c, Success(NoCounts))
    else
      var prev := MembersFold(c, members[..|members| - 1]);
      if prev.result.Failure? then prev
      else MemberStep(prev.ctx, members[|members| - 1].0, members[|members| - 1].1, prev.result.value)
  }

  /** `parse_meshviewer` or `parse_nodes_json_v2`, which differ only in their paths. */
  function NodesSpec(c: Ctx, data: Json, p: Paths): Outcome {
    match NodeList(data)
    case Failure(e) => Outcome(c, Failure(e))
    case Success(nodes) => NodesFold(c, nodes, p)
  }

  /** `parse_nodes_json_v1`: it returns empty model and domain counters. */
  function MembersSpec(c: Ctx, data: Json): Outcome {
    match NodeMembers(data)
    case Failure(e) => Outcome(c, Failure(e))
    case Success(members) => MembersFold(c, members)
  }

  /** What the parser registered for a format does to the deduplicator and returns. */
  function ParseSpec(c: Ctx, parser: Parser, data: Json): Outcome {
    match parser
    case MeshviewerParser => NodesSpec(c, data, MeshviewerPaths)
    case NodesJsonV1Parser => MembersSpec(c, data)
    case NodesJsonV2Parser => NodesSpec(c, data, NodesJsonV2Paths)
  }

  /** `load` after the download: the first accepting format parses, or "No parser found" is raised. */
  function LoadSpec(accepts: Schemas, c: Ctx, data: Json): Outcome {
    match Detect(accepts, data)
    case None => Outcome(c, Failure(ValueError("No parser found")))
    case Some(f) => ParseSpec(c, f.parser, data)
  }

  /** What `named_load` did to the deduplicator, and the counters it hands back (None when `load` raised). */
  datatype Loaded = Loaded(ctx: Ctx, result: Option<Counts>)

  /** `named_load`: every exception of `load` becomes None. */
  function NamedLoadSpec(accepts: Schemas, c: Ctx, fetched: Option<Json>): Loaded {
    match fetched
    case None => Loaded(c, None)
    case Some(data) =>
      var o := LoadSpec(accepts, c, data);
      Loaded(o.ctx, if o.result.Success? then Some(o.result.value) else None)
  }

  /** Every version key matches `BASE_PATTERN`. */
  predicate Based(versions: multiset<string>) {
    forall v | v in versions :: IsRelease(v)
  }

  /**
   * The `base` label `gluon_base_total` carries next to a version key: the
   * group `BASE_PATTERN` captures. The gauge is keyed here by the version
   * alone, which determines this label.
   */
  function BaseLabel(version: string): Option<string> {
    Match(Release, version)
  }

  /** The deduplicator and the three gauges of a run. */
  datatype RunState = RunState(ctx: Ctx, version: Gauge<string>, model: Gauge<string>, domain: Gauge<Json>)

  const Initial := RunState(Ctx({}, 0), map[], map[], map[])

  /**
   * One community's counters added to the gauges by `main`'s result loop. A
   * version key without a base raises "Could not match version", which ends
   * the program.
   */
  function AccumulateSpec(s: RunState, community: string, counts: Counts): Result<RunState, Exception> {
    if !Based(counts.bases) then Failure(ValueError("Could not match version"))
    else
      Success(s.(version := AddCounts(s.version, community, counts.bases),
                 model := AddCounts(s.model, community, counts.models),
                 domain := AddCounts(s.domain, community, counts.domains)))
  }

  /** The result loop of `main`, over the documents in the order their loads complete. */
  function RunSpec(accepts: Schemas, s: RunState, worklist: seq<Source>): Result<RunState, Exception>
    decreases |worklist|
  {
    if worklist == [] then Success(s)
    else
      var before :- RunSpec(accepts, s, worklist[..|worklist| - 1]);
      var item := worklist[|worklist| - 1];
      var l := NamedLoadSpec(accepts, before.ctx, item.fetched);
      var after := before.(ctx := l.ctx);
      if l.result.Some? then AccumulateSpec(after, item.community, l.result.value) else Success(after)
  }

  /** The two lines `main` prints last: `len(seen)` and `duplicates`, each followed by its caption. */
  function SummaryText(c: Ctx): string {
    NatToString(|c.seen|) + " unique nodes\n" + NatToString(c.duplicates) + " duplicates skipped\n"
  }

  // ---------------------------------------------------------------- lemmas

  /**
   * How counters may grow while `n` ids are newly seen: no counter loses an
   * entry, bases and models gain at most `n`, and domains gain no more than
   * models (a domain is looked up only after its node's model was counted).
   */
  ghost predicate Bounded(before: Counts, after: Counts, n: nat) {
    && before.bases <= after.bases && before.models <= after.models && before.domains <= after.domains
    && |after.bases| <= |before.bases| + n
    && |after.domains| - |before.domains| <= |after.models| - |before.models| <= n
  }

  /** Growth bounds compose. */
  lemma BoundedChain(a: Counts, b: Counts, c: Counts, n: nat, m: nat)
    requires Bounded(a, b, n) && Bounded(b, c, m)
    ensures Bounded(a, c, n + m)
  {
  }

  /** Counting a version keeps every key a release and adds at most one key. */
  lemma CountVersionBased(bases: multiset<string>, base: string)
    requires Based(bases)
    ensures var r := CountVersion(bases, base);
            Based(r) && bases <= r && |r| <= |bases| + 1
  {
  }

  /** The domain lookup adds at most one domain and nothing else. */
  lemma DomainFieldCounts(node: Json, p: Paths, counts: Counts)
    ensures var r := DomainField(node, p, counts);
            && (r.Success? ==>
                  && r.value.bases == counts.bases && r.value.models == counts.models
                  && counts.domains <= r.value.domains && |r.value.domains| <= |counts.domains| + 1)
            && (r.Failure? ==> r.error == TypeError)
  {
  }

  /** The model lookup adds at most one model, and a domain only after it. */
  lemma ModelFieldCounts(node: Json, p: Paths, counts: Counts)
    ensures var r := ModelField(node, p, counts);
            && (r.Success? ==> r.value.bases == counts.bases && Bounded(counts, r.value, 1))
            && (r.Failure? ==> r.error == TypeError)
  {
    match Walk(node, p.model)
    case Failure(_) =>
    case Success(model) =>
      if model.Str? {
        DomainFieldCounts(node, p, counts.(models := counts.models + multiset{NormalizeModelName(model.s)}));
      }
  }

  /** The lookups after a new id add at most one entry to each counter, and a domain only after a model. */
  lemma FieldsCounts(node: Json, p: Paths, counts: Counts)
    requires Based(counts.bases)
    ensures var r := Fields(node, p, counts);
            && (r.Success? ==> Bounded(counts, r.value, 1) && Based(r.value.bases))
            && (r.Failure? ==> r.error == TypeError)
  {
    match Walk(node, p.base)
    case Failure(_) =>
    case Success(base) =>
      if base.Str? {
        var next := counts.(bases := CountVersion(counts.bases, base.s));
        CountVersionBased(counts.bases, base.s);
        ModelFieldCounts(node, p, next);
        assert next.models == counts.models && next.domains == counts.domains;
      }
  }

  /**
   * A node whose model lookup misses after its base was found is abandoned
   * with its version already counted: the model and domain counters miss
   * it, the version counter does not.
   */
  lemma MissingModelKeepsVersion(node: Json, p: Paths, counts: Counts, base: string)
    requires Walk(node, p.base) == Success(Str(base))
    requires Walk(node, p.model) == Failure(KeyError)
    ensures Fields(node, p, counts) == Success(counts.(bases := CountVersion(counts.bases, base)))
    ensures IsRelease(base) ==> Fields(node, p, counts).value.bases == counts.bases + multiset{VersionPrefix(base).value}
  {
  }

  /** A node whose id lookup misses is skipped: nothing is claimed and nothing counted. */
  lemma MissingIdSkips(c: Ctx, node: Json, p: Paths, counts: Counts)
    requires Walk(node, p.id) == Failure(KeyError)
    ensures NodeStep(c, node, p, counts) == Outcome(c, Success(counts))
  {
  }

  /** The number of nodes whose id lookup misses. */
  function MissingIds(nodes: seq<Json>, id: seq<string>): nat {
    if nodes == [] then 0
    else MissingIds(nodes[..|nodes| - 1], id) + (if Walk(nodes[|nodes| - 1], id) == Failure(KeyError) then 1 else 0)
  }

  /** One node: it claims at most one id, and counts only if that id is new. */
  lemma NodeStepCounts(c: Ctx, node: Json, p: Paths, counts: Counts)
    requires Based(counts.bases)
    ensures var o := NodeStep(c, node, p, counts);
            && c.seen <= o.ctx.seen && c.duplicates <= o.ctx.duplicates
            && (o.result.Success? ==>
                  && Bounded(counts, o.result.value, |o.ctx.seen - c.seen|) && Based(o.result.value.bases)
                  && |o.ctx.seen - c.seen| + o.ctx.duplicates - c.duplicates ==
                     (if Walk(node, p.id) == Failure(KeyError) then 0 else 1))
  {
    match Walk(node, p.id)
    case Failure(_) =>
    case Success(nodeId) =>
      var claimed := Claim(c, nodeId);
      if claimed.result == Success(false) {
        FieldsCounts(node, p, counts);
        assert claimed.ctx.seen - c.seen == {HashKey(nodeId).value};
      } else if claimed.result == Success(true) {
        assert claimed.ctx.seen - c.seen == {};
      }
  }

  /**
   * `parse_meshviewer` and `parse_nodes_json_v2`: over a loop that did not
   * raise, bases and models each total at most the number of newly seen
   * ids, domains total at most models, every version key is a release, and
   * every node with an id was counted once as new or as a duplicate.
   */
  lemma {:induction false} NodesFoldCounts(c: Ctx, nodes: seq<Json>, p: Paths)
    ensures var o := NodesFold(c, nodes, p);
            && c.seen <= o.ctx.seen && c.duplicates <= o.ctx.duplicates
            && (o.result.Success? ==>
                  var r := o.result.value;
                  var newIds := |o.ctx.seen - c.seen|;
                  && |r.bases| <= newIds && |r.domains| <= |r.models| <= newIds
                  && Bounded(NoCounts, r, newIds) && Based(r.bases)
                  && newIds + o.ctx.duplicates - c.duplicates == |nodes| - MissingIds(nodes, p.id))
    decreases |nodes|
  {
    if nodes != [] {
      var init := nodes[..|nodes| - 1];
      var prev := NodesFold(c, init, p);
      NodesFoldCounts(c, init, p);
      if prev.result.Success? {
        var o := NodeStep(prev.ctx, nodes[|nodes| - 1], p, prev.result.value);
        NodeStepCounts(prev.ctx, nodes[|nodes| - 1], p, prev.result.value);
        DiffChain(c.seen, prev.ctx.seen, o.ctx.seen);
        if o.result.Success? {
          BoundedChain(NoCounts, prev.result.value, o.result.value,
                       |prev.ctx.seen - c.seen|, |o.ctx.seen - prev.ctx.seen|);
        }
      }
    }
  }

  /** The ids `parse_nodes_json_v1` claims: the mapping keys. */
  function MemberIds(members: seq<(string, Json)>): set<Json> {
    if members == [] then {}
    else MemberIds(members[..|members| - 1]) + {Str(members[|members| - 1].0)}
  }

  /** One member: its key is claimed whatever follows, and counts a base only if it is new. */
  lemma MemberStepCounts(c: Ctx, nodeId: string, node: Json, counts: Counts)
    requires Based(counts.bases) && counts.models == multiset{} && counts.domains == multiset{}
    ensures var o := MemberStep(c, nodeId, node, counts);
            && o.ctx.seen == c.seen + {Str(nodeId)} && c.duplicates <= o.ctx.duplicates
            && |o.ctx.seen - c.seen| + o.ctx.duplicates - c.duplicates == 1
            && (o.result.Success? ==>
                  && Based(o.result.value.bases) && counts.bases <= o.result.value.bases
                  && |o.result.value.bases| <= |counts.bases| + |o.ctx.seen - c.seen|
                  && o.result.value.models == multiset{} && o.result.value.domains == multiset{})
    ensures MemberStep(c, nodeId, node, counts).result.Failure? ==> MemberStep(c, nodeId, node, counts).result.error == TypeError
  {
    var claimed := Claim(c, Str(nodeId));
    if claimed.result == Success(true) {
      assert claimed.ctx.seen - c.seen == {};
    } else {
      assert claimed.ctx.seen - c.seen == {Str(nodeId)};
      match Walk(node, NodesJsonV1BasePath)
      case Failure(_) =>
      case Success(base) =>
        if base.Str? {
          CountVersionBased(counts.bases, base.s);
        }
    }
  }

  /**
   * `parse_nodes_json_v1`: over a loop that did not raise, every mapping key
   * is in `seen` (also when its node has no base), each member was counted
   * once as new or as a duplicate, bases total at most the newly seen ids,
   * every version key is a release, and the model and domain counters are
   * empty.
   */
  lemma {:induction false} MembersFoldCounts(c: Ctx, members: seq<(string, Json)>)
    ensures var o := MembersFold(c, members);
            && c.seen <= o.ctx.seen && c.duplicates <= o.ctx.duplicates
            && (o.result.Success? ==>
                  var r := o.result.value;
                  && o.ctx.seen == c.seen + MemberIds(members)
                  && |o.ctx.seen - c.seen| + o.ctx.duplicates - c.duplicates == |members|
                  && |r.bases| <= |o.ctx.seen - c.seen| && Based(r.bases)
                  && r.models == multiset{} && r.domains == multiset{})
    decreases |members|
  {
    if members != [] {
      var init := members[..|members| - 1];
      var last := members[|members| - 1];
      var prev := MembersFold(c, init);
      MembersFoldCounts(c, init);
      if prev.result.Success? {
        var o := MemberStep(prev.ctx, last.0, last.1, prev.result.value);
        MemberStepCounts(prev.ctx, last.0, last.1, prev.result.value);
        DiffChain(c.seen, prev.ctx.seen, o.ctx.seen);
      }
    }
  }

  /** A key is among the claimed ids exactly when it is one of the mapping's keys. */
  lemma {:induction false} MemberIdsAreKeys(members: seq<(string, Json)>, id: Json)
    ensures id in MemberIds(members) <==> exists i :: 0 <= i < |members| && id == Str(members[i].0)
    decreases |members|
  {
    if members != [] {
      var init := members[..|members| - 1];
      MemberIdsAreKeys(init, id);
      if id in MemberIds(init) {
        var i :| 0 <= i < |init| && id == Str(init[i].0);
        assert members[i] == init[i];
      }
      if exists i :: 0 <= i < |members| && id == Str(members[i].0) {
        var i :| 0 <= i < |members| && id == Str(members[i].0);
        if i < |init| {
          assert init[i] == members[i];
        }
      }
    }
  }

  /** Whatever a document is and whichever format accepts it, the version keys its parser returns are releases. */
  lemma LoadBased(accepts: Schemas, c: Ctx, data: Json)
    ensures var o := LoadSpec(accepts, c, data);
            o.result.Success? ==> Based(o.result.value.bases)
  {
    match Detect(accepts, data)
    case None =>
    case Some(f) =>
      match f.parser
      case MeshviewerParser => NodesBased(c, data, MeshviewerPaths);
      case NodesJsonV1Parser => MembersBased(c, data);
      case NodesJsonV2Parser => NodesBased(c, data, NodesJsonV2Paths);
  }

  /** `LoadBased` for the node-list parsers. */
  lemma NodesBased(c: Ctx, data: Json, p: Paths)
    ensures var o := NodesSpec(c, data, p);
            o.result.Success? ==> Based(o.result.value.bases)
  {
    if NodeList(data).Success? {
      NodesFoldCounts(c, NodeList(data).value, p);
    }
  }

  /** `LoadBased` for `parse_nodes_json_v1`. */
  lemma MembersBased(c: Ctx, data: Json)
    ensures var o := MembersSpec(c, data);
            o.result.Success? ==> Based(o.result.value.bases)
  {
    if NodeMembers(data).Success? {
      MembersFoldCounts(c, NodeMembers(data).value);
    }
  }

  /** Once the result loop has raised, the rest of the worklist is never looked at. */
  lemma {:induction false} RunFailurePersists(accepts: Schemas, s: RunState, worklist: seq<Source>, i: nat)
    requires i <= |worklist|
    requires RunSpec(accepts, s, worklist[..i]).Failure?
    ensures RunSpec(accepts, s, worklist) == RunSpec(accepts, s, worklist[..i])
    decreases |worklist| - i
  {
    if i < |worklist| {
      assert worklist[..i + 1][..i] == worklist[..i];
      RunFailurePersists(accepts, s, worklist, i + 1);
    } else {
      assert worklist[..i] == worklist;
    }
  }

  /**
   * "Could not match version" is never raised: every version key a parser
   * records matches `BASE_PATTERN`, so the result loop runs to the end.
   */
  lemma {:induction false} RunNeverRaises(accepts: Schemas, s: RunState, worklist: seq<Source>)
    ensures RunSpec(accepts, s, worklist).Success?
    decreases |worklist|
  {
    if worklist != [] {
      var init := worklist[..|worklist| - 1];
      RunNeverRaises(accepts, s, init);
      var before := RunSpec(accepts, s, init).value;
      var item := worklist[|worklist| - 1];
      if item.fetched.Some? {
        LoadBased(accepts, before.ctx, item.fetched.value);
      }
    }
  }

  /**
   * After one community's counters were added, each gauge's value under
   * that community grew by the counter's entry for the key and stayed as it
   * was under every other community; the version gauge's base label is the
   * key's release prefix, the same one the node's firmware string has.
   */
  lemma AccumulateValues(s: RunState, community: string, counts: Counts, c: string,
                         version: string, model: string, domain: Json)
    requires Based(counts.bases)
    ensures var t := AccumulateSpec(s, community, counts);
            var n := if c == community then 1 else 0;
            && t.Success?
            && Value(t.value.version, c, version) == Value(s.version, c, version) + n * counts.bases[version]
            && Value(t.value.model, c, model) == Value(s.model, c, model) + n * counts.models[model]
            && Value(t.value.domain, c, domain) == Value(s.domain, c, domain) + n * counts.domains[domain]
            && (version in counts.bases ==> BaseLabel(version).Some?)
  {
    AddCountsValue(s.version, community, counts.bases, c, version);
    AddCountsValue(s.model, community, counts.models, c, model);
    AddCountsValue(s.domain, community, counts.domains, c, domain);
  }

  /** The printed counts read back as `len(seen)` and `duplicates`. */
  lemma SummaryReadsBack(c: Ctx)
    ensures var t := SummaryText(c);
            var k := |NatToString(|c.seen|)|;
            var m := |NatToString(c.duplicates)|;
            && k < |t| && t[k] == ' ' && DecimalValue(t[..k]) == |c.seen|
            && k + 14 + m < |t| && t[k + 14 + m] == ' '
            && (forall i :: k + 14 <= i < k + 14 + m ==> IsDigit(t[i]))
            && DecimalValue(t[k + 14..k + 14 + m]) == c.duplicates
  {
    var u := NatToString(|c.seen|);
    var d := NatToString(c.duplicates);
    var t := SummaryText(c);
    assert t == u + " unique nodes\n" + d + " duplicates skipped\n";
    assert t[..|u|] == u;
    assert t[|u| + 14..|u| + 14 + |d|] == d;
    NatToStringRoundTrip(|c.seen|);
    NatToStringRoundTrip(c.duplicates);
  }

  /** With no communities nothing is seen and the program prints "0 unique nodes" and "0 duplicates skipped". */
  lemma EmptyRunSummary(accepts: Schemas)
    ensures RunSpec(accepts, Initial, []) == Success(Initial)
    ensures SummaryText(Initial.ctx) == "0 unique nodes\n0 duplicates skipped\n"
  {
    EmptyRun(accepts);
    ZeroSummary();
    SummaryLiteral();
  }

  /** An empty worklist leaves the state as it was. */
  lemma EmptyRun(accepts: Schemas)
    ensures RunSpec(accepts, Initial, []) == Success(Initial)
  {
  }

  /** The summary of the initial state, piece by piece. */
  lemma ZeroSummary()
    ensures SummaryText(Initial.ctx) == "0" + " unique nodes\n" + "0" + " duplicates skipped\n"
  {
    assert NatToString(0) == "0";
  }

  /** The pieces of the empty summary, joined. */
  lemma SummaryLiteral()
    ensures "0" + " unique nodes\n" + "0" + " duplicates skipped\n" == "0 unique nodes\n0 duplicates skipped\n"
  {
  }

  // --------------------------------------------------------------- methods

  /**
   * The lookups after a new id, in the program's order, each increment made
   * as soon as its value is known (the body of the `try` after
   * `already_seen`).
   */
  method CountFields(node: Json, p: Paths, counts: Counts) returns (r: Result<Counts, Exception>)
    ensures r == Fields(node, p, counts)
  {
    var result := counts;
    var base := Walk(node, p.base);
    if base.Failure? {
      return if base.error == KeyError then Success(result) else Failure(base.error);
    }
    if !base.value.Str? {
      return Failure(TypeError);
    }
    var version := VersionPrefix(base.value.s);
    if version.Some? {
      result := result.(bases := result.bases + multiset{version.value});
    }
    assert result == counts.(bases := CountVersion(counts.bases, base.value.s));
    var model := Walk(node, p.model);
    if model.Failure? {
      return if model.error == KeyError then Success(result) else Failure(model.error);
    }
    if !model.value.Str? {
      return Failure(TypeError);
    }
    result := result.(models := result.models + multiset{NormalizeModelName(model.value.s)});
    var domain := Walk(node, p.domain);
    if domain.Failure? {
      return if domain.error == KeyError then Success(result) else Failure(domain.error);
    }
    var key := HashKey(domain.value);
    if key.None? {
      return Failure(TypeError);
    }
    result := result.(domains := result.domains + multiset{key.value});
    return Success(result);
  }

  /** Adding copies of a release keeps every key a release. */
  lemma BasedCopies(versions: multiset<string>, version: string, n: nat)
    requires Based(versions) && IsRelease(version)
    ensures Based(versions + Copies(version, n))
  {
  }

  /**
   * The inner loop of `main`'s result loop over the version counter: each
   * key's base is matched with `BASE_PATTERN` and the key's count added to
   * `gluon_base_total`.
   */
  method IncrementVersionGauge(gauge: Gauge<string>, community: string, versions: multiset<string>)
    returns (r: Result<Gauge<string>, Exception>)
    ensures r.Success? <==> Based(versions)
    ensures r.Success? ==> r.value == AddCounts(gauge, community, versions)
    ensures r.Failure? ==> r.error == ValueError("Could not match version")
  {
    var g := gauge;
    var rest := versions;
    ghost var done: multiset<string> := multiset{};
    while rest != multiset{}
      invariant done + rest == versions
      invariant Based(done)
      invariant g == AddCounts(gauge, community, done)
      decreases |rest|
    {
      var version :| version in rest;
      var base := BaseLabel(version);
      if base.None? {
        assert version in versions && !IsRelease(version);
        return Failure(ValueError("Could not match version"));
      }
      var n := rest[version];
      Split(rest, version);
      AddCountsStep(gauge, community, done, version, n);
      BasedCopies(done, version, n);
      var samples := Samples(g, community);
      g := g[community := samples[version := samples[version] + n]];
      done := done + Copies(version, n);
      rest := rest[version := 0];
    }
    assert done == done + rest == versions;
    return Success(g);
  }

  /** The module-level state of census-exporter.py and the functions that update it. */
  class LegacyCensus {
    const dedup: SeenSet
    var version: Gauge<string>
    var model: Gauge<string>
    var domain: Gauge<Json>

    function State(): RunState
      reads this, dedup
    {
      RunState(dedup.State(), version, model, domain)
    }

    /** Nothing seen, no duplicates, no gauge incremented. */
    constructor ()
      ensures State() == Initial
    {
      dedup := new SeenSet();
      version, model, domain := map[], map[], map[];
    }

    /** The body of the node loop of `parse_meshviewer` and `parse_nodes_json_v2`. */
    method ParseNode(node: Json, p: Paths, counts: Counts) returns (r: Result<Counts, Exception>)
      modifies dedup
      ensures Outcome(dedup.State(), r) == NodeStep(old(dedup.State()), node, p, counts)
    {
      var nodeId := Walk(node, p.id);
      if nodeId.Failure? {
        return if nodeId.error == KeyError then Success(counts) else Failure(nodeId.error);
      }
      var seenBefore :- dedup.AlreadySeen(nodeId.value);
      if seenBefore {
        return Success(counts);
      }
      r := CountFields(node, p, counts);
    }

    /** `parse_meshviewer` (with `MeshviewerPaths`) and `parse_nodes_json_v2` (with `NodesJsonV2Paths`). */
    method ParseNodes(data: Json, p: Paths) returns (r: Result<Counts, Exception>)
      modifies dedup
      ensures Outcome(dedup.State(), r) == NodesSpec(old(dedup.State()), data, p)
    {
      var nodes :- NodeList(data);
      ghost var c := dedup.State();
      var counts := NoCounts;
      for i := 0 to |nodes|
        invariant Outcome(dedup.State(), Success(counts)) == NodesFold(c, nodes[..i], p)
      {
        NodesFoldNext(c, nodes, p, i);
        r := ParseNode(nodes[i], p, counts);
        if r.Failure? {
          return;
        }
        counts := r.value;
      }
      assert nodes[..|nodes|] == nodes;
      return Success(counts);
    }

    /** The body of the member loop of `parse_nodes_json_v1`. */
    method ParseMember(nodeId: string, node: Json, counts: Counts) returns (r: Result<Counts, Exception>)
      modifies dedup
      ensures Outcome(dedup.State(), r) == MemberStep(old(dedup.State()), nodeId, node, counts)
    {
      var seenBefore := dedup.AlreadySeen(Str(nodeId));
      if seenBefore == Success(true) {
        return Success(counts);
      }
      var base := Walk(node, NodesJsonV1BasePath);
      if base.Failure? {
        return if base.error == KeyError then Success(counts) else Failure(base.error);
      }
      if !base.value.Str? {
        return Failure(TypeError);
      }
      var version := VersionPrefix(base.value.s);
      if version.Some? {
        return Success(counts.(bases := counts.bases + multiset{version.value}));
      }
      return Success(counts);
    }

    /** `parse_nodes_json_v1`. */
    method ParseNodesJsonV1(data: Json) returns (r: Result<Counts, Exception>)
      modifies dedup
      ensures Outcome(dedup.State(), r) == MembersSpec(old(dedup.State()), data)
    {
      var members :- NodeMembers(data);
      ghost var c := dedup.State();
      var counts := NoCounts;
      for i := 0 to |members|
        invariant Outcome(dedup.State(), Success(counts)) == MembersFold(c, members[..i])
      {
        MembersFoldNext(c, members, i);
        r := ParseMember(members[i].0, members[i].1, counts);
        if r.Failure? {
          return;
        }
        counts := r.value;
      }
      assert members[..|members|] == members;
      return Success(counts);
    }

    /** The parser a format was registered with, applied to the document. */
    method Parse(parser: Parser, data: Json) returns (r: Result<Counts, Exception>)
      modifies dedup
      ensures Outcome(dedup.State(), r) == ParseSpec(old(dedup.State()), parser, data)
    {
      match parser {
        case MeshviewerParser => r := ParseNodes(data, MeshviewerPaths);
        case NodesJsonV1Parser => r := ParseNodesJsonV1(data);
        case NodesJsonV2Parser => r := ParseNodes(data, NodesJsonV2Paths);
      }
    }

    /** `load` after the download: the first format whose schema accepts the document parses it. */
    method Load(accepts: Schemas, data: Json) returns (r: Result<Counts, Exception>)
      modifies dedup
      ensures Outcome(dedup.State(), r) == LoadSpec(accepts, old(dedup.State()), data)
    {
      var format := DetectFormat(accepts, data);
      if format.None? {
        return Failure(ValueError("No parser found"));
      }
      r := Parse(format.value.parser, data);
    }

    /** `named_load`: None for a document that could not be fetched or whose load raised. */
    method NamedLoad(accepts: Schemas, fetched: Option<Json>) returns (r: Option<Counts>)
      modifies dedup
      ensures Loaded(dedup.State(), r) == NamedLoadSpec(accepts, old(dedup.State()), fetched)
    {
      if fetched.None? {
        return None;
      }
      var loaded := Load(accepts, fetched.value);
      if loaded.Failure? {
        return None;
      }
      return Some(loaded.value);
    }

    /**
     * One community's counters added to the three gauges. On "Could not
     * match version" the program ends, so the gauges are then left as they
     * were.
     */
    method Accumulate(community: string, counts: Counts) returns (error: Option<Exception>)
      modifies this
      ensures var t := AccumulateSpec(old(State()), community, counts);
              && (t.Success? ==> error == None && State() == t.value)
              && (t.Failure? ==> error == Some(t.error) && State() == old(State()))
    {
      var v := IncrementVersionGauge(version, community, counts.bases);
      if v.Failure? {
        return Some(v.error);
      }
      var m, modelSum := IncrementGauge(model, community, counts.models);
      var d, domainSum := IncrementGauge(domain, community, counts.domains);
      version, model, domain := v.value, m, d;
      return None;
    }

    /** The result loop of `main`: each community's counters, unless its load failed, are added to the gauges. */
    method Run(accepts: Schemas, worklist: seq<Source>) returns (error: Option<Exception>)
      modifies this, dedup
      ensures var t := RunSpec(accepts, old(State()), worklist);
              && (t.Success? ==> error == None && State() == t.value)
              && (t.Failure? ==> error == Some(t.error))
    {
      for i := 0 to |worklist|
        invariant RunSpec(accepts, old(State()), worklist[..i]) == Success(State())
      {
        assert worklist[..i + 1][..i] == worklist[..i];
        var item := worklist[i];
        var result := NamedLoad(accepts, item.fetched);
        if result.Some? {
          error := Accumulate(item.community, result.value);
          if error.Some? {
            RunFailurePersists(accepts, old(State()), worklist, i + 1);
            return;
          }
        }
      }
      assert worklist[..|worklist|] == worklist;
      return None;
    }

    /** The two lines `main` prints after writing the gauges. */
    method Summary() returns (text: string)
      ensures text == SummaryText(dedup.State())
    {
      text := NatToString(|dedup.seen|) + " unique nodes\n" + NatToString(dedup.duplicates) + " duplicates skipped\n";
    }
  }

  /** One more iteration of the node loop, as `FoldNext` states it for the packaged exporter. */
  lemma NodesFoldNext(c: Ctx, nodes: seq<Json>, p: Paths, i: nat)
    requires i < |nodes|
    requires NodesFold(c, nodes[..i], p).result.Success?
    ensures var prev := NodesFold(c, nodes[..i], p);
            var next := NodeStep(prev.ctx, nodes[i], p, prev.result.value);
            && NodesFold(c, nodes[..i + 1], p) == next
            && (next.result.Failure? ==> NodesFold(c, nodes, p) == next)
  {
    assert nodes[..i + 1][..i] == nodes[..i];
    if NodesFold(c, nodes[..i + 1], p).result.Failure? {
      NodesFoldFailurePersists(c, nodes, p, i + 1);
    }
  }

  /** Once the node loop has raised, the remaining nodes are never looked at. */
  lemma {:induction false} NodesFoldFailurePersists(c: Ctx, nodes: seq<Json>, p: Paths, i: nat)
    requires i <= |nodes|
    requires NodesFold(c, nodes[..i], p).result.Failure?
    ensures NodesFold(c, nodes, p) == NodesFold(c, nodes[..i], p)
    decreases |nodes| - i
  {
    if i < |nodes| {
      assert nodes[..i + 1][..i] == nodes[..i];
      NodesFoldFailurePersists(c, nodes, p, i + 1);
    } else {
      assert nodes[..i] == nodes;
    }
  }

  /** One more iteration of the member loop of `parse_nodes_json_v1`. */
  lemma MembersFoldNext(c: Ctx, members: seq<(string, Json)>, i: nat)
    requires i < |members|
    requires MembersFold(c, members[..i]).result.Success?
    ensures var prev := MembersFold(c, members[..i]);
            var next := MemberStep(prev.ctx, members[i].0, members[i].1, prev.result.value);
            && MembersFold(c, members[..i + 1]) == next
            && (next.result.Failure? ==> MembersFold(c, members) == next)
  {
    assert members[..i + 1][..i] == members[..i];
    if MembersFold(c, members[..i + 1]).result.Failure? {
      MembersFoldFailurePersists(c, members, i + 1);
    }
  }

  /** Once the member loop has raised, the remaining members are never looked at. */
  lemma {:induction false} MembersFoldFailurePersists(c: Ctx, members: seq<(string, Json)>, i: nat)
    requires i <= |members|
    requires MembersFold(c, members[..i]).result.Failure?
    ensures MembersFold(c, members) == MembersFold(c, members[..i])
    decreases |members| - i
  {
    if i < |members| {
      assert members[..i + 1][..i] == members[..i];
      MembersFoldFailurePersists(c, members, i + 1);
    } else {
      assert members[..i] == members;
    }
  }
}
