/**
 * The firmware version classifier of `src/gluon_census_exporter/__main__.py`
 * (`PATTERNS` and `get_base_version`) and the two patterns of
 * `census-exporter.py` (`VERSION_PATTERN`, `BASE_PATTERN`).
 *
 * Each regular expression is written out as the value its named group
 * captures when `re.match` succeeds, with Python's rules: the match is
 * anchored at the start only; `.` matches anything but a newline; `$`
 * matches at the end or before one final newline; optional groups and
 * repetitions are greedy. `\d` is read as an ASCII digit.
 */
module Version {
  import opened Wrappers
  import opened Text
  import opened Json

  /** The six classification buckets. */
  datatype VType = GluonBase | GluonUnknown | GluonCommitId | GluonCustom | Undefined | Foreign {

    /** The label text the gauges carry. */
    function Name(): string {
      match this
      case GluonBase => "gluon-base"
      case GluonUnknown => "gluon-unknown"
      case GluonCommitId => "gluon-commitid"
      case GluonCustom => "gluon-custom"
      case Undefined => "undefined"
      case Foreign => "foreign"
    }

    /** Nodes of these two buckets are counted in the "alien" metrics. */
    predicate IsAlien() {
      this == Undefined || this == Foreign
    }
  }

  /** The `(version, base, vtype)` triple `get_base_version` returns. */
  datatype VersionClass = VersionClass(version: string, base: string, vtype: VType)

  const Unset := VersionClass("undefined", "undefined", Undefined)

  predicate IsHexDigit(c: char) {
    IsDigit(c) || 'a' <= c <= 'f'
  }

  predicate StartsGluon(s: string) {
    |s| >= 6 && s[..6] == "gluon-"
  }

  /** The length of the longest newline-free prefix: what `.*` consumes. */
  function LineEnd(s: string): (n: nat)
    ensures n <= |s|
    ensures forall i :: 0 <= i < n ==> s[i] != '\n'
    ensures n < |s| ==> s[n] == '\n'
  {
    if s == [] || s[0] == '\n' then 0 else 1 + LineEnd(s[1..])
  }

  function Line(s: string): string {
    s[..LineEnd(s)]
  }

  /** `s` without one final newline: `^X$` matches `s` exactly when `Chomp(s)` is X and X has no newline. */
  function Chomp(s: string): string {
    if s != [] && s[|s| - 1] == '\n' then s[..|s| - 1] else s
  }

  /** `gluon-v\d{4}\.\d` matches at the start of `s`. */
  predicate IsRelease(s: string) {
    && |s| >= 13 && s[..7] == "gluon-v"
    && IsDigit(s[7]) && IsDigit(s[8]) && IsDigit(s[9]) && IsDigit(s[10])
    && s[11] == '.' && IsDigit(s[12])
  }

  /** The end of `gluon-v\d{4}\.\d(?:\.\d)?`, taking the optional group when it is there. */
  function ReleaseEnd(s: string): (n: nat)
    requires IsRelease(s)
    ensures n == 13 || n == 15
    ensures n <= |s|
  {
    if |s| >= 15 && s[13] == '.' && IsDigit(s[14]) then 15 else 13
  }

  /** The end of the run of digits starting at `i`. */
  function DigitsEnd(s: string, i: nat): (j: nat)
    requires i <= |s|
    ensures i <= j <= |s|
    ensures forall k :: i <= k < j ==> IsDigit(s[k])
    ensures j < |s| ==> !IsDigit(s[j])
    decreases |s| - i
  {
    if i < |s| && IsDigit(s[i]) then DigitsEnd(s, i + 1) else i
  }

  /** The end of `(?:-\d+)?` starting at `p`. */
  function BuildEnd(s: string, p: nat): (q: nat)
    requires p <= |s|
    ensures p <= q <= |s|
    ensures q == p || (q >= p + 2 && s[p] == '-' && forall k :: p < k < q ==> IsDigit(s[k]))
  {
    if p + 1 < |s| && s[p] == '-' && IsDigit(s[p + 1]) then DigitsEnd(s, p + 1) else p
  }

  /** `gluon-[0-9a-f]{7,}` spans all of `t`. */
  predicate IsCommitId(t: string) {
    |t| >= 13 && t[..6] == "gluon-" && forall k :: 6 <= k < |t| ==> IsHexDigit(t[k])
  }

  /** The distinct regular expressions of the two programs. */
  datatype Regex =
    | ReleaseBuild  // ^(gluon-v\d{4}\.\d(?:\.\d)?(?:-\d+)?).*   (also VERSION_PATTERN)
    | Release       // ^(gluon-v\d{4}\.\d(?:\.\d)?).*            (also BASE_PATTERN)
    | UnknownLine   // ^(gluon-unknown)$
    | CommitIdLine  // ^(gluon-[0-9a-f]{7,})$
    | GluonRest     // ^(gluon-.*)
    | EmptyLine     // ^()$
    | AnyRest       // ^(.*)

  /** `regex.match(s)`: None when it does not match, otherwise the named group. */
  function Match(r: Regex, s: string): Option<string> {
    match r
    case ReleaseBuild => if IsRelease(s) then Some(s[..BuildEnd(s, ReleaseEnd(s))]) else None
    case Release => if IsRelease(s) then Some(s[..ReleaseEnd(s)]) else None
    case UnknownLine => if Chomp(s) == "gluon-unknown" then Some("gluon-unknown") else None
    case CommitIdLine => if IsCommitId(Chomp(s)) then Some(Chomp(s)) else None
    case GluonRest => if StartsGluon(s) then Some(Line(s)) else None
    case EmptyLine => if Chomp(s) == "" then Some("") else None
    case AnyRest => Some(Line(s))
  }

  /** One entry of `PATTERNS`. */
  datatype PatternDef = PatternDef(version: Regex, base: Regex, vtype: VType)

  /** `PATTERNS`, in the order `get_base_version` tries them. */
  const Patterns: seq<PatternDef> := [
    PatternDef(ReleaseBuild, Release, GluonBase),
    PatternDef(UnknownLine, UnknownLine, GluonUnknown),
    PatternDef(CommitIdLine, CommitIdLine, GluonCommitId),
    PatternDef(GluonRest, GluonRest, GluonCustom),
    PatternDef(EmptyLine, EmptyLine, Undefined),
    PatternDef(AnyRest, AnyRest, Foreign)
  ]

  /**
   * The classification the ordered pattern list describes, bucket by
   * bucket: a release (`gluon-vYYYY.N[.N][-B]` and any text after it), the
   * literal `gluon-unknown`, a commit id (`gluon-` and seven or more lower
   * hex digits), any other `gluon-` string, no or an empty string, and
   * anything else.
   */
  function Classify(firmware: Option<string>): (c: VersionClass)
    ensures firmware == None || firmware == Some("") ==> c == Unset
    ensures c.vtype.IsAlien() <==> firmware == None || !StartsGluon(firmware.value)
    ensures c.vtype != GluonBase ==> c.version == c.base
  {
    if firmware.None? then Unset
    else
      var s := firmware.value;
      GluonBucketsStartGluon(s);
      if IsRelease(s) then
        VersionClass(s[..BuildEnd(s, ReleaseEnd(s))], s[..ReleaseEnd(s)], GluonBase)
      else if Chomp(s) == "gluon-unknown" then
        VersionClass("gluon-unknown", "gluon-unknown", GluonUnknown)
      else if IsCommitId(Chomp(s)) then
        VersionClass(Chomp(s), Chomp(s), GluonCommitId)
      else if StartsGluon(s) then
        VersionClass(Line(s), Line(s), GluonCustom)
      else if Chomp(s) == "" then
        Unset
      else
        VersionClass(Line(s), Line(s), Foreign)
  }

  /** A release, `gluon-unknown` and a commit id all start with `gluon-`. */
  lemma GluonBucketsStartGluon(s: string)
    ensures IsRelease(s) || Chomp(s) == "gluon-unknown" || IsCommitId(Chomp(s)) ==> StartsGluon(s)
    ensures Chomp(s) == "" ==> !StartsGluon(s)
  {
    if IsRelease(s) {
      assert s[..6] == s[..7][..6];
    } else if Chomp(s) == "gluon-unknown" || IsCommitId(Chomp(s)) {
      assert s[..6] == Chomp(s)[..6];
    }
  }

  /**
   * Which strings land in each of the six buckets. The ordering of the
   * patterns only matters between a commit id or a release and a custom
   * string: a commit id is never a release nor `gluon-unknown`, since its
   * seventh character is a hex digit and theirs is `v` or `u`.
   */
  lemma ClassifyBuckets(firmware: Option<string>)
    ensures var c := Classify(firmware);
            && (c.vtype == GluonBase <==> firmware.Some? && IsRelease(firmware.value))
            && (c.vtype == GluonUnknown <==> firmware.Some? && Chomp(firmware.value) == "gluon-unknown")
            && (c.vtype == GluonCommitId ==> IsCommitId(c.version))
            && (c.vtype == GluonCommitId <==> firmware.Some? && IsCommitId(Chomp(firmware.value)))
            && (c.vtype == GluonCustom <==>
                  firmware.Some? && StartsGluon(firmware.value) && !IsRelease(firmware.value) &&
                  Chomp(firmware.value) != "gluon-unknown" && !IsCommitId(Chomp(firmware.value)))
            && (c.vtype == Undefined <==> firmware.None? || Chomp(firmware.value) == "")
            && (c.vtype == Foreign <==>
                  firmware.Some? && !StartsGluon(firmware.value) && Chomp(firmware.value) != "")
  {
    if firmware.Some? {
      var s := firmware.value;
      GluonBucketsStartGluon(s);
      var t := Chomp(s);
      if IsCommitId(t) {
        assert t[6] == s[6];
        assert IsHexDigit(t[6]);
      }
    }
  }

  /**
   * The shape of a release: its base is `gluon-vYYYY.N` or `gluon-vYYYY.N.N`,
   * and its version is the base alone or the base followed by `-` and a
   * build number. The base takes the `.N` exactly when the firmware string
   * has it, and the version takes the whole `-N` suffix exactly when the
   * firmware string has one.
   */
  lemma ReleaseShape(firmware: Option<string>)
    ensures var c := Classify(firmware);
            c.vtype == GluonBase ==>
              && IsRelease(c.base) && (|c.base| == 13 || |c.base| == 15)
              && (c.version == c.base ||
                  (|c.version| >= |c.base| + 2 && c.version[|c.base|] == '-' &&
                   forall k :: |c.base| < k < |c.version| ==> IsDigit(c.version[k])))
    ensures var c := Classify(firmware);
            c.vtype == GluonBase ==>
              var s := firmware.value;
              && (|c.base| == 15 <==> |s| >= 15 && s[13] == '.' && IsDigit(s[14]))
              && (|c.base| == 15 ==> c.base[13] == '.' && IsDigit(c.base[14]))
              && (|s| > |c.base| + 1 && s[|c.base|] == '-' && IsDigit(s[|c.base| + 1]) ==>
                    c.version != c.base)
              && (|c.base| < |c.version| < |s| ==> !IsDigit(s[|c.version|]))
  {
    if firmware.Some? && IsRelease(firmware.value) {
      var s := firmware.value;
      var r := ReleaseEnd(s);
      assert s[..r][..13] == s[..13];
    }
  }

  /**
   * The base is a prefix of the version and the version a prefix of the
   * firmware string; without a newline in it, a commit id, custom or
   * foreign string is its own version.
   */
  lemma ClassifyTakesPrefix(firmware: Option<string>)
    ensures var c := Classify(firmware);
            && c.base <= c.version
            && (c.vtype != Undefined ==> c.version <= firmware.value)
            && (firmware.Some? && '\n' !in firmware.value &&
                (c.vtype == GluonCommitId || c.vtype == GluonCustom || c.vtype == Foreign) ==>
                  c.version == firmware.value)
  {
  }

  /** Wherever a pattern's version expression matches, its base expression matches too. */
  lemma BaseMatchesWithVersion(i: nat, s: string)
    requires i < |Patterns|
    ensures Match(Patterns[i].version, s).Some? ==> Match(Patterns[i].base, s).Some?
  {
  }

  /** The first pattern whose version expression matches decides the classification. */
  lemma FirstMatchClassifies(i: nat, s: string)
    requires i < |Patterns|
    requires forall j :: 0 <= j < i ==> Match(Patterns[j].version, s).None?
    requires Match(Patterns[i].version, s).Some?
    ensures Patterns[i].vtype == Undefined ==> Classify(Some(s)) == Unset
    ensures Patterns[i].vtype != Undefined ==>
              Classify(Some(s)) ==
              VersionClass(Match(Patterns[i].version, s).value, Match(Patterns[i].base, s).value, Patterns[i].vtype)
  {
    if i > 0 {
      assert Match(Patterns[0].version, s).None?;
      assert !IsRelease(s);
      if i > 1 {
        assert Match(Patterns[1].version, s).None?;
        assert Chomp(s) != "gluon-unknown";
        if i > 2 {
          assert Match(Patterns[2].version, s).None?;
          assert !IsCommitId(Chomp(s));
          if i > 3 {
            assert Match(Patterns[3].version, s).None?;
            assert !StartsGluon(s);
            if i > 4 {
              assert Match(Patterns[4].version, s).None?;
              assert Chomp(s) != "";
            }
          }
        }
      }
    }
  }

  /** The last pattern matches every string, so the walk over `Patterns` always stops at a match. */
  lemma LastPatternMatches(s: string)
    ensures Match(Patterns[|Patterns| - 1].version, s).Some?
  {
  }

  /**
   * `get_base_version`: try the patterns in order and stop at the first
   * whose version expression matches. Both `ValueError` raises are
   * unreachable: the result is always the classification.
   */
  method GetBaseVersion(pattern: Option<string>) returns (r: Result<VersionClass, Exception>)
    ensures r == Success(Classify(pattern))
  {
    var version, vbase, vtype := "undefined", "undefined", Undefined;
    if pattern.None? {
      return Success(VersionClass(version, vbase, vtype));
    }
    var s := pattern.value;
    var i := 0;
    while i < |Patterns|
      invariant 0 <= i <= |Patterns|
      invariant forall j :: 0 <= j < i ==> Match(Patterns[j].version, s).None?
      invariant (version, vbase, vtype) == ("undefined", "undefined", Undefined)
    {
      var m := Match(Patterns[i].version, s);
      if m.None? {
        i := i + 1;
        continue;
      }
      FirstMatchClassifies(i, s);
      vtype := Patterns[i].vtype;
      if vtype == Undefined {
        break;
      }
      version := m.value;
      BaseMatchesWithVersion(i, s);
      var mb := Match(Patterns[i].base, s);
      if mb.None? {
        return Failure(ValueError("Could not match base version"));
      }
      vbase := mb.value;
      break;
    }
    LastPatternMatches(s);
    return Success(VersionClass(version, vbase, vtype));
  }

  /** `VERSION_PATTERN.match(base)`: the release prefix with its build suffix, if `base` is a release. */
  function VersionPrefix(base: string): (v: Option<string>)
    ensures v.Some? <==> IsRelease(base)
    ensures v.Some? ==> v.value <= base && IsRelease(v.value)
  {
    Match(ReleaseBuild, base)
  }

  /**
   * What the result loop of census-exporter.py relies on: every version key
   * a parser records matches `BASE_PATTERN`, so "Could not match version"
   * is never raised, and the base it derives is the key without its `-N`
   * build suffix, the same base the original firmware string has.
   */
  lemma VersionKeyHasBase(base: string)
    requires VersionPrefix(base).Some?
    ensures Match(Release, VersionPrefix(base).value).Some?
    ensures Match(Release, VersionPrefix(base).value) == Match(Release, base)
  {
    var v := VersionPrefix(base).value;
    assert v[..13] == base[..13];
    assert |v| >= 15 ==> v[13] == base[13] && v[14] == base[14];
    assert v[..7] == base[..7];
    if ReleaseEnd(base) == 15 {
      assert v[..15] == base[..15];
    } else {
      assert v[..13] == base[..13];
    }
  }

  /** A release string with a build number and trailing text: the build number stays in the version only. */
  lemma ReleaseExample()
    ensures Classify(Some("gluon-v2023.2.1-12-x")) ==
            VersionClass("gluon-v2023.2.1-12", "gluon-v2023.2.1", GluonBase)
  {
    var s := "gluon-v2023.2.1-12-x";
    assert IsRelease(s) && ReleaseEnd(s) == 15;
    assert DigitsEnd(s, 18) == 18;
    assert DigitsEnd(s, 16) == 18;
    assert s[..18] == "gluon-v2023.2.1-12" && s[..15] == "gluon-v2023.2.1";
  }

  /** "gluon-v2024.1" is a release although the looser `gluon-.*` pattern matches it as well. */
  lemma ReleaseBeforeCustomExample()
    ensures Match(GluonRest, "gluon-v2024.1").Some?
    ensures Classify(Some("gluon-v2024.1")) == VersionClass("gluon-v2024.1", "gluon-v2024.1", GluonBase)
  {
    var s := "gluon-v2024.1";
    assert IsRelease(s) && ReleaseEnd(s) == 13 && BuildEnd(s, 13) == 13;
    assert s[..13] == s;
  }

  /** `gluon-` and seven hex digits is a commit id. */
  lemma CommitIdExample()
    ensures Classify(Some("gluon-1a2b3c4")) == VersionClass("gluon-1a2b3c4", "gluon-1a2b3c4", GluonCommitId)
  {
    var s := "gluon-1a2b3c4";
    assert !IsRelease(s) && Chomp(s) == s;
    assert s[..6] == "gluon-";
    assert IsCommitId(s);
  }

  /** Without a newline, `.*` and `$` see the whole string. */
  lemma NoNewline(s: string)
    requires '\n' !in s
    ensures LineEnd(s) == |s| && Line(s) == s && Chomp(s) == s
  {
  }

  /**
   * A `gluon-` string without a newline that is too short for a release or a
   * commit id (under 13 characters) is a custom build, and is its own version.
   */
  lemma ShortGluonIsCustom(s: string)
    requires StartsGluon(s) && '\n' !in s && |s| < 13
    ensures Classify(Some(s)) == VersionClass(s, s, GluonCustom)
  {
    NoNewline(s);
  }

  /** Six hex digits are too few for a commit id: such a string is a custom build. */
  lemma ShortCommitExample()
    ensures Classify(Some("gluon-1a2b3c")) == VersionClass("gluon-1a2b3c", "gluon-1a2b3c", GluonCustom)
  {
    assert "gluon-1a2b3c"[..6] == "gluon-";
    assert '\n' !in "gluon-1a2b3c";
    ShortGluonIsCustom("gluon-1a2b3c");
  }
}
