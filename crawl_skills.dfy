/**
 * The crawler prototype script (`scripts/crawl-skills.ts`): its command
 * line, the extractor for JSON listing shapes, the HTML link strategies
 * with de-duplication, the SKILL.md probe with its one-shot code-search
 * fallback, the fallback skill list merged with code-search discoveries,
 * and the crawl loop with its counters.
 *
 * Site analysis and the API discovery probes are not modelled: their
 * results are parameters. A fetch is an `HttpOutcome`, a response body read
 * as JSON is `json(body)` (`None` when it is not JSON), and waits are a
 * ghost trace.
 */
module CrawlScript {
  import opened Wrappers
  import opened Text
  import opened Json
  import opened Metadata
  import opened SkillListing
  import opened Crawler

  // ---------------------------------------------------------------------
  // Command line

  datatype CliArgs = CliArgs(limit: int, offset: int, dryRun: bool, verbose: bool)

  const DefaultArgs := CliArgs(DefaultLimit, 0, false, false)

  /**
   * `parseInt(s, 10)`: leading white space is skipped, then an optional
   * sign, then the longest run of decimal digits; `None` is `NaN`.
   */
  function ParseInt(s: string): (r: Option<int>)
    ensures r.None? <==> RunEnd(Unsigned(s), 0, IsDigit) == 0
  {
    var u := Unsigned(s);
    var e := RunEnd(u, 0, IsDigit);
    if e == 0 then None
    else
      assert AllChars(u[..e], IsDigit);
      var n: int := DigitsValue(u[..e]);
      Some(if Negative(s) then -n else n)
  }

  /** `s` without its leading white space. */
  function Unspaced(s: string): string {
    s[RunEnd(s, 0, IsWhitespace)..]
  }

  predicate Negative(s: string) {
    var t := Unspaced(s);
    |t| > 0 && t[0] == '-'
  }

  /** The text after the leading white space and the sign. */
  function Unsigned(s: string): string {
    var t := Unspaced(s);
    if |t| > 0 && (t[0] == '-' || t[0] == '+') then t[1..] else t
  }

  /** `parseInt` reads back what `String` writes for an integer. */
  lemma ParseIntOfText(i: int)
    ensures ParseInt(IntToString(i)) == Some(i)
  {
    var s := IntToString(i);
    var d := NatToString(if i < 0 then -i else i);
    assert s[0] == '-' || IsDigit(s[0]);
    assert RunEnd(s, 0, IsWhitespace) == 0;
    assert s[0..] == s;
    assert Unsigned(s) == d;
    RunEndAt(d, 0, d, "", IsDigit);
    assert d[0..] == d + "";
    assert d[..|d|] == d;
  }

  /** `parseInt(v, 10) || d`: `NaN` and 0 are falsy. */
  function OrDefault(n: Option<int>, d: int): (r: int)
    ensures r == d || (n.Some? && r == n.value && r != 0)
  {
    if n.Some? && n.value != 0 then n.value else d
  }

  /** The limit a `--limit` value sets: `Math.min(parseInt(v, 10) || 10, 50)`. */
  function LimitValue(v: string): (r: int)
    ensures r != 0 && r <= HardLimit
  {
    Min(OrDefault(ParseInt(v), DefaultLimit), HardLimit)
  }

  /** A positive number is taken up to 50; `NaN` and 0 give the default; a negative number is kept. */
  lemma LimitValueOf(v: string)
    ensures ParseInt(v).Some? && 0 < ParseInt(v).value ==> LimitValue(v) == Min(ParseInt(v).value, HardLimit)
    ensures (ParseInt(v).None? || ParseInt(v) == Some(0)) ==> LimitValue(v) == DefaultLimit
    ensures ParseInt(v).Some? && ParseInt(v).value < 0 ==> LimitValue(v) == ParseInt(v).value
  {
  }

  /** The offset an `--offset` value sets: `parseInt(v, 10) || 0`. */
  function OffsetValue(v: string): int {
    OrDefault(ParseInt(v), 0)
  }

  /** The offset is the number read, 0 when there is none. */
  lemma OffsetValueOf(v: string)
    ensures ParseInt(v).Some? ==> OffsetValue(v) == ParseInt(v).value
    ensures ParseInt(v).None? ==> OffsetValue(v) == 0
  {
  }

  /** `args[i + 1]` is truthy: there is a next argument and it is not empty. */
  predicate HasValue(args: seq<string>, i: nat) {
    i + 1 < |args| && args[i + 1] != ""
  }

  /** The `--limit` test of a pass: a limit flag with a value consumes it. */
  function LimitPass(args: seq<string>, i: nat, a: CliArgs): (r: (nat, CliArgs))
    requires i < |args|
    ensures r.0 == i || (r.0 == i + 1 < |args| && args[i] == "--limit")
    ensures r.1.offset == a.offset && r.1.dryRun == a.dryRun && r.1.verbose == a.verbose
    ensures r.1.limit == a.limit || args[i] == "--limit"
  {
    if args[i] == "--limit" && HasValue(args, i) then (i + 1, a.(limit := LimitValue(args[i + 1]))) else (i, a)
  }

  /** The `--offset` test of a pass, on the index the limit test left. */
  function OffsetPass(args: seq<string>, i: nat, a: CliArgs): (r: (nat, CliArgs))
    requires i < |args|
    ensures r.0 == i || (r.0 == i + 1 < |args| && args[i] == "--offset")
    ensures r.1.limit == a.limit && r.1.dryRun == a.dryRun && r.1.verbose == a.verbose
    ensures r.1.offset == a.offset || args[i] == "--offset"
  {
    if args[i] == "--offset" && HasValue(args, i) then (i + 1, a.(offset := OffsetValue(args[i + 1]))) else (i, a)
  }

  /** The two switch tests of a pass, on the index the value tests left. */
  function SwitchPass(args: seq<string>, i: nat, a: CliArgs): (r: CliArgs)
    requires i < |args|
    ensures r.limit == a.limit && r.offset == a.offset
    ensures r.dryRun <==> a.dryRun || args[i] == "--dry-run"
    ensures r.verbose <==> a.verbose || args[i] == "--verbose" || args[i] == "-v"
  {
    var a1 := if args[i] == "--dry-run" then a.(dryRun := true) else a;
    if args[i] == "--verbose" || args[i] == "-v" then a1.(verbose := true) else a1
  }

  /**
   * One pass of the argument loop from index `i`: the four tests in order,
   * each on the index as the earlier ones left it, and the index where the
   * next pass starts.
   */
  function ArgStep(args: seq<string>, i: nat, a: CliArgs): (r: (nat, CliArgs))
    requires i < |args|
    ensures i < r.0 <= |args|
  {
    var (i1, a1) := LimitPass(args, i, a);
    var (i2, a2) := OffsetPass(args, i1, a1);
    (i2 + 1, SwitchPass(args, i2, a2))
  }

  /** The arguments from index `i` on, read into `a`. */
  function ArgsFrom(args: seq<string>, i: nat, a: CliArgs): CliArgs
    requires i <= |args|
    decreases |args| - i
  {
    if i == |args| then a
    else
      var s := ArgStep(args, i, a);
      ArgsFrom(args, s.0, s.1)
  }

  /** A well-formed limit: what the default and every `--limit` value give. */
  predicate LimitInRange(a: CliArgs) {
    a.limit != 0 && a.limit <= HardLimit
  }

  /** The value flags, the only arguments a pass can consume besides its last one. */
  predicate ValueFlag(x: string) {
    x == "--limit" || x == "--offset"
  }

  /** Every pass keeps the limit in range. */
  lemma {:induction false} ArgsLimitInRange(args: seq<string>, i: nat, a: CliArgs)
    requires i <= |args| && LimitInRange(a)
    ensures LimitInRange(ArgsFrom(args, i, a))
    decreases |args| - i
  {
    if i < |args| {
      var (j, b) := ArgStep(args, i, a);
      ArgsLimitInRange(args, j, b);
    }
  }

  /** In a pass, every argument before the last one is a value flag that took its value. */
  lemma PassPrefix(args: seq<string>, i: nat, a: CliArgs)
    requires i < |args|
    ensures forall k :: i <= k < ArgStep(args, i, a).0 - 1 ==> ValueFlag(args[k])
  {
    var l := LimitPass(args, i, a);
    var o := OffsetPass(args, l.0, l.1);
    assert ArgStep(args, i, a).0 - 1 == o.0;
    forall k | i <= k < o.0
      ensures ValueFlag(args[k])
    {
      if k == i && l.0 > i {
        assert args[k] == "--limit";
      } else {
        assert k == l.0 && args[k] == "--offset";
      }
    }
  }

  /** In a pass, a non-flag argument occurs exactly when it is the last one. */
  lemma InPass(args: seq<string>, i: nat, a: CliArgs, x: string)
    requires i < |args| && !ValueFlag(x)
    ensures var j := ArgStep(args, i, a).0;
      x in args[i..j] <==> x == args[j - 1]
  {
    var j := ArgStep(args, i, a).0;
    PassPrefix(args, i, a);
    if x in args[i..j] {
      var k :| 0 <= k < j - i && args[i..j][k] == x;
      assert args[i + k] == x;
    }
    assert args[i..j][j - 1 - i] == args[j - 1];
  }

  /** A pass starting at `i` followed by the rest. */
  lemma PassSplit(args: seq<string>, i: nat, a: CliArgs, x: string)
    requires i < |args|
    ensures var j := ArgStep(args, i, a).0;
      x in args[i..] <==> x in args[i..j] || x in args[j..]
  {
    var j := ArgStep(args, i, a).0;
    assert args[i..] == args[i..j] + args[j..];
  }

  /** `--dry-run` anywhere from `i` on sets the flag, and nothing else does. */
  lemma {:induction false} ArgsDryRun(args: seq<string>, i: nat, a: CliArgs)
    requires i <= |args|
    ensures ArgsFrom(args, i, a).dryRun <==> a.dryRun || "--dry-run" in args[i..]
    decreases |args| - i
  {
    if i < |args| {
      var (j, b) := ArgStep(args, i, a);
      assert b.dryRun <==> a.dryRun || args[j - 1] == "--dry-run";
      InPass(args, i, a, "--dry-run");
      PassSplit(args, i, a, "--dry-run");
      ArgsDryRun(args, j, b);
    }
  }

  /** `--verbose` or `-v` anywhere from `i` on sets the flag, and nothing else does. */
  lemma {:induction false} ArgsVerbose(args: seq<string>, i: nat, a: CliArgs)
    requires i <= |args|
    ensures ArgsFrom(args, i, a).verbose <==> a.verbose || "--verbose" in args[i..] || "-v" in args[i..]
    decreases |args| - i
  {
    if i < |args| {
      var (j, b) := ArgStep(args, i, a);
      assert b.verbose <==> a.verbose || args[j - 1] == "--verbose" || args[j - 1] == "-v";
      InPass(args, i, a, "--verbose");
      InPass(args, i, a, "-v");
      PassSplit(args, i, a, "--verbose");
      PassSplit(args, i, a, "-v");
      ArgsVerbose(args, j, b);
    }
  }

  /** Without `--limit` from `i` on, the limit is left alone. */
  lemma {:induction false} ArgsLimitUnset(args: seq<string>, i: nat, a: CliArgs)
    requires i <= |args| && "--limit" !in args[i..]
    ensures ArgsFrom(args, i, a).limit == a.limit
    decreases |args| - i
  {
    if i < |args| {
      var (j, b) := ArgStep(args, i, a);
      assert args[i..][0] == args[i];
      assert b.limit == a.limit;
      assert args[j..] == args[i..][j - i..];
      ArgsLimitUnset(args, j, b);
    }
  }

  /** Without `--offset` from `i` on, the offset is left alone. */
  lemma {:induction false} ArgsOffsetUnset(args: seq<string>, i: nat, a: CliArgs)
    requires i <= |args| && "--offset" !in args[i..]
    ensures ArgsFrom(args, i, a).offset == a.offset
    decreases |args| - i
  {
    if i < |args| {
      var (j, b) := ArgStep(args, i, a);
      assert args[i..][0] == args[i];
      if i + 1 < |args| {
        assert args[i..][1] == args[i + 1];
      }
      assert b.offset == a.offset;
      assert args[j..] == args[i..][j - i..];
      ArgsOffsetUnset(args, j, b);
    }
  }

  /**
   * `parseArgs`: the index loop over the arguments; each pass is `ArgStep`,
   * whose index already includes the loop's own `i++`.
   */
  method ParseArgs(args: seq<string>) returns (r: CliArgs)
    ensures r == ArgsFrom(args, 0, DefaultArgs)
    ensures r.dryRun <==> "--dry-run" in args
    ensures r.verbose <==> "--verbose" in args || "-v" in args
    ensures r.limit != 0 && r.limit <= HardLimit
    ensures "--limit" !in args ==> r.limit == DefaultLimit
    ensures "--offset" !in args ==> r.offset == 0
  {
    var cur := DefaultArgs;
    var i := 0;
    while i < |args|
      invariant i <= |args|
      invariant ArgsFrom(args, i, cur) == ArgsFrom(args, 0, DefaultArgs)
      decreases |args| - i
    {
      var (next, updated) := ArgStep(args, i, cur);
      i, cur := next, updated;
    }
    r := cur;
    assert args[0..] == args;
    ArgsLimitInRange(args, 0, DefaultArgs);
    ArgsDryRun(args, 0, DefaultArgs);
    ArgsVerbose(args, 0, DefaultArgs);
    if "--limit" !in args {
      ArgsLimitUnset(args, 0, DefaultArgs);
    }
    if "--offset" !in args {
      ArgsOffsetUnset(args, 0, DefaultArgs);
    }
  }

  /** `--limit v` alone sets the limit from `v`. */
  lemma LimitFlag(v: string)
    requires v != "" && v != "--offset" && v != "--dry-run" && v != "--verbose" && v != "-v"
    ensures ArgsFrom(["--limit", v], 0, DefaultArgs) == DefaultArgs.(limit := LimitValue(v))
  {
    var args := ["--limit", v];
    assert ArgStep(args, 0, DefaultArgs) == (2, DefaultArgs.(limit := LimitValue(v)));
  }

  /** `--offset v` alone sets the offset from `v`. */
  lemma OffsetFlag(v: string)
    requires v != "" && v != "--dry-run" && v != "--verbose" && v != "-v"
    ensures ArgsFrom(["--offset", v], 0, DefaultArgs) == DefaultArgs.(offset := OffsetValue(v))
  {
    var args := ["--offset", v];
    assert ArgStep(args, 0, DefaultArgs) == (2, DefaultArgs.(offset := OffsetValue(v)));
  }

  /** A value flag with nothing after it (or an empty value) changes nothing. */
  lemma DanglingValueFlag(flag: string, rest: seq<string>)
    requires flag == "--limit" || flag == "--offset"
    requires rest == [] || rest == [""]
    ensures ArgsFrom([flag] + rest, 0, DefaultArgs) == DefaultArgs
  {
    var args := [flag] + rest;
    assert ArgStep(args, 0, DefaultArgs) == (1, DefaultArgs);
    if rest == [""] {
      assert ArgStep(args, 1, DefaultArgs) == (2, DefaultArgs);
      assert ArgsFrom(args, 1, DefaultArgs) == ArgsFrom(args, 2, DefaultArgs);
    }
  }

  // ---------------------------------------------------------------------
  // Table cells

  /** `padRight(s, n)`: `s` cut or padded with spaces to `n` characters. */
  function PadRight(s: string, n: int): (r: string)
    ensures 0 <= n ==> |r| == n
    ensures 0 <= n ==> r[..Min(n, |s|)] == s[..Min(n, |s|)]
    ensures forall k :: |s| <= k < |r| ==> r[k] == ' '
  {
    if |s| >= n then JsSlice(s, 0, n) else s + Repeat(' ', n - |s|)
  }
  // ---------------------------------------------------------------------
  // Listings from JSON shapes

  const Unknown: Option<Json> := Some(JString("unknown"))

  /** `record.name || record.title || record.skill_name` */
  function NameAlias(rec: Option<Json>): Option<Json> {
    Or(Or(Get(rec, "name"), Get(rec, "title")), Get(rec, "skill_name"))
  }

  /** `record.owner || record.user || record.author` */
  function OwnerAlias(rec: Option<Json>): Option<Json> {
    Or(Or(Get(rec, "owner"), Get(rec, "user")), Get(rec, "author"))
  }

  /** `record.repo || record.repository` */
  function RepoAlias(rec: Option<Json>): Option<Json> {
    Or(Get(rec, "repo"), Get(rec, "repository"))
  }

  /** `record.id || record.skill_id || name || "unknown"` */
  function IdAlias(rec: Option<Json>): Option<Json> {
    Or(Or(Or(Get(rec, "id"), Get(rec, "skill_id")), NameAlias(rec)), Unknown)
  }

  /** An item is kept when it has a name, or both an owner and a repo. */
  predicate Listable(rec: Option<Json>) {
    Truthy(NameAlias(rec)) || (Truthy(OwnerAlias(rec)) && Truthy(RepoAlias(rec)))
  }

  /** `typeof v === "number" ? v : undefined` */
  function NumberField(v: Option<Json>): (r: InstallCount)
    ensures r.Count? <==> v.Some? && v.value.JNumber?
    ensures r.NotANumber? == false
  {
    match v
    case Some(JNumber(n)) => Count(n)
    case _ => Absent
  }

  /** A text field kept only when truthy (`v || undefined`), as the GitHub discovery writes its description. */
  function TruthyText(v: Option<Json>): (r: Option<string>)
    ensures r.Some? <==> Truthy(v)
    ensures Truthy(v) && v.value.JString? ==> r == Some(v.value.s)
  {
    if Truthy(v) then Some(ToText(v)) else None
  }

  /**
   * A text field kept whenever the value is defined, falsy or not (a plain
   * `v as string | undefined`): an empty text stays an empty text.
   */
  function DefinedText(v: Option<Json>): (r: Option<string>)
    ensures r.Some? <==> v.Some?
    ensures v.Some? && v.value.JString? ==> r == Some(v.value.s)
  {
    if v.Some? then Some(ToText(v)) else None
  }

  /** The listing built from a kept record, its fields as template literals show them. */
  function ApiRecord(rec: Option<Json>): RawSkillListing {
    var name := NameAlias(rec);
    var owner := OwnerAlias(rec);
    var repo := RepoAlias(rec);
    RawSkillListing(
      ToText(Or(name, Unknown)), ToText(Or(owner, Unknown)), ToText(Or(repo, Unknown)), ToText(IdAlias(rec)),
      BaseUrl + "/" + ToText(owner) + "/" + ToText(repo) + "/" + ToText(Or(Get(rec, "id"), name)),
      NumberField(Get(rec, "installs")), DefinedText(Or(Get(rec, "description"), Get(rec, "summary"))))
  }

  /**
   * One item of a candidate array: anything that is not an object is
   * skipped (an array passes `typeof === "object"` but has no such fields).
   */
  function ApiEntry(item: Json): (r: Option<RawSkillListing>)
    ensures r.Some? <==> item.JObject? && Listable(Some(item))
    ensures r.Some? ==> r.value == ApiRecord(Some(item))
  {
    if (item.JObject? || item.JArray?) && Listable(Some(item)) then Some(ApiRecord(Some(item))) else None
  }

  /**
   * The description is the description when truthy, and otherwise the
   * summary as it is, an empty one included; with neither there is none.
   */
  lemma ApiDescription(rec: Option<Json>)
    ensures var d := ApiRecord(rec).listingDescription;
      && (Truthy(Get(rec, "description")) && Get(rec, "description").value.JString?
          ==> d == Some(Get(rec, "description").value.s))
      && (!Truthy(Get(rec, "description")) && Get(rec, "summary").Some? && Get(rec, "summary").value.JString?
          ==> d == Some(Get(rec, "summary").value.s))
      && (!Truthy(Get(rec, "description")) && Get(rec, "summary").None? ==> d.None?)
  {
  }

  /** An item whose only description is an empty summary keeps that empty text. */
  lemma EmptySummaryKept()
    ensures var item := JObject(map["name" := JString("x"), "summary" := JString("")]);
      ApiEntry(item).Some? && ApiEntry(item).value.listingDescription == Some("")
  {
    var item := JObject(map["name" := JString("x"), "summary" := JString("")]);
    assert Get(Some(item), "name") == Some(JString("x"));
    assert Get(Some(item), "description") == None;
  }

  /** The aliases are tried left to right, and a missing one reads as "unknown". */
  lemma AliasPrecedence(rec: Option<Json>)
    ensures var r := ApiRecord(rec);
      (Truthy(Get(rec, "name")) ==> r.name == ToText(Get(rec, "name")))
      && (!Truthy(Get(rec, "name")) && Truthy(Get(rec, "title")) ==> r.name == ToText(Get(rec, "title")))
      && (!Truthy(Get(rec, "name")) && !Truthy(Get(rec, "title")) && Truthy(Get(rec, "skill_name")) ==> r.name == ToText(Get(rec, "skill_name")))
      && (!Truthy(NameAlias(rec)) ==> r.name == "unknown")
    ensures var r := ApiRecord(rec);
      (Truthy(Get(rec, "owner")) ==> r.owner == ToText(Get(rec, "owner")))
      && (!Truthy(Get(rec, "owner")) && Truthy(Get(rec, "user")) ==> r.owner == ToText(Get(rec, "user")))
      && (!Truthy(Get(rec, "owner")) && !Truthy(Get(rec, "user")) && Truthy(Get(rec, "author")) ==> r.owner == ToText(Get(rec, "author")))
      && (!Truthy(OwnerAlias(rec)) ==> r.owner == "unknown")
    ensures var r := ApiRecord(rec);
      (Truthy(Get(rec, "repo")) ==> r.repo == ToText(Get(rec, "repo")))
      && (!Truthy(Get(rec, "repo")) && Truthy(Get(rec, "repository")) ==> r.repo == ToText(Get(rec, "repository")))
      && (!Truthy(RepoAlias(rec)) ==> r.repo == "unknown")
    ensures var r := ApiRecord(rec);
      (Truthy(Get(rec, "id")) ==> r.skillId == ToText(Get(rec, "id")))
      && (!Truthy(Get(rec, "id")) && Truthy(Get(rec, "skill_id")) ==> r.skillId == ToText(Get(rec, "skill_id")))
      && (!Truthy(Get(rec, "id")) && !Truthy(Get(rec, "skill_id")) ==> r.skillId == r.name)
  {
  }

  /** The values tried in order: four common fields, then the value itself when it is an array. */
  function CandidateValues(data: Json): (r: seq<Option<Json>>)
    ensures |r| == 5
  {
    var d := Some(data);
    [Get(d, "skills"), Get(d, "data"), Get(d, "items"), Get(d, "results"), if data.JArray? then d else None]
  }

  /** The entries a candidate yields: its kept items when it is an array, else none. */
  function CandidateEntries(c: Option<Json>): seq<RawSkillListing> {
    if c.Some? && c.value.JArray? then FilterMap(c.value.items, ApiEntry) else []
  }

  /** The entries of the first candidate that yields any. */
  function FirstEntries(cs: seq<Option<Json>>): seq<RawSkillListing>
    decreases |cs|
  {
    if |cs| == 0 then []
    else if |CandidateEntries(cs[0])| > 0 then CandidateEntries(cs[0])
    else FirstEntries(cs[1..])
  }

  /** What `extractSkillsFromApiResponse` returns: nothing for a value that is not an object. */
  function ApiEntries(data: Option<Json>): seq<RawSkillListing> {
    if data.Some? && (data.value.JObject? || data.value.JArray?) then FirstEntries(CandidateValues(data.value)) else []
  }

  /** No entries at all iff no candidate yields any. */
  lemma {:induction false} FirstEntriesNone(cs: seq<Option<Json>>)
    ensures FirstEntries(cs) == [] <==> forall c :: 0 <= c < |cs| ==> CandidateEntries(cs[c]) == []
    decreases |cs|
  {
    if |cs| > 0 && CandidateEntries(cs[0]) == [] {
      FirstEntriesNone(cs[1..]);
      forall c | 1 <= c < |cs|
        ensures CandidateEntries(cs[c]) == CandidateEntries(cs[1..][c - 1])
      {
      }
    }
  }

  /** The first candidate with entries is taken whole, and the ones before it have none. */
  lemma {:induction false} FirstEntriesWitness(cs: seq<Option<Json>>)
    requires FirstEntries(cs) != []
    ensures exists c :: 0 <= c < |cs| && FirstEntries(cs) == CandidateEntries(cs[c])
                        && forall d :: 0 <= d < c ==> CandidateEntries(cs[d]) == []
    decreases |cs|
  {
    if CandidateEntries(cs[0]) != [] {
      assert FirstEntries(cs) == CandidateEntries(cs[0]);
    } else {
      var rest := cs[1..];
      FirstEntriesWitness(rest);
      var c :| 0 <= c < |rest| && FirstEntries(rest) == CandidateEntries(rest[c])
               && forall d :: 0 <= d < c ==> CandidateEntries(rest[d]) == [];
      forall d | 0 <= d < c + 1
        ensures CandidateEntries(cs[d]) == []
      {
        if d > 0 {
          assert cs[d] == rest[d - 1];
        }
      }
      assert cs[c + 1] == rest[c];
      assert FirstEntries(cs) == CandidateEntries(cs[c + 1]);
    }
  }

  /** Every entry extracted is the record of an object item of one of the candidate arrays. */
  lemma ApiEntriesFromItems(data: Json, e: RawSkillListing)
    requires data.JObject? || data.JArray?
    requires e in ApiEntries(Some(data))
    ensures exists c, i :: 0 <= c < 5 && CandidateValues(data)[c].Some? && CandidateValues(data)[c].value.JArray?
              && 0 <= i < |CandidateValues(data)[c].value.items|
              && var item := CandidateValues(data)[c].value.items[i];
                 item.JObject? && Listable(Some(item)) && e == ApiRecord(Some(item))
  {
    var cs := CandidateValues(data);
    FirstEntriesNone(cs);
    FirstEntriesWitness(cs);
    var c :| 0 <= c < |cs| && FirstEntries(cs) == CandidateEntries(cs[c]);
    FilterMapMembers(cs[c].value.items, ApiEntry, e);
  }

  /** A record with only an owner and a repo is kept, named "unknown", with an id-less URL. */
  lemma OwnerRepoOnly(o: string, r: string)
    requires o != "" && r != ""
    ensures var item := JObject(map["owner" := JString(o), "repo" := JString(r)]);
      ApiEntry(item) == Some(RawSkillListing("unknown", o, r, "unknown", BaseUrl + "/" + o + "/" + r + "/undefined", Absent, None))
  {
    var rec := Some(JObject(map["owner" := JString(o), "repo" := JString(r)]));
    assert "/" + "undefined" == "/undefined";
    assert Get(rec, "owner") == Some(JString(o));
    assert Get(rec, "repo") == Some(JString(r));
    assert Get(rec, "name") == None && Get(rec, "title") == None && Get(rec, "skill_name") == None;
    assert Get(rec, "id") == None && Get(rec, "skill_id") == None && Get(rec, "installs") == None;
    assert Get(rec, "description") == None && Get(rec, "summary") == None;
    assert ToText(Or(Get(rec, "id"), NameAlias(rec))) == "undefined";
    Regroup4(BaseUrl + "/" + o, "/" + r, "/", "undefined");
    var e := ApiRecord(rec);
    assert e.name == "unknown";
    assert e.owner == o;
    assert e.repo == r;
    assert e.skillId == "unknown";
    assert e.url == BaseUrl + "/" + o + "/" + r + "/undefined";
    assert e.installs == Absent;
    assert e.listingDescription == None;
    assert Listable(rec);
  }

  /** The inner loop of `extractSkillsFromApiResponse` over the items of one array candidate. */
  method CollectApiEntries(items: seq<Json>) returns (entries: seq<RawSkillListing>)
    ensures entries == FilterMap(items, ApiEntry)
  {
    entries := Collect(items, ApiEntry);
  }

  /**
   * The loop of `extractSkillsFromApiResponse`: over the candidates, and over
   * each array candidate's items, stopping after the first candidate that
   * yielded entries.
   */
  method ExtractSkillsFromApiResponse(data: Option<Json>) returns (skills: seq<RawSkillListing>)
    ensures skills == ApiEntries(data)
  {
    skills := [];
    if !(data.Some? && (data.value.JObject? || data.value.JArray?)) {
      return;
    }
    var candidates := CandidateValues(data.value);
    var c := 0;
    while c < |candidates|
      invariant c <= |candidates|
      invariant skills == []
      invariant FirstEntries(candidates[c..]) == ApiEntries(data)
      decreases |candidates| - c
    {
      var candidate := candidates[c];
      if candidate.Some? && candidate.value.JArray? {
        skills := CollectApiEntries(candidate.value.items);
        if |skills| > 0 {
          return;
        }
      }
      assert candidates[c..][1..] == candidates[c + 1..];
      c := c + 1;
    }
  }
  // ---------------------------------------------------------------------
  // Listings from the page

  /** What the site analysis hands on: the skill links of the main page and any embedded page data. */
  datatype SiteAnalysis = SiteAnalysis(skillLinks: seq<Link>, embeddedData: Option<Json>)

  /** Strategy 1: the embedded data as a listing response, then its `props.pageProps`. */
  function EmbeddedSkills(embedded: Option<Json>): seq<RawSkillListing> {
    if !Truthy(embedded) then []
    else
      var pageProps := Get(Get(embedded, "props"), "pageProps");
      ApiEntries(embedded) + (if Truthy(pageProps) then ApiEntries(pageProps) else [])
  }

  /** The install count of a main-page link: `undefined` without a `<number>K` suffix. */
  function LinkInstalls(text: string): (r: InstallCount)
    ensures KSuffix(text).None? ==> r == Absent
    ensures KSuffix(text).Some? ==> r == InstallsOf(text)
  {
    if KSuffix(text).None? then Absent else InstallsOf(text)
  }

  /**
   * Strategy 2, one main-page link: three or more segments give owner, repo
   * and the rest as skill id; two give owner and repo with the repo as skill
   * id and no installs; fewer give nothing.
   */
  function ScriptListingOf(link: Link): (r: Option<RawSkillListing>)
    ensures r.Some? <==> |Segments(link.href, '/')| >= 2
    ensures r.Some? ==> r.value.url == BaseUrl + link.href && r.value.name == r.value.skillId
                        && r.value.listingDescription.None?
    ensures |Segments(link.href, '/')| == 2 ==> r.Some? && r.value.installs == Absent
    ensures |Segments(link.href, '/')| >= 3 && KSuffix(link.text).None? ==> r.Some? && r.value.installs == Absent
  {
    var parts := Segments(link.href, '/');
    if |parts| >= 3 then
      var skillId := Join(parts[2..], "/");
      Some(RawSkillListing(skillId, parts[0], parts[1], skillId, BaseUrl + link.href, LinkInstalls(link.text), None))
    else if |parts| == 2 then
      Some(RawSkillListing(parts[1], parts[0], parts[1], parts[1], BaseUrl + link.href, Absent, None))
    else None
  }

  /**
   * Strategy 3, one anchor of a browse page: a candidate href gives owner
   * and repo, the last segment as name (segments are never empty, so the
   * `|| text` never applies), the third segment or else the repo as skill
   * id, and the trimmed text as description when there is one.
   */
  function BrowseEntry(a: Anchor): (r: Option<RawSkillListing>)
    ensures r.Some? <==> IsBrowseCandidate(a.href)
    ensures r.Some? ==>
      var parts := Segments(a.href, '/');
      r.value.owner == parts[0] && r.value.repo == parts[1]
      && r.value.name == parts[|parts| - 1]
      && r.value.skillId == (if |parts| >= 3 then parts[2] else parts[1])
      && r.value.url == BaseUrl + a.href && r.value.installs == Absent
      && (r.value.listingDescription.Some? <==> Trim(a.text) != "")
  {
    var text := Trim(a.text);
    var parts := Segments(a.href, '/');
    if IsBrowseCandidate(a.href) then
      Some(RawSkillListing(parts[|parts| - 1], parts[0], parts[1], if |parts| >= 3 then parts[2] else parts[1],
                           BaseUrl + a.href, Absent, if text != "" then Some(text) else None))
    else None
  }

  /** The listings of one browse page; a failed page gives none. */
  function BrowseEntries(o: HttpOutcome, anchors: string -> seq<Anchor>): seq<RawSkillListing> {
    if IsOk(o) then FilterMap(anchors(o.body), BrowseEntry) else []
  }

  /**
   * The browse loop from path `i` on: the first page with listings ends it;
   * every other page, failed, thrown or empty, is followed by a 500 ms wait.
   */
  function ScriptBrowseFrom(i: nat, fetch: string -> HttpOutcome, anchors: string -> seq<Anchor>)
    : (r: (seq<RawSkillListing>, seq<nat>))
    requires i <= |BrowsePaths|
    ensures forall k :: 0 <= k < |r.1| ==> r.1[k] == BrowseDelay
    ensures |r.1| <= |BrowsePaths| - i
    decreases |BrowsePaths| - i
  {
    if i == |BrowsePaths| then ([], [])
    else
      var found := BrowseEntries(fetch(BaseUrl + BrowsePaths[i]), anchors);
      if |found| > 0 then (found, [])
      else
        var rest := ScriptBrowseFrom(i + 1, fetch, anchors);
        (rest.0, [BrowseDelay] + rest.1)
  }

  /** The strategies in order: embedded data, then main-page links, then browse pages. */
  function HtmlCandidates(analysis: SiteAnalysis, fetch: string -> HttpOutcome, anchors: string -> seq<Anchor>)
    : (seq<RawSkillListing>, seq<nat>)
  {
    var embedded := EmbeddedSkills(analysis.embeddedData);
    var linked := if |embedded| == 0 && |analysis.skillLinks| > 0 then FilterMap(analysis.skillLinks, ScriptListingOf) else embedded;
    if |linked| == 0 then ScriptBrowseFrom(0, fetch, anchors) else (linked, [])
  }

  /** What `extractSkillsFromHtml` returns, with the waits it makes: first of each key, cut to `limit`. */
  function HtmlSkills(analysis: SiteAnalysis, limit: int, fetch: string -> HttpOutcome, anchors: string -> seq<Anchor>)
    : (seq<RawSkillListing>, seq<nat>)
  {
    var c := HtmlCandidates(analysis, fetch, anchors);
    (JsSlice(Dedup(c.0, Key), 0, limit), c.1)
  }

  /** The extracted listings have distinct keys, are the first of each key in order, and are at most `limit`. */
  lemma HtmlSkillsShape(analysis: SiteAnalysis, limit: int, fetch: string -> HttpOutcome, anchors: string -> seq<Anchor>)
    ensures var r := HtmlSkills(analysis, limit, fetch, anchors).0;
      var unique := Dedup(HtmlCandidates(analysis, fetch, anchors).0, Key);
      (forall i, j :: 0 <= i < j < |r| ==> Key(r[i]) != Key(r[j]))
      && r == unique[..|r|]
      && (0 <= limit ==> |r| == Min(limit, |unique|))
  {
    var unique := Dedup(HtmlCandidates(analysis, fetch, anchors).0, Key);
    DedupDistinct(HtmlCandidates(analysis, fetch, anchors).0, Key);
    var r := HtmlSkills(analysis, limit, fetch, anchors).0;
    assert r == unique[..|r|];
    forall i, j | 0 <= i < j < |r| ensures Key(r[i]) != Key(r[j]) {
      assert r[i] == unique[i] && r[j] == unique[j];
    }
  }
  /** Strategy 2's loop over the main-page links. */
  method ScriptParseLinks(links: seq<Link>) returns (skills: seq<RawSkillListing>)
    ensures skills == FilterMap(links, ScriptListingOf)
  {
    skills := [];
    for i := 0 to |links|
      invariant skills == FilterMap(links[..i], ScriptListingOf)
    {
      FilterMapSnoc(links[..i], links[i], ScriptListingOf);
      assert links[..i + 1] == links[..i] + [links[i]];
      var parts := Segments(links[i].href, '/');
      if |parts| >= 3 {
        var skillId := Join(parts[2..], "/");
        var installs := if KSuffix(links[i].text).Some? then InstallsOf(links[i].text) else Absent;
        skills := skills + [RawSkillListing(skillId, parts[0], parts[1], skillId, BaseUrl + links[i].href, installs, None)];
      } else if |parts| == 2 {
        skills := skills + [RawSkillListing(parts[1], parts[0], parts[1], parts[1], BaseUrl + links[i].href, Absent, None)];
      }
    }
    assert links[..|links|] == links;
  }

  /** The `$("a[href]").each(...)` loop over one browse page. */
  method CollectBrowseEntries(page: seq<Anchor>) returns (entries: seq<RawSkillListing>)
    ensures entries == FilterMap(page, BrowseEntry)
  {
    entries := [];
    for i := 0 to |page|
      invariant entries == FilterMap(page[..i], BrowseEntry)
    {
      FilterMapSnoc(page[..i], page[i], BrowseEntry);
      assert page[..i + 1] == page[..i] + [page[i]];
      var e := BrowseEntry(page[i]);
      if e.Some? {
        entries := entries + [e.value];
      }
    }
    assert page[..|page|] == page;
  }

  /** Strategy 3's loop over the browse paths, with its `break` and its waits. */
  method ScriptBrowse(fetch: string -> HttpOutcome, anchors: string -> seq<Anchor>)
    returns (skills: seq<RawSkillListing>, ghost sleeps: seq<nat>)
    ensures (skills, sleeps) == ScriptBrowseFrom(0, fetch, anchors)
  {
    skills, sleeps := [], [];
    ghost var all := ScriptBrowseFrom(0, fetch, anchors);
    assert all.1 == sleeps + all.1;
    var i := 0;
    while i < |BrowsePaths|
      invariant i <= |BrowsePaths|
      invariant skills == []
      invariant all.0 == ScriptBrowseFrom(i, fetch, anchors).0
      invariant all.1 == sleeps + ScriptBrowseFrom(i, fetch, anchors).1
      decreases |BrowsePaths| - i
    {
      var response := fetch(BaseUrl + BrowsePaths[i]);
      if IsOk(response) {
        skills := CollectBrowseEntries(anchors(response.body));
        if |skills| > 0 {
          BrowseHit(i, fetch, anchors, sleeps);
          return;
        }
      }
      BrowseStep(i, fetch, anchors, sleeps);
      sleeps := sleeps + [BrowseDelay];
      i := i + 1;
    }
    assert sleeps + [] == sleeps;
  }

  /** A browse page with listings ends the loop with no further wait. */
  lemma BrowseHit(i: nat, fetch: string -> HttpOutcome, anchors: string -> seq<Anchor>, done: seq<nat>)
    requires i < |BrowsePaths| && |BrowseEntries(fetch(BaseUrl + BrowsePaths[i]), anchors)| > 0
    ensures ScriptBrowseFrom(i, fetch, anchors) == (BrowseEntries(fetch(BaseUrl + BrowsePaths[i]), anchors), [])
    ensures done + ScriptBrowseFrom(i, fetch, anchors).1 == done
  {
    assert done + [] == done;
  }

  /** A browse page without listings is followed by a wait and the next page. */
  lemma BrowseStep(i: nat, fetch: string -> HttpOutcome, anchors: string -> seq<Anchor>, done: seq<nat>)
    requires i < |BrowsePaths| && |BrowseEntries(fetch(BaseUrl + BrowsePaths[i]), anchors)| == 0
    ensures ScriptBrowseFrom(i, fetch, anchors).0 == ScriptBrowseFrom(i + 1, fetch, anchors).0
    ensures done + ScriptBrowseFrom(i, fetch, anchors).1 == (done + [BrowseDelay]) + ScriptBrowseFrom(i + 1, fetch, anchors).1
  {
    assert ScriptBrowseFrom(i, fetch, anchors).1 == [BrowseDelay] + ScriptBrowseFrom(i + 1, fetch, anchors).1;
  }

  /** Strategy 1: the embedded data and its `props.pageProps`, each read as a listing response. */
  method FromEmbedded(embeddedData: Option<Json>) returns (skills: seq<RawSkillListing>)
    ensures skills == EmbeddedSkills(embeddedData)
  {
    if !Truthy(embeddedData) {
      return [];
    }
    var embedded := ExtractSkillsFromApiResponse(embeddedData);
    var pageProps := Get(Get(embeddedData, "props"), "pageProps");
    if Truthy(pageProps) {
      var fromPage := ExtractSkillsFromApiResponse(pageProps);
      skills := embedded + fromPage;
    } else {
      skills := embedded;
      assert embedded + [] == embedded;
    }
  }

  /** The three strategies of `extractSkillsFromHtml`, each tried while nothing was found. */
  method HtmlStrategies(analysis: SiteAnalysis, fetch: string -> HttpOutcome, anchors: string -> seq<Anchor>)
    returns (skills: seq<RawSkillListing>, ghost sleeps: seq<nat>)
    ensures (skills, sleeps) == HtmlCandidates(analysis, fetch, anchors)
  {
    sleeps := [];
    skills := FromEmbedded(analysis.embeddedData);
    if |skills| == 0 && |analysis.skillLinks| > 0 {
      skills := ScriptParseLinks(analysis.skillLinks);
    }
    if |skills| == 0 {
      skills, sleeps := ScriptBrowse(fetch, anchors);
    }
  }

  /** `extractSkillsFromHtml`: the three strategies, then the `seen`-set filter and the cut to `limit`. */
  method ExtractSkillsFromHtml(analysis: SiteAnalysis, limit: int, fetch: string -> HttpOutcome, anchors: string -> seq<Anchor>)
    returns (skills: seq<RawSkillListing>, ghost sleeps: seq<nat>)
    ensures (skills, sleeps) == HtmlSkills(analysis, limit, fetch, anchors)
  {
    var all;
    all, sleeps := HtmlStrategies(analysis, fetch, anchors);
    var unique := DedupByKey(all, Key);
    skills := JsSlice(unique, 0, limit);
  }

  // ---------------------------------------------------------------------
  // SKILL.md lookup with the code-search fallback

  /** The code-search query for a SKILL.md under `skillId` in `owner/repo`. */
  function SearchUrl(owner: string, repo: string, skillId: string): string {
    "https://api.github.com/search/code?q=filename:SKILL.md+repo:" + owner + "/" + repo + "+path:" + skillId
  }

  /**
   * `data.items[0].path` behind the `data.items && data.items.length > 0`
   * guard. `None` when the guard fails or the access throws (a `null` body
   * or a `null` first item); a non-empty string as `items` has a first
   * character without a `path`, which reads as `undefined`.
   */
  function SearchPath(data: Json): (r: Option<string>)
    ensures r.Some? ==> data.JObject? && "items" in data.fields
    ensures data.JObject? && "items" in data.fields && data.fields["items"].JArray?
            && |data.fields["items"].items| > 0 && !data.fields["items"].items[0].JNull?
            ==> r == Some(ToText(Get(Some(data.fields["items"].items[0]), "path")))
  {
    if data.JNull? then None
    else
      match Get(Some(data), "items")
      case None => None
      case Some(items) =>
        if items.JArray? then
          if |items.items| == 0 || items.items[0].JNull? then None
          else Some(ToText(Get(Some(items.items[0]), "path")))
        else if items.JString? && |items.s| > 0 then Some("undefined")
        else None
  }

  /**
   * The branch loop over the path the search found, from branch `b` on: a
   * thrown fetch ends the whole fallback, a 2xx response is the result, any
   * other response moves to the next branch.
   */
  function SearchBranches(owner: string, repo: string, path: string, fetch: string -> HttpOutcome,
                          yaml: string -> YamlOutcome, b: nat): (r: Option<SkillMdResult>)
    requires b <= |Branches|
    ensures r.Some? ==> r.value.path == path
    ensures r.Some? ==>
      exists k :: b <= k < |Branches| && r.value.branch == Branches[k]
        && IsOk(fetch(RawUrl(owner, repo, (Branches[k], path))))
        && r.value.frontmatter == ParseSkillFrontmatter(fetch(RawUrl(owner, repo, (Branches[k], path))).body, yaml)
        && forall l :: b <= l < k ==> fetch(RawUrl(owner, repo, (Branches[l], path))).Response?
                                      && !IsOk(fetch(RawUrl(owner, repo, (Branches[l], path))))
    decreases |Branches| - b
  {
    if b == |Branches| then None
    else
      var o := fetch(RawUrl(owner, repo, (Branches[b], path)));
      if o.NetworkError? then None
      else if IsOk(o) then Some(SkillMdResult(ParseSkillFrontmatter(o.body, yaml), Branches[b], path))
      else SearchBranches(owner, repo, path, fetch, yaml, b + 1)
  }

  /** The last resort of `fetchSkillMd`: one code search, then the branches for its first path. */
  function SearchFallback(owner: string, repo: string, skillId: string, fetch: string -> HttpOutcome,
                          yaml: string -> YamlOutcome, json: string -> Option<Json>): Option<SkillMdResult>
  {
    var o := fetch(SearchUrl(owner, repo, skillId));
    if !IsOk(o) then None
    else
      match json(o.body)
      case None => None
      case Some(data) =>
        match SearchPath(data)
        case None => None
        case Some(path) => SearchBranches(owner, repo, path, fetch, yaml, 0)
  }

  /** What `fetchSkillMd` returns: the probe of the library's crawler, then the fallback for a non-empty skill id. */
  function FetchSkillMdSpec(owner: string, repo: string, skillId: string, fetch: string -> HttpOutcome,
                            yaml: string -> YamlOutcome, json: string -> Option<Json>): Option<SkillMdResult>
  {
    var found := LocateIn(owner, repo, CandidatePaths(owner, repo, skillId), fetch, yaml);
    if found.Some? || skillId == "" then found else SearchFallback(owner, repo, skillId, fetch, yaml, json)
  }

  /**
   * The probe is the library's: same paths, same branch-major order. Its
   * answer is kept whenever it found something, and the fallback is
   * consulted only with a non-empty skill id after every probe failed;
   * a fallback hit carries the path the search reported.
   */
  lemma FallbackAfterProbes(owner: string, repo: string, skillId: string, fetch: string -> HttpOutcome,
                            yaml: string -> YamlOutcome, json: string -> Option<Json>)
    ensures var listing := RawSkillListing(skillId, owner, repo, skillId, "", Absent, None);
      var r := FetchSkillMdSpec(owner, repo, skillId, fetch, yaml, json);
      (Locate(listing, fetch, yaml).Some? || skillId == "" ==> r == Locate(listing, fetch, yaml))
      && (r != Locate(listing, fetch, yaml) ==>
            skillId != ""
            && (forall k :: 0 <= k < |Probes(CandidatePaths(owner, repo, skillId))| ==>
                  !IsOk(fetch(RawUrl(owner, repo, Probes(CandidatePaths(owner, repo, skillId))[k]))))
            && r == SearchFallback(owner, repo, skillId, fetch, yaml, json))
    ensures var r := FetchSkillMdSpec(owner, repo, skillId, fetch, yaml, json);
      var o := fetch(SearchUrl(owner, repo, skillId));
      r.Some? && r != LocateIn(owner, repo, CandidatePaths(owner, repo, skillId), fetch, yaml) ==>
        IsOk(o) && json(o.body).Some? && SearchPath(json(o.body).value) == Some(r.value.path)
        && r.value.branch in Branches
  {
    var listing := RawSkillListing(skillId, owner, repo, skillId, "", Absent, None);
    LocateOutcome(listing, fetch, yaml);
  }

  /** The fallback's branch loop, with its early returns. */
  method TryFoundPath(owner: string, repo: string, path: string, fetch: string -> HttpOutcome, yaml: string -> YamlOutcome)
    returns (r: Option<SkillMdResult>)
    ensures r == SearchBranches(owner, repo, path, fetch, yaml, 0)
  {
    var b := 0;
    while b < |Branches|
      invariant b <= |Branches|
      invariant SearchBranches(owner, repo, path, fetch, yaml, b) == SearchBranches(owner, repo, path, fetch, yaml, 0)
      decreases |Branches| - b
    {
      var raw := fetch(RawUrl(owner, repo, (Branches[b], path)));
      if raw.NetworkError? {
        return None;
      }
      if IsOk(raw) {
        var frontmatter := ParseSkillFrontmatter(raw.body, yaml);
        return Some(SkillMdResult(frontmatter, Branches[b], path));
      }
      b := b + 1;
    }
    r := None;
  }

  /** The code-search request of `fetchSkillMd`'s fallback. */
  method SearchForSkillMd(owner: string, repo: string, skillId: string, fetch: string -> HttpOutcome,
                          yaml: string -> YamlOutcome, json: string -> Option<Json>)
    returns (r: Option<SkillMdResult>)
    ensures r == SearchFallback(owner, repo, skillId, fetch, yaml, json)
  {
    var response := fetch(SearchUrl(owner, repo, skillId));
    if !IsOk(response) {
      return None;
    }
    var data := json(response.body);
    if data.None? {
      return None;
    }
    var foundPath := SearchPath(data.value);
    if foundPath.None? {
      return None;
    }
    r := TryFoundPath(owner, repo, foundPath.value, fetch, yaml);
  }

  /** `fetchSkillMd`: the candidate paths on both branches, then at most one code search. */
  method FetchSkillMd(owner: string, repo: string, skillId: string, fetch: string -> HttpOutcome,
                      yaml: string -> YamlOutcome, json: string -> Option<Json>)
    returns (r: Option<SkillMdResult>)
    ensures r == FetchSkillMdSpec(owner, repo, skillId, fetch, yaml, json)
  {
    var filePaths := BuildFilePaths(owner, repo, skillId);
    r := ProbePaths(owner, repo, filePaths, fetch, yaml);
    if r.None? && skillId != "" {
      r := SearchForSkillMd(owner, repo, skillId, fetch, yaml, json);
    }
  }

  // ---------------------------------------------------------------------
  // The fallback list and the code-search discovery

  /** The known skills of `fetchFallbackSkills`: the library's list and five more. */
  const KnownFallbackSkills: seq<RawSkillListing> := KnownPopularSkills + [
    Popular("obra", "superpowers", "executing-plans", 5900),
    Popular("obra", "superpowers", "requesting-code-review", 5300),
    Popular("obra", "superpowers", "using-superpowers", 4800),
    Popular("obra", "superpowers", "verification-before-completion", 4800),
    Popular("obra", "superpowers", "using-git-worktrees", 4700)
  ]

  /** The code search of `discoverViaGitHub`, asking for at most 30 results. */
  function GitHubSearchUrl(limit: int): string {
    "https://api.github.com/search/code?q=filename:SKILL.md+path:/&per_page=" + IntToString(Min(limit, 30))
  }

  /** `undefined` or `null`: reading a property of it throws. */
  predicate Nullish(v: Option<Json>) {
    v.None? || v.value.JNull?
  }

  /** The skill name of a search hit: the parent directory of its path, or the repo at the root. */
  function DiscoveredName(path: string, repo: string): string {
    var parts := Split(path, '/');
    if |parts| > 1 then parts[|parts| - 2] else repo
  }

  /**
   * One search hit, or `None` where reading it throws: a nullish
   * `repository` or `repository.owner`, or a `path` without `split`.
   */
  function DiscoveredEntry(item: Json): (r: Option<RawSkillListing>)
    ensures r.Some? <==> !Nullish(Get(Some(item), "repository")) && !Nullish(Get(Get(Some(item), "repository"), "owner"))
                         && Get(Some(item), "path").Some? && Get(Some(item), "path").value.JString?
    ensures r.Some? ==> r.value.name == r.value.skillId && r.value.installs == Absent
                        && r.value.url == BaseUrl + "/" + r.value.owner + "/" + r.value.repo + "/" + r.value.name
  {
    var repository := Get(Some(item), "repository");
    var ownerObj := Get(repository, "owner");
    var path := Get(Some(item), "path");
    if Nullish(repository) || Nullish(ownerObj) || !(path.Some? && path.value.JString?) then None
    else
      var owner := ToText(Get(ownerObj, "login"));
      var repo := ToText(Get(repository, "name"));
      var name := DiscoveredName(path.value.s, repo);
      Some(RawSkillListing(name, owner, repo, name, BaseUrl + "/" + owner + "/" + repo + "/" + name, Absent,
                           TruthyText(Get(repository, "description"))))
  }

  /** The hits pushed before the first one whose reading throws; the `catch` keeps what was pushed. */
  function DiscoveredPrefix(items: seq<Json>): (r: seq<RawSkillListing>)
    ensures |r| <= |items|
    ensures forall k :: 0 <= k < |r| ==> DiscoveredEntry(items[k]) == Some(r[k])
    ensures |r| < |items| ==> DiscoveredEntry(items[|r|]).None?
  {
    MapWhile(items, DiscoveredEntry)
  }

  /** What `discoverViaGitHub` returns: nothing unless the search answered with an `items` array. */
  function Discover(limit: int, fetch: string -> HttpOutcome, json: string -> Option<Json>): seq<RawSkillListing> {
    var o := fetch(GitHubSearchUrl(limit));
    if !IsOk(o) then []
    else
      match json(o.body)
      case None => []
      case Some(data) =>
        var items := Get(Some(data), "items");
        if items.Some? && items.value.JArray? then DiscoveredPrefix(items.value.items) else []
  }

  /** A hit at `dir/file` is named after the last directory of `dir`, and a hit at the root after its repo. */
  lemma DiscoveredNameOf(pre: string, dir: string, file: string, repo: string)
    requires '/' !in dir && '/' !in file
    ensures DiscoveredName(file, repo) == repo
    ensures DiscoveredName(dir + "/" + file, repo) == dir
    ensures DiscoveredName(pre + "/" + dir + "/" + file, repo) == dir
  {
    SplitSingle(file, '/');
    SplitSnoc(dir, '/', file);
    SplitSingle(dir, '/');
    assert dir + "/" + file == dir + ['/'] + file;
    var p := pre + "/" + dir;
    assert p == pre + ['/'] + dir;
    SplitSnoc(pre, '/', dir);
    assert pre + "/" + dir + "/" + file == p + ['/'] + file;
    SplitSnoc(p, '/', file);
  }

  /** The discovered entries the `seen`-set loop adds, from a set of keys already seen. */
  function Fresh(found: seq<RawSkillListing>, seen: set<string>): (r: seq<RawSkillListing>)
    ensures |r| <= |found|
    decreases |found|
  {
    if |found| == 0 then []
    else if Key(found[0]) in seen then Fresh(found[1..], seen)
    else [found[0]] + Fresh(found[1..], seen + {Key(found[0])})
  }

  /** The merge of `fetchFallbackSkills`: the known list, then each discovered entry whose key is not yet present. */
  function Merged(known: seq<RawSkillListing>, found: seq<RawSkillListing>): seq<RawSkillListing> {
    known + Fresh(found, KeysOf(known, Key))
  }

  /**
   * Every added entry is a discovered one whose key was not seen, and no key
   * is added twice.
   */
  lemma {:induction false} FreshEntries(found: seq<RawSkillListing>, seen: set<string>)
    ensures forall j :: 0 <= j < |Fresh(found, seen)| ==> Fresh(found, seen)[j] in found && Key(Fresh(found, seen)[j]) !in seen
    ensures forall i, j :: 0 <= i < j < |Fresh(found, seen)| ==> Key(Fresh(found, seen)[i]) != Key(Fresh(found, seen)[j])
    decreases |found|
  {
    if |found| > 0 {
      var x := found[0];
      var rest := found[1..];
      var r := Fresh(found, seen);
      if Key(x) in seen {
        FreshEntries(rest, seen);
        assert r == Fresh(rest, seen);
        forall j | 0 <= j < |r| ensures r[j] in found {
          assert r[j] in rest;
        }
      } else {
        var seen' := seen + {Key(x)};
        FreshEntries(rest, seen');
        var t := Fresh(rest, seen');
        assert r == [x] + t;
        forall j | 0 <= j < |r| ensures r[j] in found && Key(r[j]) !in seen {
          if j > 0 {
            assert r[j] == t[j - 1] && t[j - 1] in rest;
          }
        }
        forall i, j | 0 <= i < j < |r| ensures Key(r[i]) != Key(r[j]) {
          assert r[j] == t[j - 1];
          if i > 0 {
            assert r[i] == t[i - 1];
          }
        }
      }
    }
  }

  /** Every discovered key is either already seen or taken by an added entry. */
  lemma {:induction false} FreshCovers(found: seq<RawSkillListing>, seen: set<string>, i: nat)
    requires i < |found|
    ensures Key(found[i]) in seen || exists j :: 0 <= j < |Fresh(found, seen)| && Key(Fresh(found, seen)[j]) == Key(found[i])
    decreases |found|
  {
    var x := found[0];
    var rest := found[1..];
    if Key(found[i]) !in seen {
      if Key(x) in seen {
        assert found[i] == rest[i - 1];
        FreshCovers(rest, seen, i - 1);
        assert Fresh(found, seen) == Fresh(rest, seen);
      } else {
        FreshCoversAdded(found, seen, i);
      }
    }
  }

  /** The case of `FreshCovers` where the first discovered entry is added. */
  lemma {:induction false} FreshCoversAdded(found: seq<RawSkillListing>, seen: set<string>, i: nat)
    requires i < |found| && Key(found[0]) !in seen && Key(found[i]) !in seen
    ensures exists j :: 0 <= j < |Fresh(found, seen)| && Key(Fresh(found, seen)[j]) == Key(found[i])
    decreases |found|, 0
  {
    var seen' := seen + {Key(found[0])};
    var t := Fresh(found[1..], seen');
    assert Fresh(found, seen) == [found[0]] + t;
    if Key(found[i]) == Key(found[0]) {
      assert Fresh(found, seen)[0] == found[0];
    } else {
      assert found[i] == found[1..][i - 1];
      FreshCovers(found[1..], seen', i - 1);
      var j :| 0 <= j < |t| && Key(t[j]) == Key(found[i]);
      assert Fresh(found, seen)[j + 1] == t[j];
    }
  }

  /**
   * The merge keeps the known list in front; every entry after it comes from
   * the discovered list with a key not in the known list, no key is added
   * twice, and every discovered key ends up present.
   */
  lemma MergedShape(known: seq<RawSkillListing>, found: seq<RawSkillListing>)
    ensures var r := Merged(known, found); |known| <= |r| && r[..|known|] == known
    ensures var r := Merged(known, found);
      forall j :: |known| <= j < |r| ==> r[j] in found && Key(r[j]) !in KeysOf(known, Key)
    ensures var r := Merged(known, found);
      forall i, j :: |known| <= i < j < |r| ==> Key(r[i]) != Key(r[j])
    ensures var r := Merged(known, found);
      forall i :: 0 <= i < |found| ==> exists j :: 0 <= j < |r| && Key(r[j]) == Key(found[i])
  {
    var seen := KeysOf(known, Key);
    var tail := Fresh(found, seen);
    var r := Merged(known, found);
    assert r == known + tail;
    FreshEntries(found, seen);
    forall j | |known| <= j < |r| ensures r[j] in found && Key(r[j]) !in seen {
      var k := j - |known|;
      assert r[j] == tail[k];
      assert 0 <= k < |tail|;
    }
    forall i, j | |known| <= i < j < |r| ensures Key(r[i]) != Key(r[j]) {
      var k, l := i - |known|, j - |known|;
      assert r[i] == tail[k] && r[j] == tail[l];
      assert 0 <= k < l < |tail|;
    }
    MergedCovers(known, found);
  }

  /** Every discovered key ends up present in the merge. */
  lemma MergedCovers(known: seq<RawSkillListing>, found: seq<RawSkillListing>)
    ensures var r := Merged(known, found);
      forall i :: 0 <= i < |found| ==> exists j :: 0 <= j < |r| && Key(r[j]) == Key(found[i])
  {
    var seen := KeysOf(known, Key);
    var tail := Fresh(found, seen);
    var r := Merged(known, found);
    assert r == known + tail;
    forall i | 0 <= i < |found| ensures exists j :: 0 <= j < |r| && Key(r[j]) == Key(found[i]) {
      FreshCovers(found, seen, i);
      if Key(found[i]) in seen {
        var k :| 0 <= k < |known| && Key(known[k]) == Key(found[i]);
        assert r[k] == known[k];
      } else {
        var j :| 0 <= j < |tail| && Key(tail[j]) == Key(found[i]);
        assert r[|known| + j] == tail[j];
      }
    }
  }

  /** What `fetchFallbackSkills` returns: the merge cut to `limit`. */
  function FallbackSkills(limit: int, found: seq<RawSkillListing>): seq<RawSkillListing> {
    JsSlice(Merged(KnownFallbackSkills, found), 0, limit)
  }

  /** Up to the known list's length, the fallback is the known list's prefix whatever was discovered. */
  lemma FallbackKnownFirst(limit: int, found: seq<RawSkillListing>)
    requires 0 <= limit <= |KnownFallbackSkills|
    ensures FallbackSkills(limit, found) == KnownFallbackSkills[..limit]
  {
    var m := Merged(KnownFallbackSkills, found);
    assert m[..limit] == KnownFallbackSkills[..limit];
  }

  /** The loop of `discoverViaGitHub` over `data.items`, left at the first hit that throws. */
  method CollectDiscovered(items: seq<Json>) returns (skills: seq<RawSkillListing>)
    ensures skills == DiscoveredPrefix(items)
  {
    skills := CollectWhile(items, DiscoveredEntry);
  }

  /** `discoverViaGitHub`: one code search; every failure leaves the list as it is. */
  method DiscoverViaGitHub(limit: int, fetch: string -> HttpOutcome, json: string -> Option<Json>)
    returns (skills: seq<RawSkillListing>)
    ensures skills == Discover(limit, fetch, json)
  {
    skills := [];
    var response := fetch(GitHubSearchUrl(limit));
    if !IsOk(response) {
      return;
    }
    var data := json(response.body);
    if data.None? {
      return;
    }
    var items := Get(data, "items");
    if items.Some? && items.value.JArray? {
      skills := CollectDiscovered(items.value.items);
    }
  }

  /** The merge loop of `fetchFallbackSkills` with its `seen` set. */
  method MergeDiscovered(known: seq<RawSkillListing>, found: seq<RawSkillListing>) returns (merged: seq<RawSkillListing>)
    ensures merged == Merged(known, found)
  {
    var seen := KeysOf(known, Key);
    merged := known;
    for i := 0 to |found|
      invariant merged + Fresh(found[i..], seen) == Merged(known, found)
    {
      assert found[i..][1..] == found[i + 1..];
      var key := Key(found[i]);
      if key !in seen {
        merged := merged + [found[i]];
        seen := seen + {key};
      }
    }
  }

  /** `fetchFallbackSkills`: the known list merged with the discoveries, cut to `limit`. */
  method FetchFallbackSkills(limit: int, fetch: string -> HttpOutcome, json: string -> Option<Json>)
    returns (skills: seq<RawSkillListing>)
    ensures skills == FallbackSkills(limit, Discover(limit, fetch, json))
  {
    var found := DiscoverViaGitHub(limit, fetch, json);
    var merged := KnownFallbackSkills;
    if |found| > 0 {
      merged := MergeDiscovered(KnownFallbackSkills, found);
    } else {
      assert KnownFallbackSkills + [] == KnownFallbackSkills;
    }
    skills := JsSlice(merged, 0, limit);
  }

  // ---------------------------------------------------------------------
  // The crawl

  datatype CrawlResult = CrawlResult(totalFound: nat, totalCrawled: nat, successful: nat, failed: nat,
                                     skills: seq<CrawledSkill>)

  /**
   * The listings `crawl` selects before its fallback, with the waits of the
   * HTML strategies: the API discovery is used only when the page had no
   * skill links, and either list is cut to `[offset, offset + limit)`.
   */
  function SelectedSkills(args: CliArgs, analysis: SiteAnalysis, discovered: seq<RawSkillListing>,
                          fetch: string -> HttpOutcome, anchors: string -> seq<Anchor>)
    : (seq<RawSkillListing>, seq<nat>)
  {
    var api := if |analysis.skillLinks| == 0 then discovered else [];
    if |api| == 0 then
      var html := HtmlSkills(analysis, args.offset + args.limit, fetch, anchors);
      (JsSlice(html.0, args.offset, args.offset + args.limit), html.1)
    else (JsSlice(api, args.offset, args.offset + args.limit), [])
  }

  /** The listings `crawl` goes on to fetch: the selection, or else the fallback list. */
  function CrawlList(args: CliArgs, analysis: SiteAnalysis, discovered: seq<RawSkillListing>,
                     fetch: string -> HttpOutcome, anchors: string -> seq<Anchor>, json: string -> Option<Json>)
    : (seq<RawSkillListing>, seq<nat>)
  {
    var selected := SelectedSkills(args, analysis, discovered, fetch, anchors);
    if |selected.0| == 0 then (FallbackSkills(args.limit, Discover(args.limit, fetch, json)), selected.1)
    else selected
  }

  /** The record `crawl` pushes for one listing. */
  function CrawlRecord(skill: RawSkillListing, fetch: string -> HttpOutcome, yaml: string -> YamlOutcome,
                       json: string -> Option<Json>): CrawledSkill {
    CrawledOf(skill, FetchSkillMdSpec(skill.owner, skill.repo, skill.skillId, fetch, yaml, json))
  }

  /** How many records found their SKILL.md. */
  function FoundCount(rs: seq<CrawledSkill>): (n: nat)
    ensures n <= |rs|
  {
    if |rs| == 0 then 0 else FoundCount(rs[..|rs| - 1]) + (if rs[|rs| - 1].skillMdFound then 1 else 0)
  }

  /** The records of the fetch loop, one per listing in order. */
  function CrawlRecords(list: seq<RawSkillListing>, fetch: string -> HttpOutcome, yaml: string -> YamlOutcome,
                        json: string -> Option<Json>): (rs: seq<CrawledSkill>)
    ensures |rs| == |list| && forall i :: 0 <= i < |list| ==> rs[i] == CrawlRecord(list[i], fetch, yaml, json)
  {
    seq(|list|, i requires 0 <= i < |list| => CrawlRecord(list[i], fetch, yaml, json))
  }

  /** What `crawl` returns, with the waits it makes. */
  function CrawlOutcome(args: CliArgs, analysis: SiteAnalysis, discovered: seq<RawSkillListing>,
                        fetch: string -> HttpOutcome, anchors: string -> seq<Anchor>,
                        json: string -> Option<Json>, yaml: string -> YamlOutcome)
    : (CrawlResult, seq<nat>)
  {
    if args.dryRun then (CrawlResult(|analysis.skillLinks|, 0, 0, 0, []), [])
    else
      var list := CrawlList(args, analysis, discovered, fetch, anchors, json);
      FetchOutcome(list.0, fetch, yaml, json, list.1)
  }

  /** The fetch phase of `crawl` over the selected listings, after the waits `before`. */
  function FetchOutcome(list: seq<RawSkillListing>, fetch: string -> HttpOutcome, yaml: string -> YamlOutcome,
                        json: string -> Option<Json>, before: seq<nat>)
    : (CrawlResult, seq<nat>)
  {
    if |list| == 0 then (CrawlResult(0, 0, 0, 0, []), before)
    else
      var rs := CrawlRecords(list, fetch, yaml, json);
      (CrawlResult(|rs|, |rs|, FoundCount(rs), |rs| - FoundCount(rs), rs), before + Waits(RequestDelay, |rs| - 1))
  }

  /** The waits between the SKILL.md fetches of `n` listings. */
  function Waits(d: nat, n: nat): (r: seq<nat>)
    ensures |r| == n && forall k :: 0 <= k < n ==> r[k] == d
  {
    seq(n, k => d)
  }

  /**
   * Every crawled listing gets one record, in order; successful and failed
   * add up to the records, and each counts the found and the missing
   * SKILL.md files.
   */
  lemma CrawlCounts(args: CliArgs, analysis: SiteAnalysis, discovered: seq<RawSkillListing>,
                    fetch: string -> HttpOutcome, anchors: string -> seq<Anchor>,
                    json: string -> Option<Json>, yaml: string -> YamlOutcome)
    ensures var r := CrawlOutcome(args, analysis, discovered, fetch, anchors, json, yaml).0;
      r.successful + r.failed == |r.skills| == r.totalCrawled
      && (!args.dryRun ==> r.totalFound == |r.skills|)
      && (args.dryRun ==> r.totalFound == |analysis.skillLinks| && r.skills == [])
    ensures var r := CrawlOutcome(args, analysis, discovered, fetch, anchors, json, yaml).0;
      var list := CrawlList(args, analysis, discovered, fetch, anchors, json).0;
      !args.dryRun ==>
        |r.skills| == |list|
        && forall i :: 0 <= i < |list| ==>
             r.skills[i].listing == list[i]
             && (r.skills[i].skillMdFound <==> FetchSkillMdSpec(list[i].owner, list[i].repo, list[i].skillId, fetch, yaml, json).Some?)
  {
  }

  /** With a non-negative offset and limit, the HTML selection is the window `[offset, offset + limit)` of the de-duplicated candidates. */
  lemma HtmlWindow(args: CliArgs, analysis: SiteAnalysis, fetch: string -> HttpOutcome, anchors: string -> seq<Anchor>)
    requires 0 <= args.offset && 0 <= args.limit
    ensures var unique := Dedup(HtmlCandidates(analysis, fetch, anchors).0, Key);
      SelectedSkills(args, analysis, [], fetch, anchors).0
        == unique[Min(args.offset, |unique|)..Min(args.offset + args.limit, |unique|)]
  {
    SelectedFromHtml(args, analysis, fetch, anchors);
    HtmlSkillsTop(analysis, args.offset + args.limit, fetch, anchors);
    WindowOfTop(Dedup(HtmlCandidates(analysis, fetch, anchors).0, Key), args.offset, args.limit);
  }

  lemma SelectedFromHtml(args: CliArgs, analysis: SiteAnalysis, fetch: string -> HttpOutcome, anchors: string -> seq<Anchor>)
    ensures SelectedSkills(args, analysis, [], fetch, anchors).0
      == JsSlice(HtmlSkills(analysis, args.offset + args.limit, fetch, anchors).0, args.offset, args.offset + args.limit)
  {
  }

  lemma HtmlSkillsTop(analysis: SiteAnalysis, limit: int, fetch: string -> HttpOutcome, anchors: string -> seq<Anchor>)
    ensures HtmlSkills(analysis, limit, fetch, anchors).0 == JsSlice(Dedup(HtmlCandidates(analysis, fetch, anchors).0, Key), 0, limit)
  {
  }

  /** Cutting the first `offset + count` and then the window from `offset` is the window itself. */
  lemma WindowOfTop<T>(xs: seq<T>, offset: int, count: int)
    requires 0 <= offset && 0 <= count
    ensures JsSlice(JsSlice(xs, 0, offset + count), offset, offset + count)
      == xs[Min(offset, |xs|)..Min(offset + count, |xs|)]
  {
    var top := JsSlice(xs, 0, offset + count);
    assert top == xs[..Min(offset + count, |xs|)];
    JsSliceWindow(top, offset, count);
    JsSliceWindow(xs, offset, count);
  }

  lemma FoundCountSnoc(rs: seq<CrawledSkill>, x: CrawledSkill)
    ensures FoundCount(rs + [x]) == FoundCount(rs) + (if x.skillMdFound then 1 else 0)
  {
    assert (rs + [x])[..|rs|] == rs;
  }

  lemma WaitsSnoc(d: nat, n: nat)
    ensures Waits(d, n) + [d] == Waits(d, n + 1)
  {
  }

  /** The push and the counter bump of one step of the fetch loop of `crawl`. */
  method Tally(results: seq<CrawledSkill>, successful: nat, failed: nat, record: CrawledSkill)
    returns (results': seq<CrawledSkill>, successful': nat, failed': nat)
    requires successful == FoundCount(results)
    ensures results' == results + [record]
    ensures successful' == FoundCount(results') && successful' + failed' == successful + failed + 1
  {
    FoundCountSnoc(results, record);
    results' := results + [record];
    if record.skillMdFound {
      successful', failed' := successful + 1, failed;
    } else {
      successful', failed' := successful, failed + 1;
    }
  }

  /**
   * The loop of `crawl` over the chosen listings, with the SKILL.md lookup
   * of one listing as the parameter `lookup`: a record per listing in
   * order, the counters, and a wait after every listing but the last.
   */
  method FetchLoop(list: seq<RawSkillListing>, lookup: RawSkillListing -> CrawledSkill)
    returns (results: seq<CrawledSkill>, successful: nat, failed: nat, ghost delays: seq<nat>)
    requires |list| > 0
    ensures |results| == |list| && forall k :: 0 <= k < |list| ==> results[k] == lookup(list[k])
    ensures successful == FoundCount(results) && failed == |results| - successful
    ensures delays == Waits(RequestDelay, |list| - 1)
  {
    results, successful, failed, delays := [], 0, 0, [];
    for i := 0 to |list|
      invariant |results| == i && forall k :: 0 <= k < i ==> results[k] == lookup(list[k])
      invariant successful == FoundCount(results) && successful + failed == i
      invariant delays == Waits(RequestDelay, if i < |list| then i else |list| - 1)
    {
      results, successful, failed := Tally(results, successful, failed, lookup(list[i]));
      if i < |list| - 1 {
        WaitsSnoc(RequestDelay, i);
        delays := delays + [RequestDelay];
      }
    }
  }

  /** The fetch loop of `crawl`, each listing looked up by `fetchSkillMd`. */
  method FetchAll(list: seq<RawSkillListing>, fetch: string -> HttpOutcome, yaml: string -> YamlOutcome,
                  json: string -> Option<Json>)
    returns (results: seq<CrawledSkill>, successful: nat, failed: nat, ghost delays: seq<nat>)
    requires |list| > 0
    ensures results == CrawlRecords(list, fetch, yaml, json)
    ensures successful == FoundCount(results) && failed == |results| - successful
    ensures delays == Waits(RequestDelay, |list| - 1)
  {
    results, successful, failed, delays := FetchLoop(list, s => CrawlRecord(s, fetch, yaml, json));
    assert results == CrawlRecords(list, fetch, yaml, json);
  }

  /** The selection of `crawl`: the API discovery when the page had no skill links, else the HTML strategies, cut to the window. */
  method SelectSkills(args: CliArgs, analysis: SiteAnalysis, discovered: seq<RawSkillListing>,
                      fetch: string -> HttpOutcome, anchors: string -> seq<Anchor>)
    returns (skillList: seq<RawSkillListing>, ghost sleeps: seq<nat>)
    ensures (skillList, sleeps) == SelectedSkills(args, analysis, discovered, fetch, anchors)
  {
    skillList, sleeps := [], [];
    if |analysis.skillLinks| == 0 {
      skillList := discovered;
    }
    if |skillList| == 0 {
      var allSkills;
      allSkills, sleeps := ExtractSkillsFromHtml(analysis, args.offset + args.limit, fetch, anchors);
      skillList := JsSlice(allSkills, args.offset, args.offset + args.limit);
    } else {
      skillList := JsSlice(skillList, args.offset, args.offset + args.limit);
    }
  }

  /** The selection of `crawl` with its fallback. */
  method ChooseSkills(args: CliArgs, analysis: SiteAnalysis, discovered: seq<RawSkillListing>,
                      fetch: string -> HttpOutcome, anchors: string -> seq<Anchor>, json: string -> Option<Json>)
    returns (skillList: seq<RawSkillListing>, ghost sleeps: seq<nat>)
    ensures (skillList, sleeps) == CrawlList(args, analysis, discovered, fetch, anchors, json)
  {
    skillList, sleeps := SelectSkills(args, analysis, discovered, fetch, anchors);
    if |skillList| == 0 {
      skillList := FetchFallbackSkills(args.limit, fetch, json);
    }
  }

  /** `crawl`: the dry run, the selection with its fallback, and the fetch loop. */
  method Crawl(args: CliArgs, analysis: SiteAnalysis, discovered: seq<RawSkillListing>,
               fetch: string -> HttpOutcome, anchors: string -> seq<Anchor>,
               json: string -> Option<Json>, yaml: string -> YamlOutcome)
    returns (r: CrawlResult, ghost sleeps: seq<nat>)
    ensures (r, sleeps) == CrawlOutcome(args, analysis, discovered, fetch, anchors, json, yaml)
  {
    if args.dryRun {
      return CrawlResult(|analysis.skillLinks|, 0, 0, 0, []), [];
    }
    var skillList;
    skillList, sleeps := ChooseSkills(args, analysis, discovered, fetch, anchors, json);
    r, sleeps := FetchPhase(skillList, fetch, yaml, json, sleeps);
  }

  /** Phase 2 of `crawl`: nothing to fetch ends it with zero counts, otherwise the fetch loop. */
  method FetchPhase(skillList: seq<RawSkillListing>, fetch: string -> HttpOutcome, yaml: string -> YamlOutcome,
                    json: string -> Option<Json>, ghost before: seq<nat>)
    returns (r: CrawlResult, ghost sleeps: seq<nat>)
    ensures (r, sleeps) == FetchOutcome(skillList, fetch, yaml, json, before)
  {
    if |skillList| == 0 {
      return CrawlResult(0, 0, 0, 0, []), before;
    }
    var results, successful, failed;
    ghost var delays;
    results, successful, failed, delays := FetchAll(skillList, fetch, yaml, json);
    r := CrawlResult(|skillList|, |results|, successful, failed, results);
    sleeps := before + delays;
    ghost var expected := FetchOutcome(skillList, fetch, yaml, json, before);
    assert expected.0 == CrawlResult(|results|, |results|, FoundCount(results), |results| - FoundCount(results), results);
    assert expected.1 == before + Waits(RequestDelay, |results| - 1);
  }
}
