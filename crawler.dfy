/**
 * The skills.sh crawler pipeline (`src/lib/crawler.ts`): crawling the
 * listing page with its three strategies, reading a SKILL.md front matter,
 * probing GitHub for the SKILL.md of a listing, and the full crawl that
 * combines both.
 *
 * Every fetch goes through the parameter `fetch` (the same URL always gives
 * the same outcome), every HTML page through `anchors` (its `<a href>`
 * elements) and every YAML text through `yaml`. The waits between requests
 * are returned as ghost traces of their lengths in milliseconds.
 */
module Crawler {
  import opened Wrappers
  import opened Text
  import opened Metadata
  import opened SkillListing

  const RequestDelay := 1500
  const BrowseDelay := 500
  const DefaultLimit := 10
  const HardLimit := 50
  const Branches: seq<string> := ["main", "master"]
  const GitHubRawBase := "https://raw.githubusercontent.com"
  const BrowsePaths: seq<string> := ["/skills", "/browse", "/explore", "/discover"]
  const NotFoundMessage := "SKILL.md not found in any expected location/branch"

  // ---------------------------------------------------------------------
  // Browse pages

  /** The listings a browse page yields: none unless its fetch succeeded. */
  function BrowsePage(o: HttpOutcome, anchors: string -> seq<Anchor>): seq<RawSkillListing> {
    if IsOk(o) then ParsedLinks(KeptLinks(anchors(o.body), IsBrowseCandidate)) else []
  }

  /** The browse page at index `j` yields listings. */
  predicate BrowseHit(j: nat, fetch: string -> HttpOutcome, anchors: string -> seq<Anchor>)
    requires j < |BrowsePaths|
  {
    |BrowsePage(fetch(BaseUrl + BrowsePaths[j]), anchors)| > 0
  }

  /**
   * The browse loop from path `i` on: the listings found and the waits made.
   * A page that fails with a status is skipped without waiting; a page that
   * throws or yields nothing is followed by a wait; the first page that
   * yields listings ends the loop.
   */
  function BrowseFrom(i: nat, fetch: string -> HttpOutcome, anchors: string -> seq<Anchor>): (seq<RawSkillListing>, seq<nat>)
    requires i <= |BrowsePaths|
    decreases |BrowsePaths| - i
  {
    if i == |BrowsePaths| then ([], [])
    else
      var o := fetch(BaseUrl + BrowsePaths[i]);
      if o.Response? && !IsOk(o) then BrowseFrom(i + 1, fetch, anchors)
      else if |BrowsePage(o, anchors)| > 0 then (BrowsePage(o, anchors), [])
      else
        var rest := BrowseFrom(i + 1, fetch, anchors);
        (rest.0, [BrowseDelay] + rest.1)
  }

  /**
   * Where the browse loop stands before path `i`: `done` holds the waits
   * made so far, and what is left of the loop finishes the listings and the
   * waits of `all`.
   */
  ghost predicate BrowseState(i: nat, all: (seq<RawSkillListing>, seq<nat>), done: seq<nat>,
                              fetch: string -> HttpOutcome, anchors: string -> seq<Anchor>)
  {
    i <= |BrowsePaths| && all.0 == BrowseFrom(i, fetch, anchors).0 && all.1 == done + BrowseFrom(i, fetch, anchors).1
  }

  /** `tryBrowsePages`: the loop over the browse paths; the first page that yields listings ends it and is returned. */
  method TryBrowsePages(fetch: string -> HttpOutcome, anchors: string -> seq<Anchor>)
    returns (skills: seq<RawSkillListing>, ghost sleeps: seq<nat>)
    ensures skills == BrowseFrom(0, fetch, anchors).0 && sleeps == BrowseFrom(0, fetch, anchors).1
  {
    skills := [];
    sleeps := [];
    var i := 0;
    ghost var all := BrowseFrom(0, fetch, anchors);
    assert all.1 == sleeps + all.1;
    while i < |BrowsePaths|
      invariant BrowseState(i, all, sleeps, fetch, anchors)
      invariant skills == []
      decreases |BrowsePaths| - i
    {
      var parsed;
      parsed, sleeps := BrowseStep(i, fetch, anchors, all, sleeps);
      if |parsed| > 0 {
        skills := skills + parsed;
        assert skills == parsed;
        return;
      }
      i := i + 1;
    }
    BrowseEnd(i, fetch, anchors, all, sleeps);
  }

  /**
   * One path of `tryBrowsePages`: a page that fails with a status is skipped;
   * a page that throws or yields nothing is followed by a wait; a page that
   * yields listings hands them back and ends the loop.
   */
  method BrowseStep(i: nat, fetch: string -> HttpOutcome, anchors: string -> seq<Anchor>,
                    ghost all: (seq<RawSkillListing>, seq<nat>), ghost done: seq<nat>)
    returns (parsed: seq<RawSkillListing>, ghost done': seq<nat>)
    requires i < |BrowsePaths| && BrowseState(i, all, done, fetch, anchors)
    ensures |parsed| > 0 ==> all == (parsed, done')
    ensures |parsed| == 0 ==> BrowseState(i + 1, all, done', fetch, anchors)
  {
    parsed, done' := [], done;
    var o := fetch(BaseUrl + BrowsePaths[i]);
    if o.NetworkError? {
      BrowseWait(i, fetch, anchors, all, done);
      done' := done + [BrowseDelay];
    } else if IsOk(o) {
      parsed := ReadBrowsePage(o, anchors);
      if |parsed| > 0 {
        BrowseFound(i, fetch, anchors, all, done);
      } else {
        BrowseWait(i, fetch, anchors, all, done);
        done' := done + [BrowseDelay];
      }
    } else {
      BrowseSkip(i, fetch, anchors, all, done);
    }
  }

  /** The body of a successful browse page: its links, parsed into listings. */
  method ReadBrowsePage(o: HttpOutcome, anchors: string -> seq<Anchor>) returns (parsed: seq<RawSkillListing>)
    requires IsOk(o)
    ensures parsed == BrowsePage(o, anchors)
  {
    var links := CollectLinks(anchors(o.body), IsBrowseCandidate);
    parsed := ParseSkillLinks(links);
  }

  lemma BrowseSkip(i: nat, fetch: string -> HttpOutcome, anchors: string -> seq<Anchor>,
                   all: (seq<RawSkillListing>, seq<nat>), done: seq<nat>)
    requires i < |BrowsePaths| && BrowseState(i, all, done, fetch, anchors)
    requires fetch(BaseUrl + BrowsePaths[i]).Response? && !IsOk(fetch(BaseUrl + BrowsePaths[i]))
    ensures BrowseState(i + 1, all, done, fetch, anchors)
  {
  }

  lemma BrowseWait(i: nat, fetch: string -> HttpOutcome, anchors: string -> seq<Anchor>,
                   all: (seq<RawSkillListing>, seq<nat>), done: seq<nat>)
    requires i < |BrowsePaths| && BrowseState(i, all, done, fetch, anchors)
    requires var o := fetch(BaseUrl + BrowsePaths[i]);
      o.NetworkError? || (IsOk(o) && |BrowsePage(o, anchors)| == 0)
    ensures BrowseState(i + 1, all, done + [BrowseDelay], fetch, anchors)
  {
    assert BrowseFrom(i, fetch, anchors).1 == [BrowseDelay] + BrowseFrom(i + 1, fetch, anchors).1;
  }

  lemma BrowseFound(i: nat, fetch: string -> HttpOutcome, anchors: string -> seq<Anchor>,
                    all: (seq<RawSkillListing>, seq<nat>), done: seq<nat>)
    requires i < |BrowsePaths| && BrowseState(i, all, done, fetch, anchors)
    requires var o := fetch(BaseUrl + BrowsePaths[i]); IsOk(o) && |BrowsePage(o, anchors)| > 0
    ensures all == (BrowsePage(fetch(BaseUrl + BrowsePaths[i]), anchors), done)
  {
    assert done + [] == done;
  }

  /** Past the last path the loop has found nothing and made all of its waits. */
  lemma BrowseEnd(i: nat, fetch: string -> HttpOutcome, anchors: string -> seq<Anchor>,
                  all: (seq<RawSkillListing>, seq<nat>), done: seq<nat>)
    requires i == |BrowsePaths| && BrowseState(i, all, done, fetch, anchors)
    ensures all == ([], done)
  {
    assert done + [] == done;
  }

  /** No browse page yields listings: the browse loop gives nothing. */
  lemma {:induction false} BrowseMisses(i: nat, fetch: string -> HttpOutcome, anchors: string -> seq<Anchor>)
    requires i <= |BrowsePaths|
    requires forall j :: i <= j < |BrowsePaths| ==> !BrowseHit(j, fetch, anchors)
    ensures BrowseFrom(i, fetch, anchors).0 == []
    decreases |BrowsePaths| - i
  {
    if i < |BrowsePaths| {
      assert !BrowseHit(i, fetch, anchors);
      BrowseMisses(i + 1, fetch, anchors);
    }
  }

  /** The browse loop gives the listings of the first page that yields any. */
  lemma {:induction false} BrowseFirstHit(i: nat, j: nat, fetch: string -> HttpOutcome, anchors: string -> seq<Anchor>)
    requires i <= j < |BrowsePaths| && BrowseHit(j, fetch, anchors)
    requires forall l :: i <= l < j ==> !BrowseHit(l, fetch, anchors)
    ensures BrowseFrom(i, fetch, anchors).0 == BrowsePage(fetch(BaseUrl + BrowsePaths[j]), anchors)
    decreases j - i
  {
    var o := fetch(BaseUrl + BrowsePaths[i]);
    if i < j {
      assert !BrowseHit(i, fetch, anchors);
      assert |BrowsePage(o, anchors)| == 0;
      BrowseFirstHit(i + 1, j, fetch, anchors);
    } else {
      assert |BrowsePage(o, anchors)| > 0;
      assert IsOk(o);
    }
  }

  /** Every wait of the browse loop is 500 ms, and there is at most one per page. */
  lemma {:induction false} BrowseWaits(i: nat, fetch: string -> HttpOutcome, anchors: string -> seq<Anchor>)
    requires i <= |BrowsePaths|
    ensures |BrowseFrom(i, fetch, anchors).1| <= |BrowsePaths| - i
    ensures forall k :: 0 <= k < |BrowseFrom(i, fetch, anchors).1| ==> BrowseFrom(i, fetch, anchors).1[k] == BrowseDelay
    decreases |BrowsePaths| - i
  {
    if i < |BrowsePaths| {
      BrowseWaits(i + 1, fetch, anchors);
    }
  }

  // ---------------------------------------------------------------------
  // Known popular skills

  function Popular(owner: string, repo: string, skillId: string, installs: int): RawSkillListing {
    RawSkillListing(skillId, owner, repo, skillId, BaseUrl + "/" + owner + "/" + repo + "/" + skillId, Count(installs), None)
  }

  /** The fallback list taken from the skills.sh leaderboard. */
  const KnownPopularSkills: seq<RawSkillListing> := [
    Popular("vercel-labs", "skills", "find-skills", 162200),
    Popular("anthropics", "skills", "frontend-design", 53300),
    Popular("anthropics", "skills", "skill-creator", 26500),
    Popular("obra", "superpowers", "brainstorming", 13700),
    Popular("anthropics", "skills", "pdf", 11300),
    Popular("obra", "superpowers", "systematic-debugging", 7600),
    Popular("anthropics", "skills", "mcp-builder", 7100),
    Popular("obra", "superpowers", "writing-plans", 6600),
    Popular("obra", "superpowers", "test-driven-development", 6600),
    Popular("anthropics", "skills", "webapp-testing", 7700)
  ]

  // ---------------------------------------------------------------------
  // The listing page

  datatype CrawlOptions = CrawlOptions(limit: Option<int>, offset: Option<int>)

  /** `Math.min(options.limit ?? 10, 50)` */
  function EffectiveLimit(options: CrawlOptions): (l: int)
    ensures l <= HardLimit
    ensures options.limit.None? ==> l == DefaultLimit
    ensures options.limit.Some? && options.limit.value <= HardLimit ==> l == options.limit.value
    ensures options.limit.Some? && options.limit.value > HardLimit ==> l == HardLimit
  {
    Min(if options.limit.Some? then options.limit.value else DefaultLimit, HardLimit)
  }

  /** `options.offset ?? 0` */
  function EffectiveOffset(options: CrawlOptions): int {
    if options.offset.Some? then options.offset.value else 0
  }

  function FetchFailedMessage(status: int, statusText: string): string {
    "Failed to fetch skills.sh: " + IntToString(status) + " " + statusText
  }

  /** What the page crawl throws for a root page it cannot use: the fetch's own error, or the status message. */
  function RootError(root: HttpOutcome): string
    requires !IsOk(root)
  {
    if root.NetworkError? then root.message else FetchFailedMessage(root.status, root.statusText)
  }

  /** The first of the three strategies that yields listings, and the waits it took. */
  function Candidates(root: string, fetch: string -> HttpOutcome, anchors: string -> seq<Anchor>)
    : (r: (seq<RawSkillListing>, seq<nat>))
    ensures |r.0| > 0
  {
    var fromRoot := ParsedLinks(KeptLinks(anchors(root), IsRootCandidate));
    if |fromRoot| > 0 then (fromRoot, [])
    else
      var browsed := BrowseFrom(0, fetch, anchors);
      if |browsed.0| > 0 then browsed else (KnownPopularSkills, browsed.1)
  }

  /** What `crawlSkillsShPage` returns or throws, and the waits it makes. */
  function CrawlPage(options: CrawlOptions, fetch: string -> HttpOutcome, anchors: string -> seq<Anchor>)
    : (Result<seq<RawSkillListing>>, seq<nat>)
  {
    var root := fetch(BaseUrl);
    if !IsOk(root) then (Failure(RootError(root)), [])
    else
      var c := Candidates(root.body, fetch, anchors);
      var offset := EffectiveOffset(options);
      (Success(JsSlice(Dedup(c.0, Key), offset, offset + EffectiveLimit(options))), c.1)
  }

  method CrawlSkillsShPage(options: CrawlOptions, fetch: string -> HttpOutcome, anchors: string -> seq<Anchor>)
    returns (r: Result<seq<RawSkillListing>>, ghost sleeps: seq<nat>)
    ensures (r, sleeps) == CrawlPage(options, fetch, anchors)
  {
    var limit := EffectiveLimit(options);
    var offset := EffectiveOffset(options);
    var response := fetch(BaseUrl);
    if !IsOk(response) {
      return Failure(RootError(response)), [];
    }
    var skills;
    skills, sleeps := CandidatesOf(response.body, fetch, anchors);
    var unique := DedupByKey(skills, Key);
    r := Success(JsSlice(unique, offset, offset + limit));
    CrawlPageOk(options, fetch, anchors);
  }

  /** The three strategies of `crawlSkillsShPage` in turn: the root page's links, the browse pages, the known list. */
  method CandidatesOf(root: string, fetch: string -> HttpOutcome, anchors: string -> seq<Anchor>)
    returns (skills: seq<RawSkillListing>, ghost sleeps: seq<nat>)
    ensures (skills, sleeps) == Candidates(root, fetch, anchors)
  {
    var skillLinks := CollectLinks(anchors(root), IsRootCandidate);
    skills, sleeps := [], [];
    if |skillLinks| > 0 {
      skills := ParseSkillLinks(skillLinks);
    }
    assert skills == ParsedLinks(KeptLinks(anchors(root), IsRootCandidate));
    if |skills| == 0 {
      skills, sleeps := TryBrowsePages(fetch, anchors);
    }
    if |skills| == 0 {
      skills := KnownPopularSkills;
    }
  }

  /** With a 2xx root page, the crawl is the window of the de-duplicated candidates. */
  lemma CrawlPageOk(options: CrawlOptions, fetch: string -> HttpOutcome, anchors: string -> seq<Anchor>)
    requires IsOk(fetch(BaseUrl))
    ensures var c := Candidates(fetch(BaseUrl).body, fetch, anchors);
      var offset := EffectiveOffset(options);
      CrawlPage(options, fetch, anchors) == (Success(JsSlice(Dedup(c.0, Key), offset, offset + EffectiveLimit(options))), c.1)
  {
  }

  /** The page crawl throws exactly when the root page cannot be fetched with a 2xx status. */
  lemma CrawlPageFails(options: CrawlOptions, fetch: string -> HttpOutcome, anchors: string -> seq<Anchor>)
    ensures CrawlPage(options, fetch, anchors).0.Failure? <==> !IsOk(fetch(BaseUrl))
    ensures var root := fetch(BaseUrl);
      root.Response? && !IsOk(root) ==>
        CrawlPage(options, fetch, anchors).0 == Failure(FetchFailedMessage(root.status, root.statusText))
  {
  }

  /**
   * A crawled page holds listings with pairwise distinct keys, at most 50
   * of them unless the caller passes a negative limit.
   */
  lemma CrawlPageListings(options: CrawlOptions, fetch: string -> HttpOutcome, anchors: string -> seq<Anchor>)
    requires IsOk(fetch(BaseUrl))
    ensures var r := CrawlPage(options, fetch, anchors).0;
      r.Success? && (0 <= EffectiveLimit(options) ==> |r.value| <= HardLimit)
      && forall i, j :: 0 <= i < j < |r.value| ==> Key(r.value[i]) != Key(r.value[j])
  {
    CrawlPageOk(options, fetch, anchors);
    PageWindow(Candidates(fetch(BaseUrl).body, fetch, anchors).0, EffectiveOffset(options), EffectiveLimit(options));
  }

  /** For a non-negative offset and limit, a crawled page is the window of the de-duplicated candidates starting at the offset. */
  lemma CrawlPageWindow(options: CrawlOptions, fetch: string -> HttpOutcome, anchors: string -> seq<Anchor>)
    requires IsOk(fetch(BaseUrl))
    requires 0 <= EffectiveOffset(options) && 0 <= EffectiveLimit(options)
    ensures var unique := Dedup(Candidates(fetch(BaseUrl).body, fetch, anchors).0, Key);
      var offset := EffectiveOffset(options);
      CrawlPage(options, fetch, anchors).0
        == Success(unique[Min(offset, |unique|)..Min(offset + EffectiveLimit(options), |unique|)])
  {
    CrawlPageOk(options, fetch, anchors);
    PageWindow(Candidates(fetch(BaseUrl).body, fetch, anchors).0, EffectiveOffset(options), EffectiveLimit(options));
  }

  /** The page window of a candidate list: at most `limit` listings with distinct keys. */
  lemma PageWindow(cands: seq<RawSkillListing>, offset: int, limit: int)
    requires limit <= HardLimit
    ensures var r := JsSlice(Dedup(cands, Key), offset, offset + limit);
      (0 <= limit ==> |r| <= limit) && forall i, j :: 0 <= i < j < |r| ==> Key(r[i]) != Key(r[j])
    ensures var unique := Dedup(cands, Key);
      0 <= offset && 0 <= limit ==>
        JsSlice(unique, offset, offset + limit) == unique[Min(offset, |unique|)..Min(offset + limit, |unique|)]
  {
    DedupDistinct(cands, Key);
    WindowOf(Dedup(cands, Key), Key, offset, limit);
  }

  /** A window of a list with distinct keys has distinct keys and at most `limit` entries. */
  lemma WindowOf<T>(xs: seq<T>, key: T -> string, offset: int, limit: int)
    requires forall i, j :: 0 <= i < j < |xs| ==> key(xs[i]) != key(xs[j])
    ensures var r := JsSlice(xs, offset, offset + limit);
      (0 <= limit ==> |r| <= limit) && forall i, j :: 0 <= i < j < |r| ==> key(r[i]) != key(r[j])
    ensures 0 <= offset && 0 <= limit ==>
      JsSlice(xs, offset, offset + limit) == xs[Min(offset, |xs|)..Min(offset + limit, |xs|)]
  {
    WindowDistinct(xs, key, offset, offset + limit);
    if 0 <= offset && 0 <= limit {
      JsSliceWindow(xs, offset, limit);
    }
  }

  lemma WindowDistinct<T>(xs: seq<T>, key: T -> string, start: int, end: int)
    requires forall i, j :: 0 <= i < j < |xs| ==> key(xs[i]) != key(xs[j])
    ensures var r := JsSlice(xs, start, end);
      forall i, j :: 0 <= i < j < |r| ==> key(r[i]) != key(r[j])
  {
    var r := JsSlice(xs, start, end);
    var from := if start < 0 then Max(|xs| + start, 0) else Min(start, |xs|);
    assert r == xs[from..from + |r|];
    forall i, j | 0 <= i < j < |r| ensures key(r[i]) != key(r[j]) {
      assert r[i] == xs[from + i] && r[j] == xs[from + j];
    }
  }

  /** The strategies are tried in order: root links, then browse pages, then the known list. */
  lemma CandidatesOrder(root: string, fetch: string -> HttpOutcome, anchors: string -> seq<Anchor>)
    ensures var fromRoot := ParsedLinks(KeptLinks(anchors(root), IsRootCandidate));
      var browsed := BrowseFrom(0, fetch, anchors).0;
      var c := Candidates(root, fetch, anchors).0;
      (|fromRoot| > 0 ==> c == fromRoot)
      && (|fromRoot| == 0 && |browsed| > 0 ==> c == browsed)
      && (|fromRoot| == 0 && |browsed| == 0 ==> c == KnownPopularSkills)
  {
  }

  // ---------------------------------------------------------------------
  // SKILL.md front matter: `^---\s*\n([\s\S]*?)\n---`

  /** A closing `\n---` at or after `from`. */
  function Closer(content: string, from: nat): Option<nat>
    requires from <= |content|
  {
    FindFrom(content, "\n---", from)
  }

  /** The line break at `c` can end the opener: a closer follows it. */
  predicate OpensAt(content: string, c: nat) {
    c < |content| && content[c] == '\n' && Closer(content, c + 1).Some?
  }

  /** The largest `c` in `[lo, j)` with `p(c)`: how a backtracking greedy match settles. */
  function LastBelow(p: nat -> bool, lo: nat, j: nat): (r: Option<nat>)
    ensures r.Some? ==> lo <= r.value < j && p(r.value)
    decreases j
  {
    if j <= lo then None
    else if p(j - 1) then Some(j - 1)
    else LastBelow(p, lo, j - 1)
  }

  /** No larger candidate satisfies `p`; nothing is found only when no candidate does. */
  lemma {:induction false} LastBelowLargest(p: nat -> bool, lo: nat, j: nat)
    ensures var r := LastBelow(p, lo, j);
      r.Some? ==> forall c :: r.value < c < j ==> !p(c)
    ensures LastBelow(p, lo, j).None? ==> forall c :: lo <= c < j ==> !p(c)
    decreases j
  {
    if j > lo && !p(j - 1) {
      LastBelowLargest(p, lo, j - 1);
    }
  }

  /**
   * Backtracking `\s*\n` after the leading `---`: the largest `c` below the
   * end of the white-space run whose line break is followed by a closer.
   */
  function OpenerBelow(content: string, j: nat): (r: Option<nat>)
    ensures r.Some? ==> 3 <= r.value < j && OpensAt(content, r.value)
  {
    LastBelow((c: nat) => OpensAt(content, c), 3, j)
  }

  /**
   * The captured block: the text must start with `---`; the opener takes the
   * longest run of white space that ends in a line break followed, later,
   * by a closer; the block is the shortest text up to that closer.
   */
  function CrawlerBlock(content: string): (r: Option<string>)
    ensures r.Some? ==> StartsWith(content, "---")
  {
    if !StartsWith(content, "---") then None
    else
      match OpenerBelow(content, RunEnd(content, 3, IsWhitespace))
      case None => None
      case Some(c) =>
        var q := Closer(content, c + 1).value;
        Some(content[c + 1..q])
  }

  /** `parseFrontmatter`: an object document of the block, or nothing; it never fails. */
  function ParseSkillFrontmatter(content: string, yaml: string -> YamlOutcome): (r: Option<YamlDocument>)
    ensures r.Some? ==> IsObject(r.value)
    ensures r.Some? <==> CrawlerBlock(content).Some? && yaml(CrawlerBlock(content).value).Parsed?
                         && IsObject(yaml(CrawlerBlock(content).value).document)
    ensures r.Some? ==> r.value == yaml(CrawlerBlock(content).value).document
  {
    match CrawlerBlock(content)
    case None => None
    case Some(text) =>
      match yaml(text)
      case Threw(_, _) => None
      case Parsed(doc) => if IsObject(doc) then Some(doc) else None
  }

  function SkillFile(raw: string): string {
    "---\n" + raw + "\n---"
  }

  /**
   * A block that neither starts with white space nor holds a line starting
   * with `---` comes back unchanged from a SKILL.md header.
   */
  lemma {:induction false} SkillFileBlock(raw: string)
    requires !Contains(raw, "\n---") && (|raw| == 0 || !IsWhitespace(raw[0]))
    ensures CrawlerBlock(SkillFile(raw)) == Some(raw)
  {
    var content := SkillFile(raw);
    var end := 4 + |raw|;
    assert content[..3] == "---";
    assert content[4..end] == raw;
    SkillFileCloser(raw);
    if |raw| == 0 {
      assert content == "---\n\n---";
      assert RunEnd(content, 3, IsWhitespace) == 5 by {
        assert content[3..] == "\n\n" + "---";
        RunEndAt(content, 3, "\n\n", "---", IsWhitespace);
      }
      assert !OpensAt(content, 4) by {
        assert Closer(content, 5).None?;
      }
      assert OpensAt(content, 3);
    } else {
      assert RunEnd(content, 3, IsWhitespace) == 4 by {
        assert content[3..] == "\n" + content[4..];
        assert content[4] == raw[0];
        RunEndAt(content, 3, "\n", content[4..], IsWhitespace);
      }
      assert OpensAt(content, 3);
    }
  }

  /** In a SKILL.md header the first closer after the opening line is the added one. */
  lemma SkillFileCloser(raw: string)
    requires !Contains(raw, "\n---")
    ensures Closer(SkillFile(raw), 4) == Some(4 + |raw|)
  {
    CloserFrom(raw, 4);
  }

  lemma {:induction false} CloserFrom(raw: string, j: nat)
    requires !Contains(raw, "\n---") && 4 <= j <= 4 + |raw|
    ensures FindFrom(SkillFile(raw), "\n---", j) == Some(4 + |raw|)
    decreases 4 + |raw| - j
  {
    if j == 4 + |raw| {
      TailOf("---\n" + raw, "\n---");
    } else {
      NoCloserInRaw(raw, j - 4);
      CloserFrom(raw, j + 1);
    }
  }

  lemma NoCloserInRaw(raw: string, i: nat)
    requires i < |raw| && !Contains(raw, "\n---")
    ensures !StartsWith(SkillFile(raw)[4 + i..], "\n---")
  {
    var content := SkillFile(raw);
    assert forall j :: 0 <= j < |raw| ==> content[4 + j] == raw[j];
    assert content[4 + |raw|] == '\n';
    var rest := content[4 + i..];
    if i + 4 <= |raw| {
      if StartsWith(rest, "\n---") {
        forall k | 0 <= k < 4 ensures raw[i..][..4][k] == "\n---"[k] {
          assert rest[k] == content[4 + i + k];
          assert rest[..4][k] == rest[k];
        }
        ContainsAt(raw, "\n---", i);
      }
    } else {
      var k := |raw| - i;
      assert rest[k] == content[4 + |raw|] == '\n';
      assert "\n---"[k] == '-';
      NotStartsWithAt(rest, "\n---", k);
    }
  }

  // ---------------------------------------------------------------------
  // Where a SKILL.md may live

  function SkillIdPaths(skillId: string): seq<string> {
    ["skills/" + skillId + "/SKILL.md", skillId + "/SKILL.md", "skills/" + skillId + ".md", skillId + ".md"]
  }

  /** `[owner, owner.split('-')[0], repo.split('-')[0]]` */
  function Prefixes(owner: string, repo: string): seq<string> {
    [owner, Split(owner, '-')[0], Split(repo, '-')[0]]
  }

  /** The skill id with `<prefix>-` removed from its front, when it starts so. */
  function Stripped(skillId: string, prefix: string): Option<string> {
    if StartsWith(skillId, prefix + "-") then Some(skillId[|prefix| + 1..]) else None
  }

  /** Two paths for every prefix that the skill id starts with, in prefix order (repeats kept). */
  function StrippedPaths(skillId: string, prefixes: seq<string>): (r: seq<string>)
    ensures |r| == 2 * MatchingPrefixes(skillId, prefixes)
    decreases |prefixes|
  {
    if |prefixes| == 0 then []
    else
      StrippedPaths(skillId, prefixes[..|prefixes| - 1]) + StrippedPair(Stripped(skillId, prefixes[|prefixes| - 1]))
  }

  /** The two paths tried for a stripped skill id. */
  function StrippedPair(stripped: Option<string>): (r: seq<string>)
    ensures |r| == if stripped.Some? then 2 else 0
  {
    match stripped
    case Some(s) => ["skills/" + s + "/SKILL.md", s + "/SKILL.md"]
    case None => []
  }

  lemma StrippedPathsStep(skillId: string, prefixes: seq<string>, i: nat)
    requires i < |prefixes|
    ensures StrippedPaths(skillId, prefixes[..i + 1]) == StrippedPaths(skillId, prefixes[..i]) + StrippedPair(Stripped(skillId, prefixes[i]))
  {
    assert prefixes[..i + 1][..i] == prefixes[..i];
  }

  function MatchingPrefixes(skillId: string, prefixes: seq<string>): nat
    decreases |prefixes|
  {
    if |prefixes| == 0 then 0
    else MatchingPrefixes(skillId, prefixes[..|prefixes| - 1])
         + (if Stripped(skillId, prefixes[|prefixes| - 1]).Some? then 1 else 0)
  }

  /** Every path `fetchSkillFrontmatter` tries, in order. */
  function CandidatePaths(owner: string, repo: string, skillId: string): seq<string> {
    (if skillId != "" && skillId != repo then SkillIdPaths(skillId) + StrippedPaths(skillId, Prefixes(owner, repo)) else [])
    + ["SKILL.md", ".claude/SKILL.md"]
  }

  /** The path list as `fetchSkillFrontmatter` builds it, with its loop over the prefixes. */
  method BuildFilePaths(owner: string, repo: string, skillId: string) returns (filePaths: seq<string>)
    ensures filePaths == CandidatePaths(owner, repo, skillId)
  {
    filePaths := [];
    if skillId != "" && skillId != repo {
      filePaths := SkillIdPaths(skillId);
      var prefixes := Prefixes(owner, repo);
      for i := 0 to |prefixes|
        invariant filePaths == SkillIdPaths(skillId) + StrippedPaths(skillId, prefixes[..i])
      {
        StrippedPathsStep(skillId, prefixes, i);
        var prefix := prefixes[i];
        if StartsWith(skillId, prefix + "-") {
          var stripped := skillId[|prefix| + 1..];
          filePaths := filePaths + StrippedPair(Some(stripped));
        }
      }
      assert prefixes[..|prefixes|] == prefixes;
    }
    filePaths := filePaths + ["SKILL.md", ".claude/SKILL.md"];
  }

  /**
   * The list always ends with the two repository-level paths. Without a skill
   * id distinct from the repo those are all; otherwise the four skill-id paths
   * come first and two more follow for each matching prefix.
   */
  lemma CandidatePathsShape(owner: string, repo: string, skillId: string)
    ensures var ps := CandidatePaths(owner, repo, skillId);
      |ps| >= 2 && ps[|ps| - 2] == "SKILL.md" && ps[|ps| - 1] == ".claude/SKILL.md"
    ensures var ps := CandidatePaths(owner, repo, skillId);
      (skillId == "" || skillId == repo) <==> |ps| == 2
    ensures var ps := CandidatePaths(owner, repo, skillId);
      skillId != "" && skillId != repo ==>
        ps[..4] == SkillIdPaths(skillId) && |ps| == 6 + 2 * MatchingPrefixes(skillId, Prefixes(owner, repo))
  {
    var ps := CandidatePaths(owner, repo, skillId);
    if skillId != "" && skillId != repo {
      var head := SkillIdPaths(skillId) + StrippedPaths(skillId, Prefixes(owner, repo));
      assert ps == head + ["SKILL.md", ".claude/SKILL.md"];
      assert ps[..4] == head[..4];
    }
  }

  // ---------------------------------------------------------------------
  // Probing GitHub for the SKILL.md

  datatype SkillMdResult = SkillMdResult(frontmatter: Option<YamlDocument>, branch: string, path: string)

  function RawUrl(owner: string, repo: string, probe: (string, string)): string {
    GitHubRawBase + "/" + owner + "/" + repo + "/" + probe.0 + "/" + probe.1
  }

  function Row(branch: string, paths: seq<string>): (r: seq<(string, string)>)
    ensures |r| == |paths| && forall i :: 0 <= i < |paths| ==> r[i] == (branch, paths[i])
  {
    seq(|paths|, i requires 0 <= i < |paths| => (branch, paths[i]))
  }

  /** The probes in the order they are tried: every path on `main`, then every path on `master`. */
  function Probes(paths: seq<string>): seq<(string, string)> {
    Row(Branches[0], paths) + Row(Branches[1], paths)
  }

  /** Where the row of branch `b` starts in the probe order (`b * |paths|`, for the two branches). */
  function RowStart(b: nat, paths: seq<string>): nat {
    if b == 0 then 0 else if b == 1 then |paths| else 2 * |paths|
  }

  lemma ProbeAt(paths: seq<string>, b: nat, p: nat)
    requires b < |Branches| && p < |paths|
    ensures RowStart(b, paths) + p < |Probes(paths)| && Probes(paths)[RowStart(b, paths) + p] == (Branches[b], paths[p])
  {
  }

  /** Every path is tried on `main` before any path is tried on `master`. */
  lemma BranchMajor(paths: seq<string>)
    ensures |Probes(paths)| == 2 * |paths|
    ensures forall k :: 0 <= k < |paths| ==> Probes(paths)[k] == ("main", paths[k])
    ensures forall k :: |paths| <= k < 2 * |paths| ==> Probes(paths)[k] == ("master", paths[k - |paths|])
  {
  }

  /** The first probe from `from` on whose fetch succeeds. */
  function FirstOk(owner: string, repo: string, probes: seq<(string, string)>, fetch: string -> HttpOutcome, from: nat)
    : (r: Option<nat>)
    requires from <= |probes|
    ensures r.Some? ==> from <= r.value < |probes| && IsOk(fetch(RawUrl(owner, repo, probes[r.value])))
    ensures r.Some? ==> forall k :: from <= k < r.value ==> !IsOk(fetch(RawUrl(owner, repo, probes[k])))
    ensures r.None? ==> forall k :: from <= k < |probes| ==> !IsOk(fetch(RawUrl(owner, repo, probes[k])))
    decreases |probes| - from
  {
    if from == |probes| then None
    else if IsOk(fetch(RawUrl(owner, repo, probes[from]))) then Some(from)
    else FirstOk(owner, repo, probes, fetch, from + 1)
  }

  /** What the probing of `paths` on both branches of `owner/repo` returns. */
  function LocateIn(owner: string, repo: string, paths: seq<string>, fetch: string -> HttpOutcome, yaml: string -> YamlOutcome)
    : Option<SkillMdResult>
  {
    var probes := Probes(paths);
    match FirstOk(owner, repo, probes, fetch, 0)
    case None => None
    case Some(k) =>
      var o := fetch(RawUrl(owner, repo, probes[k]));
      Some(SkillMdResult(ParseSkillFrontmatter(o.body, yaml), probes[k].0, probes[k].1))
  }

  /** What `fetchSkillFrontmatter` returns for a listing. */
  function Locate(skill: RawSkillListing, fetch: string -> HttpOutcome, yaml: string -> YamlOutcome): Option<SkillMdResult> {
    LocateIn(skill.owner, skill.repo, CandidatePaths(skill.owner, skill.repo, skill.skillId), fetch, yaml)
  }

  /** A probe that succeeds after a run of failures is the first success. */
  lemma {:induction false} FirstOkAt(owner: string, repo: string, probes: seq<(string, string)>, fetch: string -> HttpOutcome, from: nat, k: nat)
    requires from <= k < |probes| && IsOk(fetch(RawUrl(owner, repo, probes[k])))
    requires forall l :: from <= l < k ==> !IsOk(fetch(RawUrl(owner, repo, probes[l])))
    ensures FirstOk(owner, repo, probes, fetch, from) == Some(k)
    decreases k - from
  {
    if from < k {
      FirstOkAt(owner, repo, probes, fetch, from + 1, k);
    }
  }

  /** When every probe from `from` on fails, there is no first success. */
  lemma {:induction false} FirstOkNone(owner: string, repo: string, probes: seq<(string, string)>, fetch: string -> HttpOutcome, from: nat)
    requires from <= |probes|
    requires forall l :: from <= l < |probes| ==> !IsOk(fetch(RawUrl(owner, repo, probes[l])))
    ensures FirstOk(owner, repo, probes, fetch, from) == None
    decreases |probes| - from
  {
    if from < |probes| {
      FirstOkNone(owner, repo, probes, fetch, from + 1);
    }
  }

  /**
   * `fetchSkillFrontmatter`: builds the candidate paths, then tries them
   * branch by branch through `ProbePaths`.
   */
  method FetchSkillFrontmatter(skill: RawSkillListing, fetch: string -> HttpOutcome, yaml: string -> YamlOutcome)
    returns (r: Option<SkillMdResult>)
    ensures r == Locate(skill, fetch, yaml)
  {
    var filePaths := BuildFilePaths(skill.owner, skill.repo, skill.skillId);
    r := ProbePaths(skill.owner, skill.repo, filePaths, fetch, yaml);
  }

  /**
   * The two loops of `fetchSkillFrontmatter`: the branch loop around the
   * path loop, returning at the first 2xx response.
   */
  method ProbePaths(owner: string, repo: string, filePaths: seq<string>, fetch: string -> HttpOutcome, yaml: string -> YamlOutcome)
    returns (r: Option<SkillMdResult>)
    ensures r == LocateIn(owner, repo, filePaths, fetch, yaml)
  {
    ghost var probes := Probes(filePaths);
    ghost var done := 0;
    for b := 0 to |Branches|
      invariant done == RowStart(b, filePaths)
      invariant forall k {:trigger RawUrl(owner, repo, probes[k])} :: 0 <= k < done ==> !IsOk(fetch(RawUrl(owner, repo, probes[k])))
    {
      for p := 0 to |filePaths|
        invariant done == RowStart(b, filePaths) + p
        invariant forall k {:trigger RawUrl(owner, repo, probes[k])} :: 0 <= k < done ==> !IsOk(fetch(RawUrl(owner, repo, probes[k])))
      {
        var url := RawUrl(owner, repo, (Branches[b], filePaths[p]));
        ProbeAt(filePaths, b, p);
        var response := fetch(url);
        if IsOk(response) {
          var frontmatter := ParseSkillFrontmatter(response.body, yaml);
          FirstOkAt(owner, repo, probes, fetch, 0, done);
          return Some(SkillMdResult(frontmatter, Branches[b], filePaths[p]));
        }
        done := done + 1;
      }
    }
    FirstOkNone(owner, repo, probes, fetch, 0);
    r := None;
  }

  /** No SKILL.md is found exactly when every probe fails; a found one may have no front matter. */
  lemma LocateOutcome(skill: RawSkillListing, fetch: string -> HttpOutcome, yaml: string -> YamlOutcome)
    ensures var probes := Probes(CandidatePaths(skill.owner, skill.repo, skill.skillId));
      Locate(skill, fetch, yaml).None? <==>
        forall k :: 0 <= k < |probes| ==> !IsOk(fetch(RawUrl(skill.owner, skill.repo, probes[k])))
    ensures var probes := Probes(CandidatePaths(skill.owner, skill.repo, skill.skillId));
      var r := Locate(skill, fetch, yaml);
      r.Some? ==>
        exists k :: 0 <= k < |probes| && probes[k] == (r.value.branch, r.value.path)
          && IsOk(fetch(RawUrl(skill.owner, skill.repo, probes[k])))
          && r.value.frontmatter == ParseSkillFrontmatter(fetch(RawUrl(skill.owner, skill.repo, probes[k])).body, yaml)
          && forall l :: 0 <= l < k ==> !IsOk(fetch(RawUrl(skill.owner, skill.repo, probes[l])))
  {
    var probes := Probes(CandidatePaths(skill.owner, skill.repo, skill.skillId));
    var hit := FirstOk(skill.owner, skill.repo, probes, fetch, 0);
    if hit.Some? {
      var k := hit.value;
      assert probes[k] == (Locate(skill, fetch, yaml).value.branch, Locate(skill, fetch, yaml).value.path);
    } else if |probes| > 0 {
      assert !IsOk(fetch(RawUrl(skill.owner, skill.repo, probes[0])));
    }
  }

  // ---------------------------------------------------------------------
  // The full crawl

  datatype CrawledSkill = CrawledSkill(
    listing: RawSkillListing,
    frontmatter: Option<YamlDocument>,
    branch: Option<string>,
    skillMdPath: Option<string>,
    skillMdFound: bool,
    error: Option<string>)

  /** The record made for one listing from what the SKILL.md probe found. */
  function CrawledOf(listing: RawSkillListing, found: Option<SkillMdResult>): (r: CrawledSkill)
    ensures r.listing == listing && (r.skillMdFound <==> found.Some?)
    ensures found.Some? ==> r.frontmatter == found.value.frontmatter && r.branch == Some(found.value.branch)
                            && r.skillMdPath == Some(found.value.path) && r.error.None?
    ensures found.None? ==> r.frontmatter.None? && r.error == Some(NotFoundMessage)
  {
    match found
    case Some(m) => CrawledSkill(listing, m.frontmatter, Some(m.branch), Some(m.path), true, None)
    case None => CrawledSkill(listing, None, None, None, false, Some(NotFoundMessage))
  }

  /**
   * `crawlAndFetchAll`: one record per listing, in order, with a 1500 ms wait
   * between consecutive listings. A failing page crawl is passed on. The
   * waits of the page crawl's browse loop come first, as `pageWaits`.
   */
  method CrawlAndFetchAll(options: CrawlOptions, fetch: string -> HttpOutcome, anchors: string -> seq<Anchor>,
                          yaml: string -> YamlOutcome)
    returns (r: Result<seq<CrawledSkill>>, ghost pageWaits: seq<nat>, ghost listingDelays: seq<nat>)
    ensures var page := CrawlPage(options, fetch, anchors).0;
      (r.Failure? <==> page.Failure?) && (r.Failure? ==> r.error == page.error && listingDelays == [])
    ensures pageWaits == CrawlPage(options, fetch, anchors).1
    ensures var page := CrawlPage(options, fetch, anchors).0;
      r.Success? ==>
        |r.value| == |page.value|
        && (forall i :: 0 <= i < |r.value| ==> r.value[i] == CrawledOf(page.value[i], Locate(page.value[i], fetch, yaml)))
        && |listingDelays| == (if |page.value| == 0 then 0 else |page.value| - 1)
        && (forall k :: 0 <= k < |listingDelays| ==> listingDelays[k] == RequestDelay)
  {
    var listings;
    listings, pageWaits := CrawlSkillsShPage(options, fetch, anchors);
    listingDelays := [];
    if listings.Failure? {
      return Failure(listings.error), pageWaits, listingDelays;
    }
    var results;
    results, listingDelays := FetchEach(listings.value, fetch, yaml);
    r := Success(results);
  }

  /** One listing of `crawlAndFetchAll`: the SKILL.md lookup and the record built from it. */
  method FetchOne(listing: RawSkillListing, fetch: string -> HttpOutcome, yaml: string -> YamlOutcome)
    returns (record: CrawledSkill)
    ensures record == CrawledOf(listing, Locate(listing, fetch, yaml))
  {
    var found := FetchSkillFrontmatter(listing, fetch, yaml);
    if found.Some? {
      var m := found.value;
      record := CrawledSkill(listing, m.frontmatter, Some(m.branch), Some(m.path), true, None);
    } else {
      record := CrawledSkill(listing, None, None, None, false, Some(NotFoundMessage));
    }
  }

  /** The loop of `crawlAndFetchAll` over the listings of a crawled page. */
  method FetchEach(ls: seq<RawSkillListing>, fetch: string -> HttpOutcome, yaml: string -> YamlOutcome)
    returns (results: seq<CrawledSkill>, ghost delays: seq<nat>)
    ensures |results| == |ls|
    ensures forall i :: 0 <= i < |ls| ==> results[i] == CrawledOf(ls[i], Locate(ls[i], fetch, yaml))
    ensures |delays| == (if |ls| == 0 then 0 else |ls| - 1) && forall k :: 0 <= k < |delays| ==> delays[k] == RequestDelay
  {
    results, delays := [], [];
    if |ls| == 0 {
      return;
    }
    for i := 0 to |ls|
      invariant |results| == i
      invariant forall k {:trigger results[k]} :: 0 <= k < i ==> results[k] == CrawledOf(ls[k], Locate(ls[k], fetch, yaml))
      invariant |delays| == (if i < |ls| then i else |ls| - 1) && forall k :: 0 <= k < |delays| ==> delays[k] == RequestDelay
    {
      var record := FetchOne(ls[i], fetch, yaml);
      results := results + [record];
      if i < |ls| - 1 {
        delays := delays + [RequestDelay];
      }
    }
  }
}
