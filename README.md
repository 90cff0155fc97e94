# SkillHub skill indexing and quality scoring, in Dafny

SkillHub is an agent builder. It gathers Claude skills from the skills.sh
directory, reads each skill's `SKILL.md` front matter and stores an index of
them. Users search that index, and an analyzer scores a front matter's
quality. This project models the decision logic of that pipeline and proves
what the code promises about it:

- **Quality scorer**: six bounded sub-scores, a total out of 100, a letter
  grade, an ordered list of improvement tips and a comment for each grade.
- **Analyzer parser**: the `---` front-matter block, with three distinct
  failure outcomes, and the split of GitHub file and repository URLs.
- **Crawler library**:
  - the root-page link filter and the `/owner/repo/skillId` split;
  - `<n>K` install counts;
  - the strategy chain over root links, browse pages and the known list;
  - first-wins de-duplication and the offset/limit window;
  - candidate `SKILL.md` paths and the branch-major probe loop;
  - the sequential crawl with its waits.
- **Crawl script** (the earlier prototype):
  - command-line arguments and `padRight`;
  - the alias-based extractor for JSON listing responses;
  - the three HTML strategies;
  - `fetchSkillMd` with its one-shot code-search fallback;
  - the fallback-list merge, and the name a code-search hit gets;
  - the selection window and result loop of `crawl`.
- **Sync engine**: a class holding the skill index as a `map`. It upserts
  each crawled skill under `(owner, repo, skillId)` and counts successes and
  failures.
- **Routes**: tag decoding and pagination of `GET /api/skills`, and the
  query gate and item mapping of `GET /api/skills/search`.
- **Validators**: the zod schemas, as predicates and parse functions over
  already-typed input.
- **E2E dashboard reporter**: a class that groups test results by suite,
  keeps counters, computes a pass rate and keeps a bounded run history.

The network, HTML parsing, YAML, JSON decoding of responses and the database
are parameters of the model:

- `fetch: string -> HttpOutcome` answers a response or a thrown error. It is
  stateless: the same URL always gets the same answer.
- `anchors` gives a page's `(href, text)` pairs in document order.
- `yaml` classifies a text as an error, a scalar or null, a sequence or a
  mapping.
- `json` decodes a response body.
- `db` and `failure` stand in for Prisma.

Waits are returned as traces of milliseconds. The one JSON function modelled
exactly is the round trip of a string array through `JSON.stringify` and the
route's `JSON.parse`.

One Dafny module corresponds to each source file:

| module | file |
|---|---|
| `QualityScore` | calculator.dfy |
| `QualityParser` | parser.dfy |
| `Crawler` | crawler.dfy |
| `SkillListing` | skill_listing.dfy (the listing logic shared by both crawlers) |
| `CrawlScript` | crawl_skills.dfy |
| `SkillSync` | skill_sync.dfy |
| `SkillsRoute` | skills_route.dfy |
| `SearchRoute` | search_route.dfy |
| `Schemas` | schemas.dfy |
| `SkillValidation`, `RecommendValidation`, `ReviewValidation` | the three files under `validations/`, with rules shared in `Rules` |
| `JsonReporter` | json_reporter.dfy |
| `Text`, `Json`, `Metadata`, `Wrappers` | helpers: JavaScript string operations, a JSON value type, the typed front matter and `Option` |

Where a test disagrees with the code, the model follows the code:

- `src/lib/__tests__/crawler.test.ts:151-173` expects the probe to go on
  past a 2xx response that has no front matter. `src/lib/crawler.ts:420-424`
  returns at the first 2xx response. `Crawler.LocateOutcome` states the
  code's behaviour: the first 2xx wins and its front matter may be absent.
- `src/lib/__tests__/crawler.test.ts:263-289` expects waits between probes
  of one listing. The code waits only between listings (`src/lib/crawler.ts:494-496`),
  and `Crawler.CrawlAndFetchAll` has exactly n−1 waits for n listings.
- `src/lib/__tests__/crawler.test.ts:4` imports `parseSkillLinks`, which
  `src/lib/crawler.ts:167` does not export. The model treats the function as
  internal.

## Model

| member | source | states |
|---|---|---|
| QualityScore.VersionTextMatches | src/lib/quality-score/calculator.ts:127 | Three ASCII digit runs joined by dots match `^\d+\.\d+\.\d+$`. |
| QualityScore.VersionMatchSplits | src/lib/quality-score/calculator.ts:127 | Every string that matches the version pattern is three digit runs joined by two dots (the converse of VersionTextMatches). |
| QualityScore.AxisBounds | src/lib/quality-score/calculator.ts:122-234 | Each axis stays within its maximum: core a multiple of 5 in 0..25, description 0..20, runtime a multiple of 5 in 0..15, resources in {0,7,8,15}, use cases in {0,5,10,15}, dependencies in {5,10}. |
| QualityScore.BreakdownTotal | src/lib/quality-score/calculator.ts:94-102 | The total is exactly the sum of the six axes, lies in 0..100, and the grade is the total's grade. |
| QualityScore.CoreFieldScoreFull | src/lib/quality-score/calculator.ts:122-132 | The core score is 25 if and only if name, description, a pattern-matching version, non-empty tags and author are all present. |
| QualityScore.DescriptionScoreExtremes | src/lib/quality-score/calculator.ts:139-162 | The description score is 0 iff the description is missing or empty. It is 20 iff the description has at least 200 characters and mentions both a problem term and a solution term. A description under 100 characters scores at most 17. |
| QualityScore.RuntimeScoreFull | src/lib/quality-score/calculator.ts:170-181 | The runtime score is 15 iff min_model is set and both tool lists are non-empty. |
| QualityScore.ResourcesScoreFull | src/lib/quality-score/calculator.ts:188-198 | The resources score is 15 iff base_tokens is positive and context_hint is set. A negative base_tokens earns at most 7. |
| QualityScore.UseCasesScoreByCount | src/lib/quality-score/calculator.ts:206-214 | The use-cases score is 5 per use case, capped at three. |
| QualityScore.DependenciesScoreHalf | src/lib/quality-score/calculator.ts:222-234 | The dependencies score is 5 iff some listed dependency lacks a version, and 10 otherwise (absent or empty list included). |
| QualityScore.GradeMonotone | src/lib/quality-score/calculator.ts:239-245 | A higher total never gets a worse grade. |
| QualityScore.GradeThresholds | src/lib/quality-score/calculator.ts:239-245 | The grades are S, A, B, C and D at thresholds 90, 80, 70 and 60. |
| QualityScore.GenerateAnalysisComment | src/lib/quality-score/calculator.ts:344-360 | The comment is the one for the grade of the scores and depends on nothing else. |
| QualityScore.CommentsDistinct | src/lib/quality-score/calculator.ts:344-360 | Different grades get different comments, so the comment identifies the grade. |
| QualityScore.TipsMatchFieldTips | src/lib/quality-score/calculator.ts:250-339 | The `score < max` guards in front of the tips never decide anything. The tip list is the list of tips whose field condition holds, in source order. |
| QualityScore.GuardsRedundant | src/lib/quality-score/calculator.ts:254-336 | When a group's field condition produces a tip, its axis is already below its maximum. |
| QualityScore.FieldTipsParts | src/lib/quality-score/calculator.ts:250-339 | Every tip is one of the eight field tips (name, tags, description, min_model, tools.required, base_tokens, context_hint, use cases), and the condition that causes it holds. |
| QualityScore.TipsWellFormed | src/lib/quality-score/calculator.ts:250-339 | Every tip is a well-formed tip for its field, and no tip concerns version, author or dependencies. |
| QualityScore.EmptyRequiredToolsNoTip | src/lib/quality-score/calculator.ts:286-302 | A present but empty tools.required earns 0 runtime points for that part and gets no tip. |
| QualityScore.NegativeBaseTokensNoTip | src/lib/quality-score/calculator.ts:306-314 | A negative base_tokens earns nothing and gets no tip. |
| QualityScore.PerfectScoreNoTips | src/lib/quality-score/calculator.ts:250-339 | A total of 100 produces no tips. |
| QualityScore.CalculateQualityScore | src/lib/quality-score/calculator.ts:82-112 | Each of the six scores is its axis function of the front matter, within its maximum (25, 20, 15, 15, 15, 10). The total is their sum, in 0..100. The grade is that of the total, the tips are the field tips, and the comment is the grade's. |
| QualityScore.EmptyFrontmatterAnalysis | src/lib/quality-score/calculator.ts:82-112 | `{}` scores 10 (dependencies only), grade D. It gets exactly eight tips in the order name, tags, description, min_model, tools.required, base_tokens, context_hint, use-cases, and the use-cases tip asks for 3 more. |
| QualityScore.EmptyBreakdown | src/lib/quality-score/calculator.ts:82-102 | The six axes of `{}` are 0, 0, 0, 0, 0 and 10. |
| QualityScore.EmptyFieldTips | src/lib/quality-score/calculator.ts:250-338 | `{}` gets all eight tips. |
| QualityScore.ThreeMoreUseCases | src/lib/quality-score/calculator.ts:333 | With no use cases, the tip text asks for 3 more. |
| QualityScore.CompleteFrontmatterAnalysis | src/lib/quality-score/calculator.ts:82-112 | A front matter that fills every axis scores 100 with grade S and no tips. |
| QualityParser.FindCloser | src/lib/quality-score/parser.ts:16 | The lazy block ends at the first position where `\r?\n---` starts, and no earlier position qualifies. |
| QualityParser.ParseFrontmatter | src/lib/quality-score/parser.ts:14-56 | Success holds iff a block is found and its YAML parses to an object (a mapping or a sequence), and then frontmatter is set and there is no error. Failure leaves frontmatter unset with an error. A missing block is the "not found" error; a null or scalar document is the "not an object" error without an errorLine; a YAML error carries the "YAML 파싱 오류: " prefix, and only it reports an errorLine. |
| QualityParser.ParseErrorsDistinct | src/lib/quality-score/parser.ts:22-52 | The "not found" and "not an object" messages differ, and neither can be a prefixed YAML error, so the three failures are distinct. |
| QualityParser.YamlErrorReported | src/lib/quality-score/parser.ts:46-55 | A YAML error fails with the prefixed message, or "Unknown error" when the message is empty, and with the error's line. |
| QualityParser.WrapRoundTrip | src/app/api/analyze/route.ts:36 | Wrapping a text t as `---\n` + t + `\n---` and extracting the block gives back t iff t contains no `\n---` and does not end in `\r`. |
| QualityParser.MatchBlob | src/lib/quality-score/parser.ts:117-129 | A file-URL match yields an owner over `[\w-]`, a repo and ref over `[\w.-]` and a non-empty path without line terminators, and the URL is exactly their blob form. |
| QualityParser.MatchRepo | src/lib/quality-score/parser.ts:118-140 | A repository-URL match yields ref `main` and path `SKILL.md`, and the URL is the repository form with or without a trailing slash. |
| QualityParser.ParseGitHubUrl | src/lib/quality-score/parser.ts:107-146 | Every accepted URL is rebuilt from its parts by one of the two shapes. Anything else fails with the fixed message. |
| QualityParser.ParseBlobUrl | src/lib/quality-score/parser.ts:117-129 | Round trip: the blob URL of any valid owner, repo, ref and path parses back to exactly those four. |
| QualityParser.ParseRepoUrl | src/lib/quality-score/parser.ts:118-140 | The repository URL, with or without a trailing slash, parses to that owner and repo on `main` at `SKILL.md`. |
| QualityParser.ParseGitHubUrlRejects | src/lib/quality-score/parser.ts:142-145 | A URL that matches neither pattern gets success false and the error message. |
| QualityParser.TakeRunOf | src/lib/quality-score/parser.ts:117-118 | A character class with no `/` takes exactly the run in front of the first character outside it. |
| Crawler.TryBrowsePages | src/lib/crawler.ts:212-256 | The loop's listings and waits are those of the browse specification function. |
| Crawler.BrowseSkip | src/lib/crawler.ts:223 | A page with a non-2xx status is skipped with no wait. |
| Crawler.BrowseWait | src/lib/crawler.ts:244-252 | A page that throws, or is fetched but yields nothing, is followed by a 500 ms wait. |
| Crawler.BrowseFound | src/lib/crawler.ts:244-248 | A page that yields listings ends the loop with those listings. |
| Crawler.BrowseMisses | src/lib/crawler.ts:212-256 | When no browse page yields listings, the loop gives nothing. |
| Crawler.BrowseFirstHit | src/lib/crawler.ts:212-256 | The loop gives exactly the listings of the first page that yields any. |
| Crawler.BrowseWaits | src/lib/crawler.ts:249-252 | Every wait is 500 ms, with at most one per browse page. |
| Crawler.EffectiveLimit | src/lib/crawler.ts:93-97 | A given limit x yields min(x, 50): x itself up to 50, and 50 above it. With no limit it is 10. |
| Crawler.CrawlSkillsShPage | src/lib/crawler.ts:90-162 | The method's result and waits are those of the page specification function. |
| Crawler.CandidatesOrder | src/lib/crawler.ts:136-149 | The strategies are taken in order: root links if there are any, else browse pages if they give any, else the known list. |
| Crawler.CrawlPageFails | src/lib/crawler.ts:100-105 | The page crawl throws exactly when the root page is not 2xx, with the message built from status and status text. |
| Crawler.CrawlPageOk | src/lib/crawler.ts:136-161 | With a 2xx root page, the result is `unique.slice(offset, offset + limit)` of the de-duplicated candidates. |
| Crawler.CrawlPageListings | src/lib/crawler.ts:152-161 | A crawled page has pairwise distinct owner/repo/skillId keys and at most 50 listings. |
| Crawler.CrawlPageWindow | src/lib/crawler.ts:93-161 | For 0 ≤ offset and limit, the page is the window `[offset, offset + limit)` of the de-duplicated candidates. |
| Crawler.PageWindow | src/lib/crawler.ts:152-161 | A window of the de-duplicated candidates has at most limit entries with distinct keys. |
| Crawler.LastBelowLargest | src/lib/crawler.ts:356 | The opener's backtracking search finds the largest qualifying position, and finds none only when none qualifies. |
| Crawler.OpenerBelow | src/lib/crawler.ts:356 | The chosen opener line break lies after `---` and is followed later by a closer. |
| Crawler.CrawlerBlock | src/lib/crawler.ts:355-357 | A block exists only for text that starts with `---`. |
| Crawler.ParseSkillFrontmatter | src/lib/crawler.ts:355-368 | The result is set iff a block exists and its YAML parses to an object (a sequence included), and it is then that document. Nothing throws. |
| Crawler.SkillFileBlock | src/lib/crawler.ts:355-357 | Round trip: a body with no `\n---` that does not start with white space, written as `---\n` + body + `\n---`, has exactly that body as its block. |
| Crawler.StrippedPaths | src/lib/crawler.ts:396-403 | Two paths are added for each matching prefix, duplicates kept. |
| Crawler.BuildFilePaths | src/lib/crawler.ts:386-406 | The method builds exactly the candidate path list. |
| Crawler.CandidatePathsShape | src/lib/crawler.ts:386-406 | The list always ends in `SKILL.md`, `.claude/SKILL.md`. It has only those two iff skillId is empty or equals repo. Otherwise the four skillId paths come first and two paths follow per matching prefix. |
| Crawler.BranchMajor | src/lib/crawler.ts:408-410 | Every path is probed on `main` before any path is probed on `master`. |
| Crawler.FirstOk | src/lib/crawler.ts:408-429 | The probe found is 2xx and every earlier probe is not, or no probe is 2xx at all. |
| Crawler.FirstOkAt | src/lib/crawler.ts:408-429 | When probe k is the first 2xx, the search finds exactly k. |
| Crawler.FirstOkNone | src/lib/crawler.ts:431 | When every probe fails, nothing is found. |
| Crawler.FetchSkillFrontmatter | src/lib/crawler.ts:380-432 | The method's answer is that of the lookup specification function. |
| Crawler.ProbePaths | src/lib/crawler.ts:408-431 | The nested branch and path loops with early return compute the lookup specification. |
| Crawler.LocateOutcome | src/lib/crawler.ts:408-431 | The result is null iff every probe fails. Otherwise it gives the first 2xx probe's branch and path, and its parsed front matter, which may be null. |
| Crawler.CrawledOf | src/lib/crawler.ts:465-480 | The record keeps the listing, and skillMdFound holds iff the lookup found something. A not-found record has no front matter and the not-found error. |
| Crawler.CrawlAndFetchAll | src/lib/crawler.ts:446-500 | The page crawl's browse waits come first, exactly as the page specification gives them. A page-crawl failure propagates with no listing delays. Otherwise there is exactly one record per listing, in order, and there are exactly n−1 delays of 1500 ms between listings (none for an empty page). |
| Crawler.FetchEach | src/lib/crawler.ts:459-497 | The loop makes one record per listing, in order, with n−1 waits of 1500 ms. |
| SkillListing.FilterMapAppend | src/lib/crawler.ts:172-204 | The push loops keep order: filtering a concatenation is concatenating the filtered parts. |
| SkillListing.FilterMapMembers | src/lib/crawler.ts:172-204 | An output element is exactly a defined image of some input. |
| SkillListing.Collect | src/lib/crawler.ts:172-204 | The push loop computes the filtered map of its input. |
| SkillListing.CollectLinks | src/lib/crawler.ts:113-132 | The anchor loop keeps the links whose href passes the filter, in document order, with trimmed text. |
| SkillListing.KeptLinksMembers | src/lib/crawler.ts:113-132 | A link is kept iff some anchor's href passes the filter. |
| SkillListing.SkillHrefOf | src/lib/crawler.ts:119-130 | `/owner/repo` over `[A-Za-z0-9_-]`, followed by anything, passes the skill-href test. |
| SkillListing.SkillHrefSegments | src/lib/crawler.ts:119-130 | A candidate href always has at least two non-empty segments, so it yields a listing. |
| SkillListing.KSuffix | src/lib/crawler.ts:181 | The match of `([\d.]+)K\s*$` is a run of digits and dots that ends at the last non-space character, a `K`, and starts as far left as the run goes. |
| SkillListing.KSuffixNone | src/lib/crawler.ts:181 | No match means every final `K` lacks a digit or dot before it. |
| SkillListing.RoundHalfUp | src/lib/crawler.ts:182 | Rounding to the nearest integer with halves up, as `Math.round` does for these non-negative values. |
| SkillListing.InstallsOfDecimal | src/lib/crawler.ts:180-184 | `<w>.<f>K` with at most three fraction digits counts w·1000 + f·10^(3−\|f\|) installs. |
| SkillListing.InstallsOfWhole | src/lib/crawler.ts:180-184 | `<w>K` counts w·1000 installs. |
| SkillListing.InstallsExamples | src/lib/crawler.ts:180-184 | "Find Skills 162.2K" counts 162200 and "My Skill" counts 0. |
| SkillListing.NoSuffixNoInstalls | src/lib/crawler.ts:180-184 | A text that does not end in `K` (ignoring trailing white space) counts 0. |
| SkillListing.ListingOf | src/lib/crawler.ts:175-203 | A listing exists iff the href has at least two segments, and then url is base + href and the name is the skill id. |
| SkillListing.ParseSkillLinks | src/lib/crawler.ts:167-207 | The method computes the parsed listings of the links, in order. |
| SkillListing.ListingOfSkillPath | src/lib/crawler.ts:175-193 | `/owner/repo/s1/…/sn` gives owner, repo, skill id and name `s1/…/sn` and the text's install count. |
| SkillListing.ListingOfRepoPath | src/lib/crawler.ts:194-203 | `/owner/repo` gives the repo as name and skill id, with 0 installs. |
| SkillListing.RootCandidatesAllParse | src/lib/crawler.ts:113-207 | No root candidate is lost between the filter and the parse. |
| SkillListing.DedupByKey | src/lib/crawler.ts:152-158 | The `seen`-set loop computes the first-wins de-duplication. |
| SkillListing.DedupKeys | src/lib/crawler.ts:152-158 | De-duplication loses no key. |
| SkillListing.DedupDistinct | src/lib/crawler.ts:152-158 | The kept listings have pairwise distinct keys. |
| SkillListing.DedupKeepsFirsts | src/lib/crawler.ts:152-158 | Every kept listing is the first input listing with its key. |
| SkillListing.DedupKeepsEveryFirst | src/lib/crawler.ts:152-158 | The first listing with each key is kept. |
| SkillListing.DedupDistinctIdentity | src/lib/crawler.ts:152-158 | A list whose keys are already distinct is unchanged. |
| SkillListing.JsSlice | src/lib/crawler.ts:161 | `slice` clamps its bounds as JavaScript does, and the result is a contiguous part of the input no longer than the window. |
| SkillListing.JsSliceWindow | src/lib/crawler.ts:161 | For non-negative offset and count, the slice is `xs[min(offset,n)..min(offset+count,n)]`, at most count long. |
| CrawlScript.ParseInt | scripts/crawl-skills.ts:120-127 | `parseInt` is NaN exactly when no digit follows the optional white space and sign. |
| CrawlScript.ParseIntOfText | scripts/crawl-skills.ts:120-127 | Round trip: the decimal text of any integer parses back to it. |
| CrawlScript.LimitValueOf | scripts/crawl-skills.ts:120-123 | A positive value is capped at 50, NaN or 0 gives the default 10, and a negative value passes through unchanged. |
| CrawlScript.OffsetValueOf | scripts/crawl-skills.ts:124-127 | The offset is the parsed value, or 0 for NaN. |
| CrawlScript.ArgStep | scripts/crawl-skills.ts:119-130 | One pass of the loop body, with its in-loop `i++` steps, always advances the index and never past the end. |
| CrawlScript.ArgsDryRun | scripts/crawl-skills.ts:128 | dryRun is set iff `--dry-run` occurs among the arguments. |
| CrawlScript.ArgsVerbose | scripts/crawl-skills.ts:129 | verbose is set iff `--verbose` or `-v` occurs. |
| CrawlScript.ArgsLimitInRange | scripts/crawl-skills.ts:120-123 | The limit stays non-zero and at most 50. |
| CrawlScript.ParseArgs | scripts/crawl-skills.ts:112-133 | The index loop computes the argument passes. dryRun and verbose are set iff their flags occur. The limit is non-zero and at most 50, and stays 10 without `--limit`. The offset stays 0 without `--offset`. |
| CrawlScript.LimitFlag | scripts/crawl-skills.ts:120-123 | `--limit v` alone sets the limit from v. |
| CrawlScript.OffsetFlag | scripts/crawl-skills.ts:124-127 | `--offset v` alone sets the offset from v. |
| CrawlScript.DanglingValueFlag | scripts/crawl-skills.ts:120-127 | A value flag with no following argument, or an empty one, changes nothing. |
| CrawlScript.PadRight | scripts/crawl-skills.ts:929-931 | For n ≥ 0 the result has exactly n characters: a prefix of s, then spaces. |
| CrawlScript.TruthyText | scripts/crawl-skills.ts:1149 | `v \|\| undefined`: a text field is kept iff its value is truthy, and a string keeps its text. |
| CrawlScript.DefinedText | scripts/crawl-skills.ts:428 | A plain `as string \| undefined` cast: the field is kept iff it is defined, falsy values included, and a string keeps its text. |
| CrawlScript.ApiDescription | scripts/crawl-skills.ts:428 | The description is a truthy description, otherwise the summary as it is (an empty one included), and none when both are missing. |
| CrawlScript.EmptySummaryKept | scripts/crawl-skills.ts:413-429 | The item `{"name":"x","summary":""}` is kept with the empty text as its description. |
| CrawlScript.ApiEntry | scripts/crawl-skills.ts:413-429 | An item yields a listing iff it is an object with a truthy name alias, or both an owner and a repo alias, and the listing is then its record, whose description keeps a falsy summary. |
| CrawlScript.AliasPrecedence | scripts/crawl-skills.ts:416-428 | The precedences are name ← name, title, skill_name; owner ← owner, user, author; repo ← repo, repository; skillId ← id, skill_id, name. Each is tried left to right and a missing one reads "unknown". |
| CrawlScript.OwnerRepoOnly | scripts/crawl-skills.ts:413-429 | An item with only owner and repo is kept, named "unknown". |
| CrawlScript.CandidateValues | scripts/crawl-skills.ts:401-407 | Five candidates are tried: `skills`, `data`, `items`, `results`, then the value itself. |
| CrawlScript.FirstEntriesNone | scripts/crawl-skills.ts:409-434 | Nothing is extracted iff no candidate yields an entry. |
| CrawlScript.FirstEntriesWitness | scripts/crawl-skills.ts:409-434 | The first candidate that yields entries is taken whole, and every earlier one yields none. |
| CrawlScript.ApiEntriesFromItems | scripts/crawl-skills.ts:395-437 | Every extracted entry is the record of a kept object item of one candidate array. |
| CrawlScript.ExtractSkillsFromApiResponse | scripts/crawl-skills.ts:395-437 | The nested loops with their `break` compute the extractor's result. |
| CrawlScript.LinkInstalls | scripts/crawl-skills.ts:486-489 | A root link without a K suffix has installs undefined, not 0. |
| CrawlScript.ScriptListingOf | scripts/crawl-skills.ts:473-509 | A listing exists iff there are at least two segments. A two-segment link, and a link with no K suffix, has undefined installs. |
| CrawlScript.BrowseEntry | scripts/crawl-skills.ts:528-541 | A browse anchor gives a listing iff it is a candidate href (which skips hrefs containing "."). The listing has owner and repo, the last segment as name, the third segment or the repo as skillId, and a description iff the text is non-empty. |
| CrawlScript.HtmlSkillsShape | scripts/crawl-skills.ts:558-567 | The extracted listings have distinct keys, are the first-of-key prefix of the de-duplicated candidates, and, for a non-negative limit, number exactly min(limit, unique). |
| CrawlScript.BrowseHit | scripts/crawl-skills.ts:545-548 | A browse page with listings ends the loop with no further wait. |
| CrawlScript.BrowseStep | scripts/crawl-skills.ts:553 | A browse page without listings is followed by a wait and the next page. |
| CrawlScript.ExtractSkillsFromHtml | scripts/crawl-skills.ts:443-568 | The three strategies, the `seen` filter and the cut compute the HTML specification. |
| CrawlScript.SearchPath | scripts/crawl-skills.ts:717-722 | For an `items` array, the path found is `items[0].path` when the guard passes and the access does not throw. |
| CrawlScript.SearchBranches | scripts/crawl-skills.ts:723-735 | A found file is on the first branch whose raw fetch is 2xx, every earlier branch answered non-2xx, and the path is the one the search found. |
| CrawlScript.FallbackAfterProbes | scripts/crawl-skills.ts:656-743 | The library's answer (same paths, branch-major) is kept whenever it found something or skillId is empty. The answer differs only when skillId is non-empty and every probe failed; it is then the code-search fallback's, from the search's first path on some branch. |
| CrawlScript.FetchSkillMd | scripts/crawl-skills.ts:641-744 | The method computes the lookup specification. |
| CrawlScript.DiscoveredEntry | scripts/crawl-skills.ts:1137-1150 | A code-search hit gives an entry iff it has a repository with an owner and a string path. The entry's name is its skill id and it has no installs. |
| CrawlScript.DiscoveredNameOf | scripts/crawl-skills.ts:1137-1141 | The name is the file's parent directory, or the repo when the path has no "/". |
| CrawlScript.DiscoveredPrefix | scripts/crawl-skills.ts:1131-1167 | The hits pushed before the first throwing one are kept. |
| CrawlScript.FreshEntries | scripts/crawl-skills.ts:1077-1084 | Added entries come from the discovered list, have unseen keys, and no key is added twice. |
| CrawlScript.MergedShape | scripts/crawl-skills.ts:1077-1084 | The known list stays in front. Each later entry is a discovered one with a key not in the known list, no key is added twice, and every discovered key ends up present. |
| CrawlScript.FallbackKnownFirst | scripts/crawl-skills.ts:1077-1090 | Up to the known list's length, the fallback is the known list's prefix. |
| CrawlScript.DiscoverViaGitHub | scripts/crawl-skills.ts:1097-1170 | The method computes the discovery specification. Every failure gives nothing. |
| CrawlScript.FetchFallbackSkills | scripts/crawl-skills.ts:942-1091 | The result is the merge of the known list and the discoveries, cut to limit. |
| CrawlScript.CrawlCounts | scripts/crawl-skills.ts:750-927 | successful + failed = the number of records = totalCrawled. Each selected listing gets one record, in order, and its success matches the lookup. A dry run fetches nothing. |
| CrawlScript.HtmlWindow | scripts/crawl-skills.ts:791-797 | With a non-negative offset and limit, the selection is `[offset, offset + limit)` of the de-duplicated candidates. |
| CrawlScript.FetchLoop | scripts/crawl-skills.ts:828-879 | One record per listing, in order. The counters count found and missing files, and there are n−1 waits of the request delay. |
| CrawlScript.FetchAll | scripts/crawl-skills.ts:828-879 | The records are the fetch loop's records. successful and failed count them, with n−1 waits. |
| CrawlScript.Crawl | scripts/crawl-skills.ts:750-927 | The method's result and waits are those of the crawl specification. |
| SkillSync.SkillIndex.Upsert | src/lib/skill-sync.ts:54-69 | The row under the key is created or overwritten and no other row changes. |
| SkillSync.SharedDataFields | src/lib/skill-sync.ts:33-52 | The name is the front matter's if non-empty, else the listing's. The description is the front matter's, else the listing's, else "". The tags are the front matter's whenever present (even empty), else []. The url is the listing's. |
| SkillSync.ListingFallback | src/lib/skill-sync.ts:33-39 | Without usable front matter, the name and description come from the listing and the tags are []. |
| SkillSync.ErrorTextMentions | src/lib/skill-sync.ts:72-79 | The error text names owner/repo/skillId and the underlying message. |
| SkillSync.ErrorsOf | src/lib/skill-sync.ts:72-79 | There is one error per failing upsert, each built from that skill's listing and message. |
| SkillSync.SummaryCounts | src/lib/skill-sync.ts:82-88 | synced + failed = total = the number of skills, and the number of errors = failed. |
| SkillSync.MixedResults | src/lib/skill-sync.ts:22-89 | Three skills with the second failing give 2 synced, 1 failed and one error naming the second. |
| SkillSync.LastWrite | src/lib/skill-sync.ts:54-69 | The last skill with the key whose upsert succeeded. |
| SkillSync.AppliedLookup | src/lib/skill-sync.ts:54-79 | Last write wins: a key holds the data of the last successful skill with it, and keys no success touched keep their old row. |
| SkillSync.SyncSkillsToDb | src/lib/skill-sync.ts:22-89 | The index becomes the old one with every successful upsert applied in order, and the summary counts, with its errors, are returned. |
| SkillsRoute.ParseTagsRoundTrip | src/app/api/skills/route.ts:31-36 | `parseTags(JSON.stringify(tags))` is tags for every string array. |
| SkillsRoute.SyncedRowTags | src/lib/skill-sync.ts:39 | A row written by the sync decodes to the tags the sync resolved. |
| SkillsRoute.ParseTagsSingle | src/app/api/skills/route.ts:31-36 | `'["testing"]'` style texts decode to the one tag. |
| SkillsRoute.ParseTagsNotArray | src/app/api/skills/route.ts:33-40 | Text that is empty, white space only, or does not start with `[` after its leading white space decodes to [] without throwing. |
| SkillsRoute.ParseTagsNonStringElement | src/app/api/skills/route.ts:33-37 | An array with an element that is not a string, after any number of string elements, decodes to []: the `every(typeof t === 'string')` test fails. |
| SkillsRoute.ParseTagsRejected | src/app/api/skills/route.ts:31-40 | `" 5"`, the malformed `[`, `[1]` and `["a",1]` all decode to []. |
| SkillsRoute.TotalPages | src/app/api/skills/route.ts:107 | totalPages ≥ 1, is 1 for an empty result, and otherwise (totalPages−1)·limit < total ≤ totalPages·limit. |
| SkillsRoute.SkipNonNegative | src/app/api/skills/route.ts:89 | skip ≥ 0 for a validated page, and 0 on page 1. |
| SkillsRoute.PageStartsInside | src/app/api/skills/route.ts:89-107 | A page starts inside a non-empty result iff its number is at most totalPages. |
| SkillsRoute.Results | src/app/api/skills/route.ts:94-105 | Rows keep their order. Each result has its row's id, name, description, owner, repo, skillId, url, githubUrl and installs, and the row's tags decoded. |
| SkillsRoute.InvalidBeforeQuery | src/app/api/skills/route.ts:58-70 | Invalid parameters give 400 whatever the database would answer. A valid request depends only on the page it asks for. |
| SkillsRoute.OkResponse | src/app/api/skills/route.ts:109-115 | A success echoes the validated page and limit, and totalPages ≥ 1. |
| SkillsRoute.MissingQueryRejected | src/app/api/skills/route.ts:58-70 | A request without q gets 400. |
| SearchRoute.Truncate | src/app/api/skills/search/route.ts:78 | The result is the first 100 characters plus "..." iff the text is longer than 100, else the text unchanged. It is at most 103 long and agrees with the original on the first min(len,100) characters. |
| SearchRoute.TagNames | src/app/api/skills/search/route.ts:81 | The tag names, in order. |
| SearchRoute.ItemFields | src/app/api/skills/search/route.ts:75-83 | id, name and icon are unchanged. author is the username, tags are the tag names in order, grade is present iff there is a score, and the description is at most 103 long. |
| SearchRoute.ShortQueryNoLookup | src/app/api/skills/search/route.ts:12-21 | A missing query, or one under 2 characters after trimming, gives success with no items whatever the database holds. |
| SearchRoute.LongQueryLookup | src/app/api/skills/search/route.ts:12-104 | A longer query is looked up trimmed and echoed trimmed with its items. A database failure gives 500. |
| Schemas.ParseSkillSearchParams | src/lib/schemas.ts:7-11 | Accepted iff q is non-empty, page is a positive integer or absent, and limit is an integer in 1..100 or absent. The defaults are page 1 and limit 20. |
| Schemas.SearchParamsExamples | src/lib/schemas.ts:7-11 | The defaults, a missing q, limit 101 and page 0 behave as the schema says. |
| Schemas.ParseRole | src/lib/schemas.ts:18 | A role is accepted iff it is "user" or "assistant". |
| Schemas.RoleRoundTrip | src/lib/schemas.ts:18 | Each role's name parses back to it. |
| Schemas.ParseMessages | src/lib/schemas.ts:16-21 | Accepted iff every message has a known role and non-empty content, and the messages are kept in order. |
| Schemas.ParseChatRequest | src/lib/schemas.ts:15-29 | Accepted iff the messages are, and the optional context is passed through. |
| Schemas.ChatRequestExamples | src/lib/schemas.ts:15-29 | One user message is accepted with or without context, while empty content or role "system" is rejected. |
| Schemas.AgentNameRejects | src/lib/schemas.ts:34-37 | A name with an uppercase letter or a space is rejected. |
| Schemas.AgentFrontmatterMinimal | src/lib/schemas.ts:33-55 | A valid name and a description are enough: every option is optional. |
| Schemas.AgentFrontmatterExamples | src/lib/schemas.ts:39-43 | Model "opus" with 10 turns is accepted, while model "gpt" or 0 turns is rejected. |
| SkillValidation.CreateSkillAcceptsAnyTail | src/lib/validations/skill.ts:4-13 | Any URL of at most 500 characters that starts with the owner/repo prefix is accepted, because the pattern is open at the end. |
| SkillValidation.EmptyUpdateValid | src/lib/validations/skill.ts:16-22 | The empty update is valid. |
| SkillValidation.AcceptedVersionScores | src/lib/validations/skill.ts:19 | Any version the update schema accepts earns the 5 core-field points. |
| SkillValidation.ParseSkillQuery | src/lib/validations/skill.ts:25-34 | Accepted iff q is at most 200 characters and grade, model and sort are from their enumerations, with page ≥ 1 and limit in 1..100. The defaults are sort recent, page 1 and limit 20, and the other fields are passed through. |
| SkillValidation.EmptyQueryDefaults | src/lib/validations/skill.ts:25-34 | The empty query is page 1 of 20, most recent first. |
| RecommendValidation.ParseRecommend | src/lib/validations/recommend.ts:3-17 | Accepted iff the query is 1..500 characters, the filters are valid or absent, and the limit is an integer in 1..20 or absent (default 5). |
| RecommendValidation.MaxTokensBounds | src/lib/validations/recommend.ts:10 | maxTokens 0, 100001 and 1.5 are rejected, while 1 and 100000 are accepted. |
| RecommendValidation.AnalyzeUrlRejects | src/lib/validations/recommend.ts:19-24 | A URL that does not start with the GitHub owner/repo prefix is rejected. |
| RecommendValidation.EmptyFrontmatterRejected | src/lib/validations/recommend.ts:26-28 | An empty front matter text is rejected. |
| ReviewValidation.RatingsAccepted | src/lib/validations/review.ts:3-15 | A rating is valid iff it is an integer from 1 to 5. |
| ReviewValidation.CreateWithinUpdate | src/lib/validations/review.ts:3-15 | Whatever create accepts, update accepts, and update accepts more only when the rating is missing. |
| ReviewValidation.EmptyReviewInputs | src/lib/validations/review.ts:3-15 | Update accepts `{}` but create does not. |
| Rules.IntField | src/lib/schemas.ts:9-10 | An optional integer field with a range and a default is accepted iff it is absent or an in-range integer, and then it gives the default or the value. |
| Rules.GradeLettersOfGrades | src/lib/validations/skill.ts:28 | The grade enumeration is exactly the scorer's grade letters. |
| Rules.RepoPrefixShape | src/lib/validations/skill.ts:9 | The prefix pattern matches iff the URL is the GitHub host, an owner, "/", a repository name and any tail. |
| JsonReporter.TestData | e2e/reporters/json-reporter.ts:72-82 | An error is recorded only for status failed with an error present. |
| JsonReporter.CountsPartition | e2e/reporters/json-reporter.ts:86-103 | The five statuses partition the tests. |
| JsonReporter.TalliedWithin | e2e/reporters/json-reporter.ts:86-103 | passed + failed + skipped = tests − interrupted ≤ tests. |
| JsonReporter.Record | e2e/reporters/json-reporter.ts:84 | Recording keeps the suite name and appends exactly one test. |
| JsonReporter.RecordTallied | e2e/reporters/json-reporter.ts:84-103 | The counter updates keep passed, failed (with timed out) and skipped equal to the counts of their statuses. |
| JsonReporter.TotalsWithin | e2e/reporters/json-reporter.ts:110-118 | The run totals count no more outcomes than tests. |
| JsonReporter.PassRate | e2e/reporters/json-reporter.ts:125-127 | The pass rate is 0 for an empty run, otherwise the nearest integer to 100·passed/total, and always in 0..100. |
| JsonReporter.PassRateExtremes | e2e/reporters/json-reporter.ts:125-127 | No passes give 0 and all passes give 100. |
| JsonReporter.KeepLast | e2e/reporters/json-reporter.ts:158-160 | `slice(-50)` keeps the newest 50 entries. |
| JsonReporter.NextHistory | e2e/reporters/json-reporter.ts:148-161 | The history grows by one entry, newest last, capped at 50. |
| JsonReporter.HistoryBounded | e2e/reporters/json-reporter.ts:148-161 | At most 50 runs are kept, and the ones before the newest are the latest stored runs. |
| JsonReporter.JsonDashboardReporter.constructor | e2e/reporters/json-reporter.ts:47-50 | The reporter starts with no suites. |
| JsonReporter.JsonDashboardReporter.OnBegin | e2e/reporters/json-reporter.ts:52-56 | Only the start time changes. |
| JsonReporter.JsonDashboardReporter.OnTestEnd | e2e/reporters/json-reporter.ts:58-104 | The suite named by the parent title (or "Default Suite") is created empty on first use and gets one more record with its counter bumped. Other suites are unchanged, and the counters stay tallied. |
| JsonReporter.JsonDashboardReporter.Suites | e2e/reporters/json-reporter.ts:108 | The suites come in first-seen order, each tallied. |
| JsonReporter.JsonDashboardReporter.OnEnd | e2e/reporters/json-reporter.ts:106-161 | The dashboard has the run's duration, the suite totals and the suites, and the history is the next history. |
| JsonReporter.SummaryWithin | e2e/reporters/json-reporter.ts:110-127 | The summary counts no more outcomes than tests, and its pass rate is a percentage. |
| Json.Or | scripts/crawl-skills.ts:416-418 | `a \|\| b` is a when a is truthy and b otherwise, so it is truthy iff either side is. |
| Json.ParseStringifyStrings | src/app/api/skills/route.ts:31-36 | Parsing what `JSON.stringify` writes for a string array gives the array back. |
| Metadata.OrElse | src/lib/skill-sync.ts:33-37 | `a \|\| b` on optional strings. |
| Metadata.FieldsOf | src/lib/skill-sync.ts:33-39 | A mapping document gives its fields, and anything else gives the empty front matter. |
| Text.ToLower | src/lib/quality-score/calculator.ts:155-156 | Each character is lowercased in place, keeping the length. |
| Text.Trim | src/app/api/skills/search/route.ts:12 | The result has no white space at either end and is a contiguous part of the input. |
| Text.SegmentsOfPath | src/lib/crawler.ts:173 | `split('/').filter(Boolean)` of `/` + the joined non-empty parts gives the parts. |
| Text.SplitJoin | src/lib/crawler.ts:173 | Splitting a join on its separator gives back the parts. |

## Left out

- Network I/O, timeouts and sleeps: `fetch` is a stateless parameter, so the
  same URL always gets the same answer, and there is no timeout model. Waits
  are returned as traces.
- HTML parsing (cheerio): `anchors` returns a page's `(href, text)` pairs. The
  script's `analyzeSite` heuristics and `discoverApi` probing are
  parameters: the site analysis and the discovered list. `enrichSkillFromPage`
  sits behind `if (false)` in `crawl` (scripts/crawl-skills.ts:836-844), so
  that branch is not modelled.
- YAML parsing: `yaml` classifies a text as an error (with message and
  line), a scalar or null, a sequence or a mapping.
- Metadata.Frontmatter: the mapping's fields are assumed to have their
  declared types, and `base_tokens` is an integer. A fractional
  `base_tokens` such as 0.5 (8 points in the source) and a value of another
  type, such as `tags: "a"` (length 1 in the source), cannot be represented.
- JSON: `JSON.parse` of responses and of the embedded page data is the `json`
  parameter, and JSON values that are not strings are shown through a text
  rendering (`ToText`). The tag decoder is an exact parser for arrays of
  strings. It handles every escape, including surrogate pairs, but makes a
  lone surrogate escape fail, since a Dafny `char` cannot hold one.
- Prisma: the sync's upsert is a map update on `SkillIndex` with an injected
  per-item failure. The list query of the routes is the parameter `db`,
  without `contains`, `orderBy` or `take`.
- Floating point:
  - `estimateTokenCost` (src/lib/quality-score/calculator.ts:366-374) is not
    modelled.
  - Install counts are exact decimals. The lemmas about their values
    assume at most three fraction digits, where `parseFloat(x) * 1000` is
    exact.
  - `Math.round` is exact half-up rounding; exact ties can differ from
    binary floating point.
  - `Math.ceil(total / limit)` is exact integer division.
  - `parseInt` beyond 2^53 loses precision in the source but not in the
    model.
- Unicode: strings are sequences of Unicode scalar values, while the source's
  `.length` counts UTF-16 code units. `toLowerCase` only lowercases ASCII,
  `\s` is the JavaScript white-space set, and `\w` is ASCII.
- Zod internals: `.url()` is the parameter `isUrl`. `z.coerce.number` is left
  out, and numeric fields arrive as already-typed reals. Validation error
  details are reduced to rejection.
- CrawlScript.ApiRecord and CrawlScript.CrawlRecord: a truthy alias that
  is not a string (`"id": 5`, `"owner": {"login": …}`) keeps its JSON type
  in the source, and `fetchSkillMd` then throws a TypeError on
  `owner.split`, `repo.split` or `skillId.startsWith`
  (scripts/crawl-skills.ts:667-669). Nothing catches it in the fetch loop
  (scripts/crawl-skills.ts:846), so `crawl` rejects and `main` exits with
  status 1. The model renders the value as text (`ToText`) and the crawl
  goes on. The same rendering turns a falsy non-string description (`null`,
  `0`, `false`) into its text, where the source keeps the value itself.
- CrawlScript.SearchPath: an `items` value that is an object with a
  positive `length` and a `"0"` entry (`{"length": 1, "0": {"path": "p"}}`)
  passes the guard and is read like an array in the source; the model finds
  no path there. Such a value lies outside the declared response type.
- A listing from a JSON API item with no id alias and no name has the text
  "undefined" in its URL and skill id, as the template literal writes it.
- The catch in `crawlAndFetchAll` (src/lib/crawler.ts:481-490) cannot be
  reached, because `fetchSkillFrontmatter` catches every fetch error itself.
  `response.text()` failures are not modelled.
- CrawlScript.Crawl: its fetch loop looks each listing up through the lookup
  specification function. `CrawlScript.FetchSkillMd` is proved equal to that
  function but is not called from the loop.
- PadRight: for a negative n the source's
  `str.length >= len ? str.slice(0, len) : str + " ".repeat(len - str.length)`
  takes the `slice` branch, which drops characters from the end, and no
  length is stated for that case.
- Crawler.CrawlPageListings: the bound of 50 is stated only for a
  non-negative limit. For a negative limit, `slice` counts from the end and
  the size bound does not apply.
- Timestamps, `syncedAt`, console output, file writes, `mkdirSync` and
  `process.exit`. The reporter's history file is the parameter `stored`, and a
  stored history that parses to something other than an array is not
  modelled.
- Route glue and UI: the analyze, analyze/url, sync and chat routes and
  `fetchAndParseFrontmatter` are left out, apart from the wrapping in the
  analyze route that `QualityParser.WrapRoundTrip` states. So are the auth
  and Prisma setup and the pages and components.
- Concurrency: the sync route has no in-progress guard, so a 409 for
  concurrent syncs is not modelled.
- Full semantic versioning: the version pattern allows leading zeros and is
  modelled as written.
