/**
 * `GET /api/skills` (`src/app/api/skills/route.ts`): the search API over the
 * synced skill index. It validates the query parameters, counts and fetches
 * one page of rows, decodes each row's tag text and reports the number of
 * pages.
 *
 * The database is the parameter `db`: given the query text, the number of
 * rows to skip and the page size it answers the total count and the page of
 * rows, or `None` when it throws.
 */
module SkillsRoute {
  import opened Wrappers
  import opened Json
  import opened Schemas
  import SkillSync
  import Crawler

  // ---------------------------------------------------------------------
  // parseTags

  /** `JSON.parse` of the stored tag text when its value is an array of strings, otherwise []; it never fails. */
  function ParseTags(tagsJson: string): seq<string> {
    match ParseStrings(tagsJson)
    case Some(tags) => tags
    case None => []
  }

  /** Tags written by `JSON.stringify` decode to the same array. */
  lemma ParseTagsRoundTrip(tags: seq<string>)
    ensures ParseTags(StringifyStrings(tags)) == tags
  {
    ParseStringifyStrings(tags);
  }

  /** A row written by the sync engine decodes to the tags the sync resolved for it. */
  lemma SyncedRowTags(skill: Crawler.CrawledSkill)
    ensures ParseTags(SkillSync.SharedData(skill).tags) == SkillSync.ResolvedTags(skill.frontmatter)
  {
    ParseTagsRoundTrip(SkillSync.ResolvedTags(skill.frontmatter));
  }

  /** A one-tag array such as `'["testing"]'` decodes to that tag, when the tag needs no escapes. */
  lemma ParseTagsSingle(tag: string)
    requires forall k :: 0 <= k < |tag| ==> tag[k] != '"' && tag[k] != '\\' && (tag[k] as int) >= 0x20
    ensures ParseTags("[\"" + tag + "\"]") == [tag]
  {
    EscapePlain(tag);
    assert [tag][1..] == [];
    assert StringifyStrings([tag]) == "[\"" + tag + "\"]";
    ParseTagsRoundTrip([tag]);
  }

  /**
   * Text that is empty or white space only, or whose value, after any
   * leading white space, does not start an array, decodes to [].
   */
  lemma ParseTagsNotArray(text: string)
    requires |SkipSpace(text)| == 0 || SkipSpace(text)[0] != '['
    ensures ParseTags(text) == []
  {
  }

  /**
   * An array holding an element that is not a string, after any number of
   * string elements, decodes to [] (`[1]`, `["a",1]`, `[null]`).
   */
  lemma ParseTagsNonStringElement(tags: seq<string>, t: string)
    requires |t| > 0 && !IsJsonSpace(t[0]) && t[0] != '"' && t[0] != ']'
    ensures ParseTags("[" + QuotedElements(tags) + t) == []
  {
    ParseStringsNonString(tags, t);
  }

  /** Texts that are not arrays of strings, malformed ones included, decode to []. */
  lemma ParseTagsRejected()
    ensures ParseTags(" 5") == []
    ensures ParseTags("[") == []
    ensures ParseTags("[1]") == []
    ensures ParseTags("[\"a\",1]") == []
  {
    assert SkipSpace(" 5") == "5" by { assert " 5"[1..] == "5"; }
    assert "[" == "[" + QuotedElements([]) + "" ;
    assert "[1]" == "[" + QuotedElements([]) + "1]";
    ParseTagsNonStringElement([], "1]");
    assert QuotedElements(["a"]) == "\"a\",";
    assert "[\"a\",1]" == "[" + QuotedElements(["a"]) + "1]";
    ParseTagsNonStringElement(["a"], "1]");
  }

  // ---------------------------------------------------------------------
  // Pagination

  /** `(page - 1) * limit` */
  function Skip(page: int, limit: int): int {
    (page - 1) * limit
  }

  /** `total === 0 ? 1 : Math.ceil(total / limit)`, the division of two integers rounded up. */
  function TotalPages(total: nat, limit: int): (pages: nat)
    requires limit >= 1
    ensures pages >= 1
    ensures total == 0 ==> pages == 1
    ensures total > 0 ==> (pages - 1) * limit < total <= pages * limit
  {
    if total == 0 then 1
    else
      var pages := (total + limit - 1) / limit;
      assert pages * limit <= total + limit - 1 < pages * limit + limit;
      pages
  }

  /** The skip is never negative for a validated page. */
  lemma SkipNonNegative(page: int, limit: int)
    requires page >= 1 && limit >= 1
    ensures Skip(page, limit) >= 0
    ensures page == 1 ==> Skip(page, limit) == 0
  {
  }

  /** For a non-empty result, a page starts inside it iff its number is at most the number of pages. */
  lemma PageStartsInside(total: nat, page: int, limit: int)
    requires total > 0 && page >= 1 && limit >= 1
    ensures Skip(page, limit) < total <==> page <= TotalPages(total, limit)
  {
    var pages := TotalPages(total, limit);
    if page <= pages {
      MulMonotone(page - 1, pages - 1, limit);
    } else {
      MulMonotone(pages, page - 1, limit);
    }
  }

  lemma MulMonotone(a: int, b: int, c: int)
    requires 0 <= a <= b && c >= 0
    ensures a * c <= b * c
  {
  }

  // ---------------------------------------------------------------------
  // GET

  /** A row of the skill index, tags as stored text. */
  datatype SkillRow = SkillRow(
    id: string, name: string, description: string, owner: string, repo: string, skillId: string,
    url: string, githubUrl: string, tags: string, installs: int)

  /** A row as the API returns it, tags decoded. */
  datatype SkillSearchResult = SkillSearchResult(
    id: string, name: string, description: string, owner: string, repo: string, skillId: string,
    url: string, githubUrl: string, tags: seq<string>, installs: int)

  datatype SkillSearchResponse = SkillSearchResponse(
    skills: seq<SkillSearchResult>, total: nat, page: int, limit: int, totalPages: nat)

  datatype Response =
    | Ok(body: SkillSearchResponse)
    | InvalidParameters  // 400 "Invalid search parameters"
    | InternalError      // 500 "Internal server error"

  function ResultOf(row: SkillRow): SkillSearchResult {
    SkillSearchResult(row.id, row.name, row.description, row.owner, row.repo, row.skillId,
                      row.url, row.githubUrl, ParseTags(row.tags), row.installs)
  }

  /** The rows in database order, each with its tag text decoded and every other field unchanged. */
  function Results(rows: seq<SkillRow>): (r: seq<SkillSearchResult>)
    ensures |r| == |rows|
    ensures forall i :: 0 <= i < |rows| ==> r[i].tags == ParseTags(rows[i].tags)
    ensures forall i :: 0 <= i < |rows| ==> r[i].id == rows[i].id && r[i].installs == rows[i].installs
    ensures forall i :: 0 <= i < |rows| ==>
              r[i].name == rows[i].name && r[i].description == rows[i].description
              && r[i].owner == rows[i].owner && r[i].repo == rows[i].repo && r[i].skillId == rows[i].skillId
              && r[i].url == rows[i].url && r[i].githubUrl == rows[i].githubUrl
    decreases |rows|
  {
    if |rows| == 0 then [] else [ResultOf(rows[0])] + Results(rows[1..])
  }

  function SkillsGet(input: SearchParamsInput, db: (string, int, int) -> Option<(nat, seq<SkillRow>)>): Response {
    match ParseSkillSearchParams(input)
    case None => InvalidParameters
    case Some(p) =>
      match db(p.q, Skip(p.page, p.limit), p.limit)
      case None => InternalError
      case Some((total, rows)) =>
        Ok(SkillSearchResponse(Results(rows), total, p.page, p.limit, TotalPages(total, p.limit)))
  }

  /**
   * Invalid parameters are answered with 400 whatever the database would
   * say, so no query runs; a valid request asks the database only for the
   * page its parameters name.
   */
  lemma InvalidBeforeQuery(input: SearchParamsInput, db1: (string, int, int) -> Option<(nat, seq<SkillRow>)>,
                           db2: (string, int, int) -> Option<(nat, seq<SkillRow>)>)
    ensures ParseSkillSearchParams(input).None? ==> SkillsGet(input, db1) == InvalidParameters == SkillsGet(input, db2)
    ensures ParseSkillSearchParams(input).Some? ==>
      var p := ParseSkillSearchParams(input).value;
      (db1(p.q, Skip(p.page, p.limit), p.limit) == db2(p.q, Skip(p.page, p.limit), p.limit)
       ==> SkillsGet(input, db1) == SkillsGet(input, db2))
  {
  }

  /** A successful answer echoes the validated page and limit, and always reports at least one page. */
  lemma OkResponse(input: SearchParamsInput, db: (string, int, int) -> Option<(nat, seq<SkillRow>)>)
    requires SkillsGet(input, db).Ok?
    ensures ParseSkillSearchParams(input).Some?
    ensures SkillsGet(input, db).body.page == ParseSkillSearchParams(input).value.page >= 1
    ensures SkillsGet(input, db).body.limit == ParseSkillSearchParams(input).value.limit
    ensures SkillsGet(input, db).body.totalPages >= 1
    ensures SkillsGet(input, db).body.total == 0 ==> SkillsGet(input, db).body.totalPages == 1
  {
  }

  /** A request without `q` gets 400. */
  lemma MissingQueryRejected(page: Option<real>, limit: Option<real>, db: (string, int, int) -> Option<(nat, seq<SkillRow>)>)
    ensures SkillsGet(SearchParamsInput(None, page, limit), db) == InvalidParameters
  {
  }
}
