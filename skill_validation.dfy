/**
 * The skill schemas of `src/lib/validations/skill.ts`: registering a skill
 * from a GitHub URL, updating a skill, and the query of the skill list.
 */
module SkillValidation {
  import opened Wrappers
  import opened Metadata
  import opened Rules
  import opened QualityScore

  // ---------------------------------------------------------------------
  // CreateSkillSchema

  /** A URL (`isUrl` stands for the generic URL check) that starts with a GitHub repository and has at most 500 characters. */
  predicate ValidCreateSkill(githubUrl: string, isUrl: string -> bool) {
    isUrl(githubUrl) && MatchesRepoPrefix(githubUrl) && |githubUrl| <= 500
  }

  /** The pattern is open at the end: anything may follow the repository name, up to the length bound. */
  lemma CreateSkillAcceptsAnyTail(owner: string, repo: string, tail: string, isUrl: string -> bool)
    requires QualityParser.IsOwner(owner) && QualityParser.IsRepoName(repo)
    requires isUrl(QualityParser.GitHubPrefix + (owner + ("/" + (repo + tail))))
    requires |QualityParser.GitHubPrefix + (owner + ("/" + (repo + tail)))| <= 500
    ensures ValidCreateSkill(QualityParser.GitHubPrefix + (owner + ("/" + (repo + tail))), isUrl)
  {
    RepoPrefixShape(QualityParser.GitHubPrefix + (owner + ("/" + (repo + tail))));
  }

  // ---------------------------------------------------------------------
  // UpdateSkillSchema

  datatype UpdateSkill = UpdateSkill(
    name: Option<string>,
    description: Option<string>,
    version: Option<string>,
    license: Option<string>,
    icon: Option<string>)

  /** Every field is optional; a present one must keep its bound or match the version pattern. */
  predicate ValidUpdateSkill(u: UpdateSkill) {
    (u.name.None? || LengthBetween(u.name.value, 1, 100))
    && (u.description.None? || LengthBetween(u.description.value, 10, 5000))
    && (u.version.None? || IsVersion(u.version.value))
    && (u.license.None? || |u.license.value| <= 50)
    && (u.icon.None? || |u.icon.value| <= 10)
  }

  lemma EmptyUpdateValid()
    ensures ValidUpdateSkill(UpdateSkill(None, None, None, None, None))
  {
  }

  /**
   * The version pattern is the one the quality score checks: a version the
   * update schema accepts earns the 5 core-field points for versions.
   */
  lemma AcceptedVersionScores(u: UpdateSkill, fm: Frontmatter)
    requires ValidUpdateSkill(u) && u.version.Some?
    ensures CoreFieldScore(fm.(version := u.version)) == CoreFieldScore(fm.(version := None)) + 5
  {
  }

  // ---------------------------------------------------------------------
  // SkillQuerySchema

  const SortOrders: seq<string> := ["score", "recent", "popular"]

  datatype SkillQueryInput = SkillQueryInput(
    q: Option<string>,
    tags: Option<seq<string>>,
    grade: Option<string>,
    model: Option<string>,
    author: Option<string>,
    sort: Option<string>,
    page: Option<real>,
    limit: Option<real>)

  datatype SkillQuery = SkillQuery(
    q: Option<string>,
    tags: Option<seq<string>>,
    grade: Option<string>,
    model: Option<string>,
    author: Option<string>,
    sort: string,
    page: int,
    limit: int)

  /**
   * `q` of at most 200 characters; grade and model from their enumerations;
   * `sort` one of the three orders, "recent" when absent; `page` at least 1,
   * 1 when absent; `limit` in 1..100, 20 when absent.
   */
  function ParseSkillQuery(input: SkillQueryInput): (r: Option<SkillQuery>)
    ensures r.Some? <==>
      (input.q.None? || |input.q.value| <= 200)
      && OptionalOneOf(input.grade, GradeLetters) && OptionalOneOf(input.model, ModelNames)
      && OptionalOneOf(input.sort, SortOrders)
      && (input.page.None? || (IsInteger(input.page.value) && input.page.value >= 1.0))
      && (input.limit.None? || IntBetween(input.limit.value, 1, 100))
    ensures r.Some? ==> r.value.sort in SortOrders && r.value.page >= 1 && 1 <= r.value.limit <= 100
    ensures r.Some? ==> r.value.sort == (if input.sort.None? then "recent" else input.sort.value)
    ensures r.Some? ==> r.value.page == (if input.page.None? then 1 else input.page.value.Floor)
    ensures r.Some? ==> r.value.limit == (if input.limit.None? then 20 else input.limit.value.Floor)
    ensures r.Some? ==> r.value.q == input.q && r.value.tags == input.tags && r.value.grade == input.grade
    ensures r.Some? ==> r.value.model == input.model && r.value.author == input.author
  {
    var page := IntField(input.page, 1, None, 1);
    var limit := IntField(input.limit, 1, Some(100), 20);
    if (input.q.None? || |input.q.value| <= 200)
       && OptionalOneOf(input.grade, GradeLetters) && OptionalOneOf(input.model, ModelNames)
       && OptionalOneOf(input.sort, SortOrders) && page.Some? && limit.Some?
    then
      Some(SkillQuery(input.q, input.tags, input.grade, input.model, input.author,
                      if input.sort.None? then "recent" else input.sort.value, page.value, limit.value))
    else None
  }

  /** An empty query is the list's first page of 20, most recent first. */
  lemma EmptyQueryDefaults()
    ensures ParseSkillQuery(SkillQueryInput(None, None, None, None, None, None, None, None))
      == Some(SkillQuery(None, None, None, None, None, "recent", 1, 20))
  {
  }
}
