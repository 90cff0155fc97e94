/**
 * The analyzer and recommender schemas of `src/lib/validations/recommend.ts`:
 * a recommendation query with filters, a GitHub URL to analyze, and a pasted
 * front matter to analyze.
 */
module RecommendValidation {
  import opened Wrappers
  import opened Rules

  // ---------------------------------------------------------------------
  // RecommendSchema

  datatype RecommendFilters = RecommendFilters(
    maxTokens: Option<real>,
    minGrade: Option<string>,
    model: Option<string>,
    tags: Option<seq<string>>)

  datatype RecommendInput = RecommendInput(query: string, filters: Option<RecommendFilters>, limit: Option<real>)

  datatype Recommend = Recommend(query: string, filters: Option<RecommendFilters>, limit: int)

  /** `maxTokens` a positive integer of at most 100000; grade and model from their enumerations. */
  predicate ValidFilters(f: RecommendFilters) {
    (f.maxTokens.None? || IntBetween(f.maxTokens.value, 1, 100000))
    && OptionalOneOf(f.minGrade, GradeLetters)
    && OptionalOneOf(f.model, ModelNames)
  }

  /** A query of 1..500 characters, optional filters, and `limit` an integer in 1..20, 5 when absent. */
  function ParseRecommend(input: RecommendInput): (r: Option<Recommend>)
    ensures r.Some? <==>
      LengthBetween(input.query, 1, 500)
      && (input.filters.None? || ValidFilters(input.filters.value))
      && (input.limit.None? || IntBetween(input.limit.value, 1, 20))
    ensures r.Some? ==> r.value.query == input.query && r.value.filters == input.filters && 1 <= r.value.limit <= 20
    ensures r.Some? ==> r.value.limit == (if input.limit.None? then 5 else input.limit.value.Floor)
  {
    var limit := IntField(input.limit, 1, Some(20), 5);
    if LengthBetween(input.query, 1, 500) && (input.filters.None? || ValidFilters(input.filters.value)) && limit.Some? then
      Some(Recommend(input.query, input.filters, limit.value))
    else None
  }

  /** `maxTokens` is positive: 0 and 100001 are rejected, 1 and 100000 accepted. */
  lemma MaxTokensBounds(f: RecommendFilters)
    requires f.minGrade.None? && f.model.None?
    ensures f.maxTokens == Some(0.0) || f.maxTokens == Some(100001.0) || f.maxTokens == Some(1.5) ==> !ValidFilters(f)
    ensures f.maxTokens == Some(1.0) || f.maxTokens == Some(100000.0) ==> ValidFilters(f)
  {
  }

  // ---------------------------------------------------------------------
  // AnalyzeUrlSchema and AnalyzeFrontmatterSchema

  /** A URL (`isUrl` stands for the generic URL check) that starts with a GitHub repository. */
  predicate ValidAnalyzeUrl(githubUrl: string, isUrl: string -> bool) {
    isUrl(githubUrl) && MatchesRepoPrefix(githubUrl)
  }

  /** A URL that does not name github.com, an owner and a repository is rejected. */
  lemma AnalyzeUrlRejects(githubUrl: string, isUrl: string -> bool)
    requires forall owner: string, repo: string, tail: string ::
      !(QualityParser.IsOwner(owner) && QualityParser.IsRepoName(repo)
        && githubUrl == QualityParser.GitHubPrefix + (owner + ("/" + (repo + tail))))
    ensures !ValidAnalyzeUrl(githubUrl, isUrl)
  {
    RepoPrefixShape(githubUrl);
  }

  /** 1..50000 characters of front matter text. */
  predicate ValidAnalyzeFrontmatter(frontmatter: string) {
    LengthBetween(frontmatter, 1, 50000)
  }

  lemma EmptyFrontmatterRejected()
    ensures !ValidAnalyzeFrontmatter("")
  {
  }
}
