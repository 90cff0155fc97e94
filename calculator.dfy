/**
 * The SkillHub quality score: six axes computed from a SKILL.md front matter
 * (25 + 20 + 15 + 15 + 15 + 10 = 100 points), a letter grade, improvement
 * tips and a grade comment.
 */
module QualityScore {
  import opened Wrappers
  import opened Text
  import opened Metadata

  datatype Grade = S | A | B | C | D

  datatype ScoreBreakdown = ScoreBreakdown(
    coreFieldScore: int,
    descriptionScore: int,
    runtimeScore: int,
    resourcesScore: int,
    useCasesScore: int,
    dependenciesScore: int,
    totalScore: int,
    grade: Grade)

  datatype ImprovementTip = ImprovementTip(field: string, currentScore: int, maxScore: int, tip: string)

  datatype QualityAnalysis = QualityAnalysis(
    scores: ScoreBreakdown,
    improvementTips: seq<ImprovementTip>,
    analysisComment: string)

  // ---------------------------------------------------------------------
  // The version pattern `^\d+\.\d+\.\d+$`

  predicate IsDigits(s: string) {
    |s| > 0 && AllChars(s, IsDigit)
  }

  function VersionText(major: string, minor: string, patch: string): string {
    major + "." + minor + "." + patch
  }

  /** Whether `v` matches `^\d+\.\d+\.\d+$`; each `\d+` run is maximal, so one scan decides it. */
  predicate IsVersion(v: string) {
    var a := RunEnd(v, 0, IsDigit);
    a > 0 && a < |v| && v[a] == '.' &&
    var b := RunEnd(v, a + 1, IsDigit);
    b > a + 1 && b < |v| && v[b] == '.' &&
    var c := RunEnd(v, b + 1, IsDigit);
    c > b + 1 && c == |v|
  }

  /** Three digit runs joined by dots match the pattern. */
  lemma {:induction false} VersionTextMatches(major: string, minor: string, patch: string)
    requires IsDigits(major) && IsDigits(minor) && IsDigits(patch)
    ensures IsVersion(VersionText(major, minor, patch))
  {
    var v := VersionText(major, minor, patch);
    var a := |major|;
    var b := a + 1 + |minor|;
    assert v[0..] == major + ("." + minor + "." + patch);
    RunEndAt(v, 0, major, "." + minor + "." + patch, IsDigit);
    assert v[a + 1..] == minor + ("." + patch);
    RunEndAt(v, a + 1, minor, "." + patch, IsDigit);
    assert v[b + 1..] == patch + "";
    RunEndAt(v, b + 1, patch, "", IsDigit);
  }

  /** Whatever matches the pattern is three digit runs joined by dots. */
  lemma VersionMatchSplits(v: string)
    requires IsVersion(v)
    ensures var a := RunEnd(v, 0, IsDigit);
      var b := RunEnd(v, a + 1, IsDigit);
      IsDigits(v[..a]) && IsDigits(v[a + 1..b]) && IsDigits(v[b + 1..])
      && v == VersionText(v[..a], v[a + 1..b], v[b + 1..])
  {
  }

  // ---------------------------------------------------------------------
  // The six axes

  /** Name, description, version, tags and author: 5 points each. */
  function CoreFieldScore(fm: Frontmatter): int {
    (if Present(fm.name) then 5 else 0)
    + (if Present(fm.description) then 5 else 0)
    + (if fm.version.Some? && fm.version.value != "" && IsVersion(fm.version.value) then 5 else 0)
    + (if fm.tags.Some? && |fm.tags.value| > 0 then 5 else 0)
    + (if Present(fm.author) then 5 else 0)
  }

  const ProblemIndicators: seq<string> := ["문제", "어려움", "problem", "issue", "difficult", "challenge"]
  const SolutionIndicators: seq<string> := ["해결", "도움", "solve", "help", "provide", "enable", "automate"]

  /** Whether the lower-cased description contains one of the keywords. */
  predicate Mentions(desc: string, keywords: seq<string>) {
    exists k :: 0 <= k < |keywords| && Contains(ToLower(desc), keywords[k])
  }

  function LengthPoints(n: nat): int {
    if n >= 200 then 10 else if n >= 100 then 7 else if n >= 50 then 5 else if n > 0 then 2 else 0
  }

  /** Length (up to 10) plus problem/solution wording (up to 10), capped at 20. */
  function DescriptionScore(fm: Frontmatter): int {
    if !Present(fm.description) then 0
    else
      var desc := fm.description.value;
      var problem := Mentions(desc, ProblemIndicators);
      var solution := Mentions(desc, SolutionIndicators);
      var score := LengthPoints(|desc|) + (if problem && solution then 10 else if problem || solution then 5 else 0);
      if score < 20 then score else 20
  }

  function RuntimeOf(fm: Frontmatter): Option<Runtime> {
    if fm.skillhub.Some? then fm.skillhub.value.runtime else None
  }

  function ResourcesOf(fm: Frontmatter): Option<Resources> {
    if fm.skillhub.Some? then fm.skillhub.value.resources else None
  }

  function RequiredTools(fm: Frontmatter): Option<seq<string>> {
    var rt := RuntimeOf(fm);
    if rt.Some? && rt.value.tools.Some? then rt.value.tools.value.required else None
  }

  function OptionalTools(fm: Frontmatter): Option<seq<string>> {
    var rt := RuntimeOf(fm);
    if rt.Some? && rt.value.tools.Some? then rt.value.tools.value.optional else None
  }

  function MinModel(fm: Frontmatter): Option<string> {
    var rt := RuntimeOf(fm);
    if rt.Some? then rt.value.minModel else None
  }

  function BaseTokens(fm: Frontmatter): Option<int> {
    var rs := ResourcesOf(fm);
    if rs.Some? then rs.value.baseTokens else None
  }

  function ContextHint(fm: Frontmatter): Option<string> {
    var rs := ResourcesOf(fm);
    if rs.Some? then rs.value.contextHint else None
  }

  function UseCases(fm: Frontmatter): Option<seq<string>> {
    if fm.extended.Some? then fm.extended.value.useCases else None
  }

  predicate NonEmptyList(l: Option<seq<string>>) {
    l.Some? && |l.value| > 0
  }

  /** Minimum model, required tools and optional tools: 5 points each. */
  function RuntimeScore(fm: Frontmatter): int {
    var rt := RuntimeOf(fm);
    if rt.None? then 0
    else
      (if Present(rt.value.minModel) then 5 else 0)
      + (if NonEmptyList(RequiredTools(fm)) then 5 else 0)
      + (if NonEmptyList(OptionalTools(fm)) then 5 else 0)
  }

  /** A positive base token count (8 points) and a context hint (7 points). */
  function ResourcesScore(fm: Frontmatter): int {
    var rs := ResourcesOf(fm);
    if rs.None? then 0
    else
      (if rs.value.baseTokens.Some? && rs.value.baseTokens.value != 0 && rs.value.baseTokens.value > 0 then 8 else 0)
      + (if Present(rs.value.contextHint) then 7 else 0)
  }

  /** 5, 10 or 15 points for one, two, or three and more use cases. */
  function UseCasesScore(fm: Frontmatter): int {
    var uc := UseCases(fm);
    if uc.None? || |uc.value| == 0 then 0
    else if |uc.value| >= 3 then 15
    else if |uc.value| == 2 then 10
    else 5
  }

  function Dependencies(fm: Frontmatter): Option<seq<Dependency>> {
    if fm.skillhub.Some? then fm.skillhub.value.dependencies else None
  }

  predicate AllVersioned(deps: seq<Dependency>) {
    forall k :: 0 <= k < |deps| ==> Present(deps[k].version)
  }

  /** Full marks when there are no dependencies or every one names a version; 5 otherwise. */
  function DependenciesScore(fm: Frontmatter): int {
    var deps := Dependencies(fm);
    if deps.None? || |deps.value| == 0 then 10
    else if AllVersioned(deps.value) then 10
    else 5
  }

  function GetGrade(score: int): Grade {
    if score >= 90 then S
    else if score >= 80 then A
    else if score >= 70 then B
    else if score >= 60 then C
    else D
  }

  /** The position of a grade from worst (0, grade D) to best (4, grade S). */
  function Rank(g: Grade): nat {
    match g
    case D => 0
    case C => 1
    case B => 2
    case A => 3
    case S => 4
  }

  // ---------------------------------------------------------------------
  // Tips and comment

  const NameTip := ImprovementTip("name", 0, 5, "name 필드를 추가하세요")
  const TagsTip := ImprovementTip("tags", 0, 5, "tags를 최소 1개 이상 추가하세요")
  const MinModelTip := ImprovementTip("runtime.min_model", 0, 5, "skillhub.runtime.min_model을 추가하면 +5점")
  const RequiredToolsTip := ImprovementTip("runtime.tools.required", 0, 5, "skillhub.runtime.tools.required를 추가하면 +5점")
  const BaseTokensTip := ImprovementTip("resources.base_tokens", 0, 8, "skillhub.resources.base_tokens를 추가하면 +8점")
  const ContextHintTip := ImprovementTip("resources.context_hint", 0, 7, "skillhub.resources.context_hint를 추가하면 +7점")

  function DescriptionTip(current: int): ImprovementTip {
    ImprovementTip("description", current, 20, "description을 100자 이상으로 작성하고, 문제-해결 구조를 포함하세요")
  }

  function UseCasesTip(current: int, count: nat): ImprovementTip
    requires count < 3
  {
    ImprovementTip("use-cases", current, 15, "use-cases를 " + NatToString(3 - count) + "개 더 추가하면 만점")
  }

  function UseCaseCount(fm: Frontmatter): nat {
    var uc := UseCases(fm);
    if uc.Some? then |uc.value| else 0
  }

  function When(c: bool, t: ImprovementTip): seq<ImprovementTip> {
    if c then [t] else []
  }

  /** Tips for a missing name and missing tags. */
  function CoreTips(fm: Frontmatter): seq<ImprovementTip> {
    When(!Present(fm.name), NameTip) + When(!NonEmptyList(fm.tags), TagsTip)
  }

  /** The tip for a missing or short description, carrying the axis score `current`. */
  function DescriptionTips(fm: Frontmatter, current: int): seq<ImprovementTip> {
    When(!Present(fm.description) || |fm.description.value| < 100, DescriptionTip(current))
  }

  /** Tips for a missing minimum model and missing required tools. */
  function RuntimeTips(fm: Frontmatter): seq<ImprovementTip> {
    When(!Present(MinModel(fm)), MinModelTip) + When(RequiredTools(fm).None?, RequiredToolsTip)
  }

  /** Tips for a missing or zero base token count and a missing context hint. */
  function ResourceTips(fm: Frontmatter): seq<ImprovementTip> {
    When(BaseTokens(fm).None? || BaseTokens(fm).value == 0, BaseTokensTip)
    + When(!Present(ContextHint(fm)), ContextHintTip)
  }

  /** The tip asking for the use cases still missing from three, carrying the axis score `current`. */
  function UseCaseTips(fm: Frontmatter, current: int): seq<ImprovementTip> {
    var count := UseCaseCount(fm);
    if count < 3 then [UseCasesTip(current, count)] else []
  }

  /** The tips, each group behind the check that its axis is below its maximum. */
  function GenerateImprovementTips(scores: ScoreBreakdown, fm: Frontmatter): seq<ImprovementTip> {
    (if scores.coreFieldScore < 25 then CoreTips(fm) else [])
    + (if scores.descriptionScore < 20 then DescriptionTips(fm, scores.descriptionScore) else [])
    + (if scores.runtimeScore < 15 then RuntimeTips(fm) else [])
    + (if scores.resourcesScore < 15 then ResourceTips(fm) else [])
    + (if scores.useCasesScore < 15 then UseCaseTips(fm, scores.useCasesScore) else [])
  }

  /**
   * Reference definition of the tips: one per missing or weak field,
   * decided by the field alone.
   */
  function FieldTips(fm: Frontmatter): seq<ImprovementTip> {
    CoreTips(fm) + DescriptionTips(fm, DescriptionScore(fm)) + RuntimeTips(fm) + ResourceTips(fm)
    + UseCaseTips(fm, UseCasesScore(fm))
  }

  function CommentFor(g: Grade): string {
    match g
    case S => "우수한 품질의 스킬입니다. 모든 필수 정보가 잘 작성되어 있습니다."
    case A => "좋은 품질의 스킬입니다. 몇 가지 개선점을 보완하면 S등급이 가능합니다."
    case B => "표준 품질의 스킬입니다. 추가 정보를 보완하면 품질 점수를 높일 수 있습니다."
    case C => "기본적인 정보만 포함되어 있습니다. 개선 팁을 참고하여 품질을 높여주세요."
    case D => "필수 정보가 부족합니다. 개선 팁을 참고하여 보완해주세요."
  }

  /** The comment is decided by the grade alone. */
  function GenerateAnalysisComment(scores: ScoreBreakdown): (r: string)
    ensures r == CommentFor(scores.grade)
  {
    match scores.grade
    case S => CommentFor(S)
    case A => CommentFor(A)
    case B => CommentFor(B)
    case C => CommentFor(C)
    case D => CommentFor(D)
  }

  function Breakdown(fm: Frontmatter): ScoreBreakdown {
    var core := CoreFieldScore(fm);
    var desc := DescriptionScore(fm);
    var runtime := RuntimeScore(fm);
    var resources := ResourcesScore(fm);
    var useCases := UseCasesScore(fm);
    var deps := DependenciesScore(fm);
    var total := core + desc + runtime + resources + useCases + deps;
    ScoreBreakdown(core, desc, runtime, resources, useCases, deps, total, GetGrade(total))
  }

  // ---------------------------------------------------------------------
  // Properties of the axes

  /** Each axis stays within its maximum, so the total is a score out of 100. */
  lemma AxisBounds(fm: Frontmatter)
    ensures 0 <= CoreFieldScore(fm) <= 25 && CoreFieldScore(fm) % 5 == 0
    ensures 0 <= DescriptionScore(fm) <= 20
    ensures 0 <= RuntimeScore(fm) <= 15 && RuntimeScore(fm) % 5 == 0
    ensures ResourcesScore(fm) in {0, 7, 8, 15}
    ensures UseCasesScore(fm) in {0, 5, 10, 15}
    ensures DependenciesScore(fm) in {5, 10}
  {
  }

  /** The total is the sum of the six axes, a score out of 100, and the grade is the total's. */
  lemma BreakdownTotal(fm: Frontmatter)
    ensures var sc := Breakdown(fm);
      sc.totalScore == sc.coreFieldScore + sc.descriptionScore + sc.runtimeScore
                       + sc.resourcesScore + sc.useCasesScore + sc.dependenciesScore
      && 0 <= sc.totalScore <= 100
      && sc.grade == GetGrade(sc.totalScore)
  {
    AxisBounds(fm);
  }

  lemma CoreFieldScoreFull(fm: Frontmatter)
    ensures CoreFieldScore(fm) == 25 <==>
      Present(fm.name) && Present(fm.description) && fm.version.Some? && IsVersion(fm.version.value)
      && NonEmptyList(fm.tags) && Present(fm.author)
  {
  }

  /** No description scores 0; full marks need 200 characters and both kinds of wording. */
  lemma DescriptionScoreExtremes(fm: Frontmatter)
    ensures DescriptionScore(fm) == 0 <==> !Present(fm.description)
    ensures DescriptionScore(fm) == 20 <==>
      Present(fm.description) && |fm.description.value| >= 200
      && Mentions(fm.description.value, ProblemIndicators) && Mentions(fm.description.value, SolutionIndicators)
    ensures Present(fm.description) && |fm.description.value| < 100 ==> DescriptionScore(fm) <= 17
  {
  }

  lemma RuntimeScoreFull(fm: Frontmatter)
    ensures RuntimeScore(fm) == 15 <==>
      Present(MinModel(fm)) && NonEmptyList(RequiredTools(fm)) && NonEmptyList(OptionalTools(fm))
  {
  }

  /** A negative base token count earns nothing, like a missing one. */
  lemma ResourcesScoreFull(fm: Frontmatter)
    ensures ResourcesScore(fm) == 15 <==>
      BaseTokens(fm).Some? && BaseTokens(fm).value > 0 && Present(ContextHint(fm))
    ensures BaseTokens(fm).Some? && BaseTokens(fm).value < 0 ==> ResourcesScore(fm) <= 7
  {
  }

  lemma UseCasesScoreByCount(fm: Frontmatter)
    ensures UseCasesScore(fm) == 5 * (if UseCaseCount(fm) >= 3 then 3 else UseCaseCount(fm))
  {
  }

  lemma DependenciesScoreHalf(fm: Frontmatter)
    ensures DependenciesScore(fm) == 5 <==>
      Dependencies(fm).Some? && exists k :: 0 <= k < |Dependencies(fm).value| && !Present(Dependencies(fm).value[k].version)
  {
  }

  /** A higher score never gets a worse grade. */
  lemma GradeMonotone(x: int, y: int)
    requires x <= y
    ensures Rank(GetGrade(x)) <= Rank(GetGrade(y))
  {
  }

  lemma GradeThresholds(score: int)
    ensures GetGrade(score) == S <==> score >= 90
    ensures GetGrade(score) == D <==> score < 60
    ensures Rank(GetGrade(score)) == (if score >= 90 then 4 else if score >= 80 then 3
                                      else if score >= 70 then 2 else if score >= 60 then 1 else 0)
  {
  }

  /** Different grades get different comments, so the comment tells the grade. */
  lemma CommentsDistinct(g: Grade, h: Grade)
    requires g != h
    ensures CommentFor(g) != CommentFor(h)
  {
    CommentLength(g);
    CommentLength(h);
  }

  /** Helper: the five comments have five different lengths. */
  lemma CommentLength(g: Grade)
    ensures |CommentFor(g)| == match g case S => 37 case A => 40 case B => 43 case C => 41 case D => 32
  {
  }

  // ---------------------------------------------------------------------
  // Tips

  /**
   * The axis guards in front of the tips never decide anything: whenever a
   * tip's own field condition holds, its axis is already below its maximum.
   */
  lemma {:induction false} TipsMatchFieldTips(fm: Frontmatter)
    ensures GenerateImprovementTips(Breakdown(fm), fm) == FieldTips(fm)
  {
    GuardsRedundant(fm, Breakdown(fm));
  }

  /** Each field condition of a tip forces its axis below the maximum. */
  lemma GuardsRedundant(fm: Frontmatter, sc: ScoreBreakdown)
    requires sc == Breakdown(fm)
    ensures CoreTips(fm) != [] ==> sc.coreFieldScore < 25
    ensures DescriptionTips(fm, sc.descriptionScore) != [] ==> sc.descriptionScore < 20
    ensures RuntimeTips(fm) != [] ==> sc.runtimeScore < 15
    ensures ResourceTips(fm) != [] ==> sc.resourcesScore < 15
    ensures UseCaseTips(fm, sc.useCasesScore) != [] ==> sc.useCasesScore < 15
    ensures sc.descriptionScore == DescriptionScore(fm) && sc.useCasesScore == UseCasesScore(fm)
  {
    DescriptionScoreExtremes(fm);
  }

  function TipFields(tips: seq<ImprovementTip>): seq<string> {
    seq(|tips|, k requires 0 <= k < |tips| => tips[k].field)
  }

  const AllTipFields: seq<string> := ["name", "tags", "description", "runtime.min_model", "runtime.tools.required",
                                      "resources.base_tokens", "resources.context_hint", "use-cases"]

  /** A tip about one of the eight listed fields, scored below its maximum. */
  predicate WellFormedTip(t: ImprovementTip) {
    t.field in AllTipFields && 0 <= t.currentScore < t.maxScore
  }

  /** The eight parts of the reference tips, one per field. */
  lemma {:induction false} FieldTipsParts(fm: Frontmatter)
    ensures forall t :: t in FieldTips(fm) ==>
      (t == NameTip && !Present(fm.name))
      || (t == TagsTip && !NonEmptyList(fm.tags))
      || (t == DescriptionTip(DescriptionScore(fm)) && (!Present(fm.description) || |fm.description.value| < 100))
      || (t == MinModelTip && !Present(MinModel(fm)))
      || (t == RequiredToolsTip && RequiredTools(fm).None?)
      || (t == BaseTokensTip && (BaseTokens(fm).None? || BaseTokens(fm).value == 0))
      || (t == ContextHintTip && !Present(ContextHint(fm)))
      || (UseCaseCount(fm) < 3 && t == UseCasesTip(UseCasesScore(fm), UseCaseCount(fm)))
  {
  }

  /** Every tip is about a listed field (never version, author or dependencies) and below its maximum. */
  lemma {:induction false} TipsWellFormed(fm: Frontmatter)
    ensures forall t :: t in FieldTips(fm) ==> WellFormedTip(t)
    ensures forall t :: t in FieldTips(fm) ==> t.field != "version" && t.field != "author" && t.field != "dependencies"
  {
    CoreTipsWellFormed(fm);
    DescriptionTipsWellFormed(fm);
    RuntimeTipsWellFormed(fm);
    ResourceTipsWellFormed(fm);
    UseCaseTipsWellFormed(fm);
    assert "version" !in AllTipFields && "author" !in AllTipFields && "dependencies" !in AllTipFields;
  }

  lemma CoreTipsWellFormed(fm: Frontmatter)
    ensures forall t :: t in CoreTips(fm) ==> WellFormedTip(t)
  {
  }

  lemma DescriptionTipsWellFormed(fm: Frontmatter)
    ensures forall t :: t in DescriptionTips(fm, DescriptionScore(fm)) ==> WellFormedTip(t)
  {
    DescriptionScoreExtremes(fm);
    AxisBounds(fm);
  }

  lemma RuntimeTipsWellFormed(fm: Frontmatter)
    ensures forall t :: t in RuntimeTips(fm) ==> WellFormedTip(t)
  {
  }

  lemma ResourceTipsWellFormed(fm: Frontmatter)
    ensures forall t :: t in ResourceTips(fm) ==> WellFormedTip(t)
  {
  }

  lemma UseCaseTipsWellFormed(fm: Frontmatter)
    ensures forall t :: t in UseCaseTips(fm, UseCasesScore(fm)) ==> WellFormedTip(t)
  {
    UseCasesScoreByCount(fm);
  }

  /** A required-tools list that is present but empty earns nothing and gets no tip. */
  lemma {:induction false} EmptyRequiredToolsNoTip(fm: Frontmatter)
    requires RequiredTools(fm) == Some([])
    ensures forall t :: t in FieldTips(fm) ==> t.field != "runtime.tools.required"
    ensures RuntimeScore(fm) <= 10
  {
    FieldTipsParts(fm);
  }

  /** A negative base token count earns nothing and gets no tip either. */
  lemma {:induction false} NegativeBaseTokensNoTip(fm: Frontmatter)
    requires BaseTokens(fm).Some? && BaseTokens(fm).value < 0
    ensures forall t :: t in FieldTips(fm) ==> t.field != "resources.base_tokens"
    ensures ResourcesScore(fm) <= 7
  {
    FieldTipsParts(fm);
  }

  /** A skill with full marks gets no tips at all. */
  lemma {:induction false} PerfectScoreNoTips(fm: Frontmatter)
    requires Breakdown(fm).totalScore == 100
    ensures FieldTips(fm) == []
  {
    AxisBounds(fm);
    DescriptionScoreExtremes(fm);
    RuntimeScoreFull(fm);
    ResourcesScoreFull(fm);
    TipsMatchFieldTips(fm);
  }

  // ---------------------------------------------------------------------
  // The whole analysis

  /** Scores, grade, tips and comment for one front matter. */
  function CalculateQualityScore(fm: Frontmatter): (r: QualityAnalysis)
    ensures r.scores.coreFieldScore == CoreFieldScore(fm) && r.scores.descriptionScore == DescriptionScore(fm)
            && r.scores.runtimeScore == RuntimeScore(fm) && r.scores.resourcesScore == ResourcesScore(fm)
            && r.scores.useCasesScore == UseCasesScore(fm) && r.scores.dependenciesScore == DependenciesScore(fm)
    ensures 0 <= r.scores.coreFieldScore <= 25 && 0 <= r.scores.descriptionScore <= 20
            && 0 <= r.scores.runtimeScore <= 15 && 0 <= r.scores.resourcesScore <= 15
            && 0 <= r.scores.useCasesScore <= 15 && 0 <= r.scores.dependenciesScore <= 10
    ensures var sc := r.scores;
      sc.totalScore == sc.coreFieldScore + sc.descriptionScore + sc.runtimeScore
                       + sc.resourcesScore + sc.useCasesScore + sc.dependenciesScore
      && 0 <= sc.totalScore <= 100
      && sc.grade == GetGrade(sc.totalScore)
    ensures r.improvementTips == FieldTips(fm)
    ensures r.analysisComment == CommentFor(r.scores.grade)
  {
    var scores := Breakdown(fm);
    AxisBounds(fm);
    BreakdownTotal(fm);
    TipsMatchFieldTips(fm);
    QualityAnalysis(scores, GenerateImprovementTips(scores, fm), GenerateAnalysisComment(scores))
  }

  /**
   * An empty front matter earns only the dependency points (10, grade D)
   * and gets all eight tips, in order, the use-cases tip asking for 3 more.
   */
  lemma EmptyFrontmatterAnalysis()
    ensures var r := CalculateQualityScore(EmptyFrontmatter);
      r.scores.totalScore == 10 && r.scores.grade == D
      && TipFields(r.improvementTips) == AllTipFields
      && r.improvementTips[7].tip == "use-cases를 3개 더 추가하면 만점"
      && r.analysisComment == CommentFor(D)
  {
    EmptyBreakdown();
    EmptyFieldTips();
    AllTipsFields();
    ThreeMoreUseCases();
  }

  lemma EmptyBreakdown()
    ensures Breakdown(EmptyFrontmatter) == ScoreBreakdown(0, 0, 0, 0, 0, 10, 10, D)
  {
  }

  const AllTips: seq<ImprovementTip> := [NameTip, TagsTip, DescriptionTip(0), MinModelTip, RequiredToolsTip,
                                         BaseTokensTip, ContextHintTip, UseCasesTip(0, 0)]

  lemma EmptyFieldTips()
    ensures FieldTips(EmptyFrontmatter) == AllTips
  {
    var fm := EmptyFrontmatter;
    assert DescriptionScore(fm) == 0 && UseCasesScore(fm) == 0 && UseCaseCount(fm) == 0;
  }

  lemma AllTipsFields()
    ensures TipFields(AllTips) == AllTipFields
  {
  }

  lemma ThreeMoreUseCases()
    ensures UseCasesTip(0, 0).tip == "use-cases를 3개 더 추가하면 만점"
  {
    assert NatToString(3) == "3";
  }

  /** A front matter filling every axis scores 100, grade S, with no tips. */
  lemma {:induction false} CompleteFrontmatterAnalysis(fm: Frontmatter)
    requires Present(fm.name) && Present(fm.author) && NonEmptyList(fm.tags)
    requires fm.version.Some? && IsVersion(fm.version.value)
    requires fm.description.Some? && |fm.description.value| >= 200
    requires Mentions(fm.description.value, ProblemIndicators) && Mentions(fm.description.value, SolutionIndicators)
    requires Present(MinModel(fm)) && NonEmptyList(RequiredTools(fm)) && NonEmptyList(OptionalTools(fm))
    requires BaseTokens(fm).Some? && BaseTokens(fm).value > 0 && Present(ContextHint(fm))
    requires UseCaseCount(fm) >= 3
    requires Dependencies(fm).Some? ==> AllVersioned(Dependencies(fm).value)
    ensures var r := CalculateQualityScore(fm);
      r.scores.totalScore == 100 && r.scores.grade == S && r.improvementTips == []
  {
    CoreFieldScoreFull(fm);
    DescriptionScoreExtremes(fm);
    RuntimeScoreFull(fm);
    ResourcesScoreFull(fm);
    UseCasesScoreByCount(fm);
    assert DependenciesScore(fm) == 10;
    PerfectScoreNoTips(fm);
  }
}
