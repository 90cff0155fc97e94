/**
 * The rule vocabulary the request schemas are written in: integer ranges on
 * numbers, length bounds on strings, enumerations, and the GitHub repository
 * URL pattern shared by two schemas.
 *
 * Inputs reach a schema already typed: a JSON number is a `real` (so that
 * "is an integer" is a real check), an absent field is `None`. Number
 * coercion from query strings and the `.url()` check are not modelled here;
 * the latter is a parameter of the schemas that use it.
 */
module Rules {
  import opened Wrappers
  import opened Text
  import opened QualityParser
  import opened QualityScore

  /** `.int()` */
  predicate IsInteger(x: real) {
    x.Floor as real == x
  }

  /** `.int().min(lo).max(hi)` */
  predicate IntBetween(x: real, lo: int, hi: int) {
    IsInteger(x) && lo as real <= x && x <= hi as real
  }

  /** `.int().positive()` */
  predicate PositiveInt(x: real) {
    IsInteger(x) && x > 0.0
  }

  /** `.int().min(lo).max(hi).default(d)` (or `.positive()` when `hi` is absent): the accepted integer, if any. */
  function IntField(v: Option<real>, lo: int, hi: Option<int>, d: int): (r: Option<int>)
    ensures r.Some? <==> v.None? || (IsInteger(v.value) && lo as real <= v.value && (hi.None? || v.value <= hi.value as real))
    ensures v.None? ==> r == Some(d)
    ensures v.Some? && r.Some? ==> r.value as real == v.value && lo <= r.value && (hi.None? || r.value <= hi.value)
  {
    if v.None? then Some(d)
    else if IsInteger(v.value) && lo as real <= v.value && (hi.None? || v.value <= hi.value as real) then
      Some(v.value.Floor)
    else None
  }

  /** `.string().min(lo).max(hi)` */
  predicate LengthBetween(s: string, lo: nat, hi: nat) {
    lo <= |s| <= hi
  }

  /** `z.enum([...])` and `.optional()` around it. */
  predicate OneOf(s: string, options: seq<string>) {
    s in options
  }

  predicate OptionalOneOf(v: Option<string>, options: seq<string>) {
    v.None? || OneOf(v.value, options)
  }

  /** The letters a quality grade is written as. */
  const GradeLetters: seq<string> := ["S", "A", "B", "C", "D"]

  /** The letter of a grade. */
  function GradeLetter(g: Grade): string {
    match g
    case S => "S"
    case A => "A"
    case B => "B"
    case C => "C"
    case D => "D"
  }

  /** The grade enumeration accepts exactly the letters of the quality grades. */
  lemma GradeLettersOfGrades(s: string)
    ensures OneOf(s, GradeLetters) <==> exists g: Grade :: GradeLetter(g) == s
  {
    if OneOf(s, GradeLetters) {
      if s == "S" { assert GradeLetter(S) == s; }
      else if s == "A" { assert GradeLetter(A) == s; }
      else if s == "B" { assert GradeLetter(B) == s; }
      else if s == "C" { assert GradeLetter(C) == s; }
      else { assert GradeLetter(D) == s; }
    }
  }

  /** The model families a filter names. */
  const ModelNames: seq<string> := ["haiku", "sonnet", "opus"]

  /**
   * `^https:\/\/github\.com\/[\w-]+\/[\w.-]+`, open at the end: the host,
   * an owner, a slash and at least one character of a repository name.
   */
  predicate MatchesRepoPrefix(url: string) {
    match AfterHost(url)
    case None => false
    case Some((_, rest)) => |rest| > 0 && IsWordDotOrHyphen(rest[0])
  }

  /** The pattern accepts a URL iff it starts with the host, an owner, "/" and a repository name. */
  lemma RepoPrefixShape(url: string)
    ensures MatchesRepoPrefix(url) <==>
      exists owner: string, repo: string, tail: string ::
        IsOwner(owner) && IsRepoName(repo) && url == GitHubPrefix + (owner + ("/" + (repo + tail)))
  {
    if MatchesRepoPrefix(url) {
      var Some((owner, rest)) := AfterHost(url);
      var repo, tail := rest[..1], rest[1..];
      assert rest == repo + tail;
      assert IsOwner(owner) && IsRepoName(repo) && url == GitHubPrefix + (owner + ("/" + (repo + tail)));
    }
    if exists owner: string, repo: string, tail: string ::
         IsOwner(owner) && IsRepoName(repo) && url == GitHubPrefix + (owner + ("/" + (repo + tail))) {
      var owner: string, repo: string, tail: string :|
        IsOwner(owner) && IsRepoName(repo) && url == GitHubPrefix + (owner + ("/" + (repo + tail)));
      AfterHostOf(owner, repo + tail);
      assert (repo + tail)[0] == repo[0];
    }
  }
}
