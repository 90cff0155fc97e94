/**
 * The quality analyzer's front matter parser and GitHub URL parser
 * (`src/lib/quality-score/parser.ts`). The front matter must open the text
 * with `---` and a line break; the pattern is `^---\r?\n([\s\S]*?)\r?\n---`.
 */
module QualityParser {
  import opened Wrappers
  import opened Text
  import opened Metadata

  datatype ParseResult = ParseResult(
    success: bool,
    frontmatter: Option<Frontmatter>,
    error: Option<string>,
    errorLine: Option<int>)

  // The two fixed messages are split after their first word, which leaves
  // their first characters within the verifier's reach.
  const NotFoundError := "Frontmatter를 " + "찾을 수 없습니다. ---로 시작하고 ---로 끝나는 YAML 블록이 필요합니다."
  const NotObjectError := "Frontmatter가 " + "유효한 YAML 객체가 아닙니다."
  const YamlErrorPrefix := "YAML 파싱 오류: "
  const UnknownError := "알 수 없는 오류"

  /** The index where the block starts: after `---\r\n` or `---\n`. */
  function BlockStart(content: string): (r: Option<nat>)
    ensures r.Some? ==> r.value <= |content|
  {
    if StartsWith(content, "---\r\n") then Some(5)
    else if StartsWith(content, "---\n") then Some(4)
    else None
  }

  /** `\r?\n---` matches at `q`. */
  predicate CloserAt(content: string, q: nat)
    requires q <= |content|
  {
    StartsWith(content[q..], "\r\n---") || StartsWith(content[q..], "\n---")
  }

  /** The first index from `q` on where the closing delimiter matches. */
  function FindCloser(content: string, q: nat): (r: Option<nat>)
    requires q <= |content|
    ensures r.Some? ==> q <= r.value <= |content| && CloserAt(content, r.value)
    ensures r.Some? ==> forall j :: q <= j < r.value ==> !CloserAt(content, j)
    ensures r.None? ==> forall j :: q <= j <= |content| ==> !CloserAt(content, j)
    decreases |content| - q
  {
    if CloserAt(content, q) then Some(q)
    else if q == |content| then None
    else FindCloser(content, q + 1)
  }

  /**
   * The text captured by the lazy group. Once the opener has committed to
   * `\r`, backtracking to an opener without it cannot match, since the line
   * break would then have to be that `\r`.
   */
  function Block(content: string): (r: Option<string>)
    ensures r.Some? ==> BlockStart(content).Some?
  {
    match BlockStart(content)
    case None => None
    case Some(start) =>
      match FindCloser(content, start)
      case None => None
      case Some(q) => Some(content[start..q])
  }

  /** Reads the front matter of a SKILL.md text; YAML parsing is the parameter `yaml`. */
  function ParseFrontmatter(content: string, yaml: string -> YamlOutcome): (r: ParseResult)
    ensures r.success <==> Block(content).Some? && yaml(Block(content).value).Parsed?
                           && IsObject(yaml(Block(content).value).document)
    ensures r.success ==> r.frontmatter == Some(FieldsOf(yaml(Block(content).value).document)) && r.error.None?
    ensures !r.success ==> r.frontmatter.None? && r.error.Some?
    ensures Block(content).None? ==> r.error == Some(NotFoundError)
    ensures r.errorLine.Some? ==> Block(content).Some? && yaml(Block(content).value).Threw?
    ensures Block(content).Some? && yaml(Block(content).value).Parsed? && !IsObject(yaml(Block(content).value).document)
            ==> r.error == Some(NotObjectError) && r.errorLine.None?
    ensures Block(content).Some? && yaml(Block(content).value).Threw?
            ==> r.error.Some? && YamlErrorPrefix <= r.error.value
  {
    match Block(content)
    case None => ParseResult(false, None, Some(NotFoundError), None)
    case Some(text) =>
      match yaml(text)
      case Threw(message, line) =>
        var shown := if message != "" then message else UnknownError;
        ParseResult(false, None, Some(YamlErrorPrefix + shown), line)
      case Parsed(doc) =>
        if !IsObject(doc) then ParseResult(false, None, Some(NotObjectError), None)
        else ParseResult(true, Some(FieldsOf(doc)), None, None)
  }

  /** A YAML error is reported with its message (or a fallback) and its line. */
  lemma YamlErrorReported(content: string, yaml: string -> YamlOutcome)
    requires Block(content).Some? && yaml(Block(content).value).Threw?
    ensures var out := yaml(Block(content).value);
      var r := ParseFrontmatter(content, yaml);
      !r.success && r.errorLine == out.line
      && r.error == Some(YamlErrorPrefix + (if out.message == "" then UnknownError else out.message))
  {
  }

  /**
   * The three failures are told apart by their messages: the two fixed
   * messages differ, and neither starts with the YAML error prefix.
   */
  lemma ParseErrorsDistinct(message: string)
    ensures NotFoundError != NotObjectError
    ensures NotFoundError != YamlErrorPrefix + message && NotObjectError != YamlErrorPrefix + message
  {
    assert NotFoundError[11] != NotObjectError[11];
    assert (YamlErrorPrefix + message)[0] == 'Y';
  }

  /** How the analyze endpoint wraps a bare YAML text before parsing it. */
  function Wrap(raw: string): string {
    "---\n" + raw + "\n---"
  }

  /**
   * Wrapping gives the text back exactly when the text has no line starting
   * with `---` after its first line and does not end with a carriage return.
   */
  lemma {:induction false} WrapRoundTrip(raw: string)
    ensures Block(Wrap(raw)) == Some(raw) <==> !Contains(raw, "\n---") && !EndsWith(raw, "\r")
  {
    var content := Wrap(raw);
    assert StartsWith(content, "---\n");
    assert !StartsWith(content, "---\r\n") by {
      assert content[3] == '\n';
    }
    assert BlockStart(content) == Some(4);
    var end := 4 + |raw|;
    assert content[4..end] == raw;
    assert content[end..] == "\n---";
    assert CloserAt(content, end);
    if !Contains(raw, "\n---") && !EndsWith(raw, "\r") {
      forall j | 4 <= j < end ensures !CloserAt(content, j) {
        NoCloserInside(raw, j - 4);
      }
      assert FindCloser(content, 4) == Some(end);
    } else if Contains(raw, "\n---") {
      var i := FirstOccurrence(raw, "\n---");
      assert content[4 + i..][..4] == raw[i..][..4];
      assert CloserAt(content, 4 + i);
      assert FindCloser(content, 4).value <= 4 + i < end;
    } else {
      assert raw[|raw| - 1] == '\r';
      assert content[end - 1..][..5] == "\r\n---";
      assert CloserAt(content, end - 1);
      assert FindCloser(content, 4).value <= end - 1;
    }
  }

  /** Some index of an occurrence, given that the text contains `p`. */
  lemma FirstOccurrence(s: string, p: string) returns (i: nat)
    requires Contains(s, p)
    ensures i + |p| <= |s| && s[i..][..|p|] == p
    decreases |s|
  {
    if StartsWith(s, p) {
      i := 0;
    } else {
      var j := FirstOccurrence(s[1..], p);
      assert s[1..][j..] == s[j + 1..];
      i := j + 1;
    }
  }

  lemma WrapChars(raw: string)
    ensures |Wrap(raw)| == |raw| + 8
    ensures forall j :: 0 <= j < |raw| ==> Wrap(raw)[4 + j] == raw[j]
    ensures Wrap(raw)[4 + |raw|] == '\n'
    ensures forall j :: 5 + |raw| <= j < 8 + |raw| ==> Wrap(raw)[j] == '-'
  {
  }

  /** Inside a wrapped text free of delimiters, no closing delimiter starts before the added one. */
  lemma NoCloserInside(raw: string, i: nat)
    requires i < |raw| && !Contains(raw, "\n---") && !EndsWith(raw, "\r")
    ensures !CloserAt(Wrap(raw), 4 + i)
  {
    NoLineFeedCloser(raw, i);
    NoCarriageReturnCloser(raw, i);
  }

  lemma NoLineFeedCloser(raw: string, i: nat)
    requires i < |raw| && !Contains(raw, "\n---")
    ensures !StartsWith(Wrap(raw)[4 + i..], "\n---")
  {
    var content := Wrap(raw);
    WrapChars(raw);
    var rest := content[4 + i..];
    if i + 4 <= |raw| {
      if StartsWith(rest, "\n---") {
        forall k | 0 <= k < 4 ensures raw[i..][..4][k] == "\n---"[k] {
          assert rest[k] == content[4 + i + k];
          assert rest[..4][k] == rest[k];
        }
        ContainsAt(raw, "\n---", i);
      }
    } else {
      var k := |raw| - i;
      assert rest[k] == content[4 + |raw|] == '\n';
      assert "\n---"[k] == '-';
      NotStartsWithAt(rest, "\n---", k);
    }
  }

  lemma NoCarriageReturnCloser(raw: string, i: nat)
    requires i < |raw| && !Contains(raw, "\n---") && !EndsWith(raw, "\r")
    ensures !StartsWith(Wrap(raw)[4 + i..], "\r\n---")
  {
    if i + 5 <= |raw| {
      NoCarriageReturnCloserInside(raw, i);
    } else if i + 1 == |raw| {
      assert 3 + |raw| == 4 + i;
      NoCarriageReturnCloserAtEnd(raw);
    } else {
      NoCarriageReturnCloserNearEnd(raw, i);
    }
  }

  lemma NoCarriageReturnCloserNearEnd(raw: string, i: nat)
    requires i + 1 < |raw| < i + 5
    ensures !StartsWith(Wrap(raw)[4 + i..], "\r\n---")
  {
    var content := Wrap(raw);
    WrapChars(raw);
    var rest := content[4 + i..];
    var k := |raw| - i;
    assert rest[k] == content[4 + |raw|] == '\n';
    assert "\r\n---"[k] == '-';
    NotStartsWithAt(rest, "\r\n---", k);
  }

  lemma NoCarriageReturnCloserInside(raw: string, i: nat)
    requires i + 5 <= |raw| && !Contains(raw, "\n---")
    ensures !StartsWith(Wrap(raw)[4 + i..], "\r\n---")
  {
    var content := Wrap(raw);
    WrapChars(raw);
    var rest := content[4 + i..];
    if StartsWith(rest, "\r\n---") {
      forall k | 0 <= k < 4 ensures raw[i + 1..][..4][k] == "\n---"[k] {
        assert rest[k + 1] == content[4 + i + 1 + k];
        assert rest[..5][k + 1] == rest[k + 1];
      }
      ContainsAt(raw, "\n---", i + 1);
    }
  }

  lemma NoCarriageReturnCloserAtEnd(raw: string)
    requires |raw| > 0 && !EndsWith(raw, "\r")
    ensures !StartsWith(Wrap(raw)[3 + |raw|..], "\r\n---")
  {
    var content := Wrap(raw);
    WrapChars(raw);
    assert raw[|raw| - 1..] == [raw[|raw| - 1]];
    assert content[3 + |raw|..][0] == raw[|raw| - 1] != '\r';
  }

  // ---------------------------------------------------------------------
  // GitHub URLs

  datatype GitHubUrl =
    | Located(owner: string, repo: string, ref: string, path: string)
    | Unrecognized(error: string)

  const UrlError := "GitHub URL 형식을 인식할 수 없습니다."
  const GitHubPrefix := "https://github.com/"

  /** The characters `.` matches: anything but a line terminator. */
  predicate NotLineTerminator(c: char) {
    c != '\n' && c != '\r' && c != '\U{2028}' && c != '\U{2029}'
  }

  predicate IsOwner(s: string) { |s| > 0 && AllChars(s, IsWordOrHyphen) }
  predicate IsRepoName(s: string) { |s| > 0 && AllChars(s, IsWordDotOrHyphen) }
  predicate IsFilePath(s: string) { |s| > 0 && AllChars(s, NotLineTerminator) }

  /** The longest prefix of `s` made of `p` characters, and what follows it. */
  function TakeRun(s: string, p: char -> bool): (r: (string, string))
    ensures r.0 + r.1 == s && AllChars(r.0, p)
    ensures |r.1| > 0 ==> !p(r.1[0])
  {
    var e := RunEnd(s, 0, p);
    assert s[..e] + s[e..] == s;
    (s[..e], s[e..])
  }

  lemma TakeRunOf(x: string, rest: string, p: char -> bool)
    requires AllChars(x, p) && (|rest| == 0 || !p(rest[0]))
    ensures TakeRun(x + rest, p) == (x, rest)
  {
    RunEndAt(x + rest, 0, x, rest, p);
    assert (x + rest)[0..] == x + rest;
  }

  function BlobUrl(owner: string, repo: string, ref: string, path: string): string {
    GitHubPrefix + (owner + ("/" + (repo + ("/blob/" + (ref + ("/" + path))))))
  }

  function RepoUrl(owner: string, repo: string, tail: string): string {
    GitHubPrefix + (owner + ("/" + (repo + tail)))
  }

  /** The owner and what follows it, when the URL starts with the host and a non-empty owner. */
  function AfterHost(url: string): (r: Option<(string, string)>)
    ensures r.Some? ==> IsOwner(r.value.0) && url == GitHubPrefix + (r.value.0 + ("/" + r.value.1))
  {
    if !StartsWith(url, GitHubPrefix) then None
    else
      var (owner, rest) := TakeRun(url[19..], IsWordOrHyphen);
      if owner == "" || rest == "" || rest[0] != '/' then None
      else
        assert url == url[..19] + url[19..];
        assert rest == "/" + rest[1..];
        Some((owner, rest[1..]))
  }

  /**
   * `^https:\/\/github\.com\/([\w-]+)\/([\w.-]+)\/blob\/([\w.-]+)\/(.+)$`.
   * No group class holds `/`, so each group is the longest run of its class.
   */
  function MatchBlob(url: string): (r: Option<GitHubUrl>)
    ensures r.Some? ==>
              (r.value.Located? && IsOwner(r.value.owner) && IsRepoName(r.value.repo)
               && IsRepoName(r.value.ref) && IsFilePath(r.value.path)
               && url == BlobUrl(r.value.owner, r.value.repo, r.value.ref, r.value.path))
  {
    match AfterHost(url)
    case None => None
    case Some((owner, r1)) => BlobAfterOwner(owner, r1)
  }

  /** The rest of the file pattern, after `https://github.com/<owner>/`. */
  function BlobAfterOwner(owner: string, r1: string): (r: Option<GitHubUrl>)
    ensures r.Some? ==>
              (r.value.Located? && r.value.owner == owner && IsRepoName(r.value.repo)
               && IsRepoName(r.value.ref) && IsFilePath(r.value.path)
               && r1 == r.value.repo + ("/blob/" + (r.value.ref + ("/" + r.value.path))))
  {
    var (repo, r2) := TakeRun(r1, IsWordDotOrHyphen);
    if repo == "" || !StartsWith(r2, "/blob/") then None
    else
      var (ref, r3) := TakeRun(r2[6..], IsWordDotOrHyphen);
      if ref == "" || r3 == "" || r3[0] != '/' || !IsFilePath(r3[1..]) then None
      else
        BlobRejoin(r1, repo, r2, ref, r3);
        Some(Located(owner, repo, ref, r3[1..]))
  }

  /** The pieces a file URL was cut into join back into it. */
  lemma BlobRejoin(r1: string, repo: string, r2: string, ref: string, r3: string)
    requires r1 == repo + r2 && StartsWith(r2, "/blob/") && ref + r3 == r2[6..]
    requires r3 != "" && r3[0] == '/'
    ensures r1 == repo + ("/blob/" + (ref + ("/" + r3[1..])))
  {
    assert r2 == "/blob/" + r2[6..];
    assert r3 == "/" + r3[1..];
  }

  /** `^https:\/\/github\.com\/([\w-]+)\/([\w.-]+)\/?$` */
  function MatchRepo(url: string): (r: Option<GitHubUrl>)
    ensures r.Some? ==>
              (r.value.Located? && IsOwner(r.value.owner) && IsRepoName(r.value.repo)
               && r.value.ref == "main" && r.value.path == "SKILL.md"
               && (url == RepoUrl(r.value.owner, r.value.repo, "") || url == RepoUrl(r.value.owner, r.value.repo, "/")))
  {
    match AfterHost(url)
    case None => None
    case Some((owner, r1)) =>
      var (repo, r2) := TakeRun(r1, IsWordDotOrHyphen);
      if repo != "" && (r2 == "" || r2 == "/") then Some(Located(owner, repo, "main", "SKILL.md"))
      else None
  }

  /**
   * A file URL or a repository URL, split into its parts; every accepted URL
   * is rebuilt from its parts by one of the two shapes.
   */
  function ParseGitHubUrl(url: string): (r: GitHubUrl)
    ensures r.Unrecognized? ==> r.error == UrlError
    ensures r.Located? ==>
              (IsOwner(r.owner) && IsRepoName(r.repo)
               && ((IsRepoName(r.ref) && IsFilePath(r.path) && url == BlobUrl(r.owner, r.repo, r.ref, r.path))
                   || (r.ref == "main" && r.path == "SKILL.md"
                       && (url == RepoUrl(r.owner, r.repo, "") || url == RepoUrl(r.owner, r.repo, "/")))))
  {
    match MatchBlob(url)
    case Some(loc) => loc
    case None =>
      match MatchRepo(url)
      case Some(loc) => loc
      case None => Unrecognized(UrlError)
  }

  lemma AfterHostOf(owner: string, rest: string)
    requires IsOwner(owner)
    ensures AfterHost(GitHubPrefix + (owner + ("/" + rest))) == Some((owner, rest))
  {
    var url := GitHubPrefix + (owner + ("/" + rest));
    assert url[..19] == GitHubPrefix;
    assert url[19..] == owner + ("/" + rest);
    TakeRunOf(owner, "/" + rest, IsWordOrHyphen);
    assert ("/" + rest)[1..] == rest;
  }

  lemma {:induction false} BlobAfterOwnerOf(owner: string, repo: string, ref: string, path: string)
    requires IsRepoName(repo) && IsRepoName(ref) && IsFilePath(path)
    ensures BlobAfterOwner(owner, repo + ("/blob/" + (ref + ("/" + path)))) == Some(Located(owner, repo, ref, path))
  {
    var r2 := "/blob/" + (ref + ("/" + path));
    TakeRunOf(repo, r2, IsWordDotOrHyphen);
    assert r2[..6] == "/blob/";
    assert r2[6..] == ref + ("/" + path);
    TakeRunOf(ref, "/" + path, IsWordDotOrHyphen);
    assert ("/" + path)[1..] == path;
  }

  /** A file URL is split back into its owner, repository, ref and path. */
  lemma {:induction false} ParseBlobUrl(owner: string, repo: string, ref: string, path: string)
    requires IsOwner(owner) && IsRepoName(repo) && IsRepoName(ref) && IsFilePath(path)
    ensures ParseGitHubUrl(BlobUrl(owner, repo, ref, path)) == Located(owner, repo, ref, path)
  {
    AfterHostOf(owner, repo + ("/blob/" + (ref + ("/" + path))));
    BlobAfterOwnerOf(owner, repo, ref, path);
  }

  /** A repository URL, with or without a final slash, points at `SKILL.md` on `main`. */
  lemma {:induction false} ParseRepoUrl(owner: string, repo: string, tail: string)
    requires IsOwner(owner) && IsRepoName(repo) && (tail == "" || tail == "/")
    ensures ParseGitHubUrl(RepoUrl(owner, repo, tail)) == Located(owner, repo, "main", "SKILL.md")
  {
    AfterHostOf(owner, repo + tail);
    TakeRunOf(repo, tail, IsWordDotOrHyphen);
  }

  /** Anything else is refused with the fixed message. */
  lemma ParseGitHubUrlRejects(url: string)
    requires MatchBlob(url).None? && MatchRepo(url).None?
    ensures ParseGitHubUrl(url) == Unrecognized(UrlError)
  {
  }
}
