/**
 * The first half of the skills.sh crawler (`src/lib/crawler.ts`): what a
 * fetch returns, the anchors of a page, the filters that pick skill links,
 * how a link becomes a `RawSkillListing` (including the install count read
 * from the link text), the de-duplication by owner/repo/skillId and the
 * `slice` that applies offset and limit.
 *
 * Fetching and HTML parsing are not modelled: a fetch is an `HttpOutcome`
 * and a parsed page is the sequence of its `<a href>` anchors.
 */
module SkillListing {
  import opened Wrappers
  import opened Text

  /** A fetch that resolved with a response, or one that threw. */
  datatype HttpOutcome =
    | Response(status: int, statusText: string, body: string)
    | NetworkError(message: string)

  /** `response.ok`: a status in 200..299. */
  predicate IsOk(o: HttpOutcome) {
    o.Response? && 200 <= o.status <= 299
  }

  /** An `<a href>` element: its `href` attribute and its untrimmed text. */
  datatype Anchor = Anchor(href: string, text: string)

  /** A link kept for parsing: the href and the trimmed text. */
  datatype Link = Link(href: string, text: string)

  /** An install count: a number, `NaN`, or (for listings that carry none) `undefined`. */
  datatype InstallCount = Count(n: int) | NotANumber | Absent

  datatype RawSkillListing = RawSkillListing(
    name: string,
    owner: string,
    repo: string,
    skillId: string,
    url: string,
    installs: InstallCount,
    listingDescription: Option<string>)

  const BaseUrl := "https://skills.sh"

  // ---------------------------------------------------------------------
  // Filtering and mapping in document order

  /** Maps every element through `f` and keeps the defined results, in order. */
  function FilterMap<A, B>(xs: seq<A>, f: A -> Option<B>): (r: seq<B>)
    ensures |r| <= |xs|
    decreases |xs|
  {
    if |xs| == 0 then []
    else FilterMap(xs[..|xs| - 1], f) + (match f(xs[|xs| - 1]) case Some(y) => [y] case None => [])
  }

  lemma FilterMapSnoc<A, B>(xs: seq<A>, x: A, f: A -> Option<B>)
    ensures FilterMap(xs + [x], f) == FilterMap(xs, f) + (match f(x) case Some(y) => [y] case None => [])
  {
    assert (xs + [x])[..|xs|] == xs;
  }

  /** The push loop over a list: each element's defined result appended in turn. */
  method Collect<A, B>(xs: seq<A>, f: A -> Option<B>) returns (ys: seq<B>)
    ensures ys == FilterMap(xs, f)
  {
    ys := [];
    for i := 0 to |xs|
      invariant ys == FilterMap(xs[..i], f)
    {
      FilterMapSnoc(xs[..i], xs[i], f);
      assert xs[..i + 1] == xs[..i] + [xs[i]];
      var y := f(xs[i]);
      if y.Some? {
        ys := ys + [y.value];
      }
    }
    assert xs[..|xs|] == xs;
  }

  /** Maps the elements through `f` up to the first undefined result, which ends the list. */
  function MapWhile<A, B>(xs: seq<A>, f: A -> Option<B>): (r: seq<B>)
    ensures |r| <= |xs|
    ensures forall k :: 0 <= k < |r| ==> f(xs[k]) == Some(r[k])
    ensures |r| < |xs| ==> f(xs[|r|]).None?
    decreases |xs|
  {
    if |xs| == 0 then []
    else
      match f(xs[0])
      case None => []
      case Some(y) =>
        var rest := MapWhile(xs[1..], f);
        assert forall k :: 1 <= k <= |rest| ==> xs[k] == xs[1..][k - 1];
        [y] + rest
  }

  /** The push loop that a throwing element leaves: the results pushed before it are kept. */
  method CollectWhile<A, B>(xs: seq<A>, f: A -> Option<B>) returns (ys: seq<B>)
    ensures ys == MapWhile(xs, f)
  {
    ghost var r := MapWhile(xs, f);
    ys := [];
    var i := 0;
    while i < |xs|
      invariant i <= |r| && ys == r[..i]
    {
      var y := f(xs[i]);
      if y.None? {
        assert ys == r;
        return;
      }
      assert r[..i + 1] == r[..i] + [y.value];
      ys := ys + [y.value];
      i := i + 1;
    }
    assert ys == r;
  }

  /** Filtering one list after another is filtering each: the order is kept. */
  lemma {:induction false} FilterMapAppend<A, B>(xs: seq<A>, ys: seq<A>, f: A -> Option<B>)
    ensures FilterMap(xs + ys, f) == FilterMap(xs, f) + FilterMap(ys, f)
    decreases |ys|
  {
    if |ys| == 0 {
      assert xs + ys == xs;
    } else {
      var last := ys[|ys| - 1];
      var init := ys[..|ys| - 1];
      assert xs + ys == (xs + init) + [last];
      assert ys == init + [last];
      FilterMapSnoc(xs + init, last, f);
      FilterMapSnoc(init, last, f);
      FilterMapAppend(xs, init, f);
    }
  }

  /** Every defined image shows up in the output, and nothing else does. */
  lemma {:induction false} FilterMapMembers<A, B>(xs: seq<A>, f: A -> Option<B>, y: B)
    ensures y in FilterMap(xs, f) <==> exists i :: 0 <= i < |xs| && f(xs[i]) == Some(y)
    decreases |xs|
  {
    if |xs| > 0 {
      var init := xs[..|xs| - 1];
      FilterMapMembers(init, f, y);
      if exists i :: 0 <= i < |xs| && f(xs[i]) == Some(y) {
        var i :| 0 <= i < |xs| && f(xs[i]) == Some(y);
        if i < |init| {
          assert init[i] == xs[i];
        }
      }
      if y in FilterMap(init, f) {
        var i :| 0 <= i < |init| && f(init[i]) == Some(y);
        assert xs[i] == init[i];
      }
    }
  }

  /** When every element has an image the output is the plain map. */
  lemma {:induction false} FilterMapTotal<A, B>(xs: seq<A>, f: A -> Option<B>)
    requires forall i :: 0 <= i < |xs| ==> f(xs[i]).Some?
    ensures |FilterMap(xs, f)| == |xs|
    ensures forall i :: 0 <= i < |xs| ==> FilterMap(xs, f)[i] == f(xs[i]).value
    decreases |xs|
  {
    if |xs| > 0 {
      var init := xs[..|xs| - 1];
      FilterMapTotal(init, f);
    }
  }

  // ---------------------------------------------------------------------
  // Which hrefs are skill links

  /** `^\/[a-zA-Z0-9_-]+\/[a-zA-Z0-9_-]+`: two non-empty segments of `[\w-]` at the start. */
  predicate IsSkillHref(href: string) {
    |href| >= 1 && href[0] == '/'
    && var e := RunEnd(href, 1, IsWordOrHyphen);
    e > 1 && e + 1 < |href| && href[e] == '/' && IsWordOrHyphen(href[e + 1])
  }

  /** The prefixes that mark a root-page link as site navigation rather than a skill. */
  const ExcludedPrefixes: seq<string> :=
    ["/api/", "/auth/", "/settings/", "/about", "/docs", "/login", "/signup", "/search"]

  /** A root-page href kept as a skill candidate. */
  predicate IsRootCandidate(href: string) {
    IsSkillHref(href) && forall k :: 0 <= k < |ExcludedPrefixes| ==> !StartsWith(href, ExcludedPrefixes[k])
  }

  /** A browse-page href kept as a skill candidate. */
  predicate IsBrowseCandidate(href: string) {
    |Segments(href, '/')| >= 2 && !StartsWith(href, "/api/") && !StartsWith(href, "/auth/") && '.' !in href
  }

  /** The link an anchor gives when its href passes `keep`. */
  function KeptLink(keep: string -> bool, a: Anchor): (r: Option<Link>)
    ensures r.Some? <==> keep(a.href)
    ensures r.Some? ==> r.value.href == a.href && r.value.text == Trim(a.text)
  {
    if keep(a.href) then Some(Link(a.href, Trim(a.text))) else None
  }

  /** The links of a page whose href passes `keep`, in document order. */
  function KeptLinks(anchors: seq<Anchor>, keep: string -> bool): seq<Link> {
    FilterMap(anchors, a => KeptLink(keep, a))
  }

  /** The `$('a[href]').each(...)` loop that collects the candidate links of a page. */
  method CollectLinks(anchors: seq<Anchor>, keep: string -> bool) returns (links: seq<Link>)
    ensures links == KeptLinks(anchors, keep)
  {
    links := [];
    for i := 0 to |anchors|
      invariant links == KeptLinks(anchors[..i], keep)
    {
      FilterMapSnoc(anchors[..i], anchors[i], a => KeptLink(keep, a));
      assert anchors[..i + 1] == anchors[..i] + [anchors[i]];
      if keep(anchors[i].href) {
        links := links + [Link(anchors[i].href, Trim(anchors[i].text))];
      }
    }
    assert anchors[..|anchors|] == anchors;
  }

  /** A link is kept exactly when some anchor's href passes the filter. */
  lemma KeptLinksMembers(anchors: seq<Anchor>, keep: string -> bool, l: Link)
    ensures l in KeptLinks(anchors, keep) <==>
              exists i :: 0 <= i < |anchors| && keep(anchors[i].href) && l == Link(anchors[i].href, Trim(anchors[i].text))
  {
    FilterMapMembers(anchors, a => KeptLink(keep, a), l);
  }

  /** `/<owner>/<repo>` followed by anything is a skill href. */
  lemma SkillHrefOf(owner: string, repo: string, tail: string)
    requires |owner| > 0 && AllChars(owner, IsWordOrHyphen)
    requires |repo| > 0 && AllChars(repo, IsWordOrHyphen)
    ensures IsSkillHref("/" + owner + "/" + repo + tail)
  {
    var h := "/" + owner + "/" + repo + tail;
    assert h[1..] == owner + ("/" + repo + tail);
    RunEndAt(h, 1, owner, "/" + repo + tail, IsWordOrHyphen);
    assert h[1 + |owner|] == '/';
    assert h[2 + |owner|] == repo[0];
  }

  /** A skill href always has at least two non-empty segments, so it yields a listing. */
  lemma SkillHrefSegments(href: string)
    requires IsSkillHref(href)
    ensures |Segments(href, '/')| >= 2
    ensures Segments(href, '/')[0] == href[1..RunEnd(href, 1, IsWordOrHyphen)]
  {
    var e := RunEnd(href, 1, IsWordOrHyphen);
    var owner := href[1..e];
    var t := href[e + 1..];
    assert '/' !in owner by {
      forall k | 0 <= k < |owner| ensures owner[k] != '/' {
        assert owner[k] == href[1 + k];
      }
    }
    assert href == [] + ['/'] + (owner + ['/'] + t);
    SplitCons([], '/', owner + ['/'] + t);
    SplitCons(owner, '/', t);
    var st := Split(t, '/');
    assert t[0] != '/';
    assert st[0] != "" by {
      assert |t| > 0;
    }
    var parts := [""] + ([owner] + st);
    assert Split(href, '/') == parts;
    assert parts[1..] == [owner] + st;
    assert ([owner] + st)[1..] == st;
    assert st == [st[0]] + st[1..];
    assert NonEmptyOnly(st) == [st[0]] + NonEmptyOnly(st[1..]);
    assert NonEmptyOnly(parts) == [owner] + NonEmptyOnly(st);
  }

  // ---------------------------------------------------------------------
  // Install counts: `/([\d.]+)K\s*$/`, `parseFloat`, `* 1000`, `Math.round`

  /**
   * Where `([\d.]+)K\s*$` matches: the group `text[b..k]` and the `K` at `k`.
   * The `K` must be the last character that is not white space, and the group
   * starts as far left as the run of digits and dots goes.
   */
  function KSuffix(text: string): (r: Option<(nat, nat)>)
    ensures r.Some? ==>
              (var (b, k) := r.value;
               b < k < |text| && text[k] == 'K'
               && (forall i :: k < i < |text| ==> IsWhitespace(text[i]))
               && (forall i :: b <= i < k ==> IsDigitOrDot(text[i]))
               && (b == 0 || !IsDigitOrDot(text[b - 1])))
  {
    var e := RunStart(text, |text|, IsWhitespace);
    if e == 0 || text[e - 1] != 'K' then None
    else
      var k := e - 1;
      var b := RunStart(text, k, IsDigitOrDot);
      if b == k then None else Some((b, k))
  }

  /** The only `K` that white space alone may follow is the last character that is not white space. */
  lemma LastK(text: string, k: nat)
    requires k < |text| && text[k] == 'K' && forall i :: k < i < |text| ==> IsWhitespace(text[i])
    ensures k == RunStart(text, |text|, IsWhitespace) - 1
  {
    assert !IsWhitespace(text[k]);
  }

  /** No match: every `K` followed by white space alone lacks a digit or dot before it. */
  lemma KSuffixNone(text: string)
    requires KSuffix(text).None?
    ensures forall k :: 0 < k < |text| && text[k] == 'K' && (forall i :: k < i < |text| ==> IsWhitespace(text[i]))
                        ==> !IsDigitOrDot(text[k - 1])
  {
    forall k | 0 < k < |text| && text[k] == 'K' && (forall i :: k < i < |text| ==> IsWhitespace(text[i]))
      ensures !IsDigitOrDot(text[k - 1])
    {
      LastK(text, k);
    }
  }

  /**
   * What `parseFloat` reads from a text of digits and dots: the leading
   * digits and, after one dot, the digits that follow. `None` is `NaN`
   * (no digit on either side of the first dot).
   */
  function DecimalPrefix(g: string): (r: Option<(string, string)>)
    ensures r.Some? ==> AllChars(r.value.0, IsDigit) && AllChars(r.value.1, IsDigit) && (|r.value.0| > 0 || |r.value.1| > 0)
  {
    var w := RunEnd(g, 0, IsDigit);
    var f := if w < |g| && g[w] == '.' then g[w + 1..RunEnd(g, w + 1, IsDigit)] else "";
    if w == 0 && |f| == 0 then None else Some((g[..w], f))
  }

  /** `Math.round(num / den)`: the nearest integer, halves rounded up. */
  function RoundHalfUp(num: nat, den: nat): (n: nat)
    requires den > 0
    ensures (2 * n - 1) * den <= 2 * num < (2 * n + 1) * den
  {
    (2 * num + den) / (2 * den)
  }

  /** `Math.round(x * 1000)` for the decimal `x = whole.frac` with `fracLen` fraction digits. */
  function Thousands(whole: nat, frac: nat, fracLen: nat): nat {
    RoundHalfUp((whole * Pow10(fracLen) + frac) * 1000, Pow10(fracLen))
  }

  /** The install count of a link text; 0 when the text has no `<number>K` suffix. */
  function InstallsOf(text: string): (r: InstallCount)
    ensures KSuffix(text).None? ==> r == Count(0)
    ensures r.Count? ==> r.n >= 0
  {
    match KSuffix(text)
    case None => Count(0)
    case Some((b, k)) =>
      match DecimalPrefix(text[b..k])
      case None => NotANumber
      case Some((w, f)) => Count(Thousands(DigitsValue(w), DigitsValue(f), |f|))
  }

  lemma Pow10Split(l: nat)
    requires l <= 3
    ensures Pow10(l) * Pow10(3 - l) == 1000
  {
  }

  /** With at most three fraction digits, scaling by 1000 is exact and nothing is rounded. */
  lemma ThousandsExact(whole: nat, frac: nat, fracLen: nat)
    requires fracLen <= 3 && frac < Pow10(fracLen)
    ensures Thousands(whole, frac, fracLen) == whole * 1000 + frac * Pow10(3 - fracLen)
  {
    var p := Pow10(fracLen);
    var q := Pow10(3 - fracLen);
    Pow10Split(fracLen);
    var m := whole * 1000 + frac * q;
    ScaleByThousand(whole, frac, p, q);
    var n := Thousands(whole, frac, fracLen);
    assert (2 * n - 1) * p <= 2 * (p * m) < (2 * n + 1) * p;
    ScaledBetween(n, m, p);
  }

  lemma ScaleByThousand(whole: int, frac: int, p: int, q: int)
    requires p * q == 1000
    ensures (whole * p + frac) * 1000 == p * (whole * 1000 + frac * q)
  {
    assert (whole * p + frac) * 1000 == whole * p * 1000 + frac * 1000;
    assert frac * 1000 == frac * (p * q);
    assert frac * (p * q) == p * (frac * q);
    assert whole * p * 1000 == p * (whole * 1000);
  }

  lemma ScaledBetween(n: int, m: int, p: int)
    requires p > 0
    requires (2 * n - 1) * p <= 2 * (p * m) < (2 * n + 1) * p
    ensures n == m
  {
    var a := 2 * (n - m) - 1;
    var c := 2 * (n - m) + 1;
    assert (2 * n - 1) * p - 2 * (p * m) == a * p;
    assert (2 * n + 1) * p - 2 * (p * m) == c * p;
    ProductSign(a, p);
    ProductSign(c, p);
  }

  lemma ProductSign(a: int, p: int)
    requires p > 0
    ensures a > 0 ==> a * p > 0
    ensures a <= 0 ==> a * p <= 0
  {
  }

  /** Where the install pattern matches a text ending in `<digits and dots>K` and white space. */
  lemma {:induction false} KSuffixOf(text: string, pre: string, g: string, ws: string)
    requires text == pre + g + "K" + ws
    requires |g| > 0 && AllChars(g, IsDigitOrDot) && AllChars(ws, IsWhitespace)
    requires |pre| == 0 || !IsDigitOrDot(pre[|pre| - 1])
    ensures KSuffix(text) == Some((|pre| as nat, (|pre| + |g|) as nat)) && text[|pre|..|pre| + |g|] == g
  {
    var b: nat := |pre|;
    var k: nat := |pre| + |g|;
    assert text[..|text|] == (pre + g + "K") + ws;
    RunStartAt(text, |text|, pre + g + "K", ws, IsWhitespace);
    assert text[k] == 'K';
    assert text[..k] == pre + g;
    RunStartAt(text, k, pre, g, IsDigitOrDot);
    assert text[b..k] == g;
  }

  lemma DecimalPrefixOf(w: string, f: string)
    requires AllChars(w, IsDigit) && AllChars(f, IsDigit) && (|w| > 0 || |f| > 0)
    ensures DecimalPrefix(w + "." + f) == Some((w, f))
  {
    var g := w + "." + f;
    var tail := "." + f;
    assert g == w + tail && g[0..] == g;
    RunEndAt(g, 0, w, tail, IsDigit);
    assert g[|w| + 1..] == f == f + "";
    RunEndAt(g, |w| + 1, f, "", IsDigit);
    DecimalPrefixSplit(g, |w|);
    assert g[..|w|] == w && g[|w| + 1..|g|] == f;
  }

  /** The decimal prefix of a text made of a digit run, a dot and a digit run to the end. */
  lemma DecimalPrefixSplit(g: string, a: nat)
    requires a < |g| && g[a] == '.' && RunEnd(g, 0, IsDigit) == a && RunEnd(g, a + 1, IsDigit) == |g|
    requires a > 0 || a + 1 < |g|
    ensures DecimalPrefix(g) == Some((g[..a], g[a + 1..|g|]))
  {
  }

  lemma DecimalPrefixWhole(w: string)
    requires AllChars(w, IsDigit) && |w| > 0
    ensures DecimalPrefix(w) == Some((w, ""))
  {
    assert w[0..] == w + "";
    RunEndAt(w, 0, w, "", IsDigit);
    assert w[..|w|] == w;
  }

  /** `<digits>.<digits>K` at the end of a text (before trailing white space). */
  lemma {:induction false} InstallsOfDecimal(text: string, pre: string, w: string, f: string, ws: string)
    requires text == pre + (w + "." + f) + "K" + ws
    requires AllChars(w, IsDigit) && AllChars(f, IsDigit) && (|w| > 0 || |f| > 0) && |f| <= 3
    requires AllChars(ws, IsWhitespace)
    requires |pre| == 0 || !IsDigitOrDot(pre[|pre| - 1])
    ensures InstallsOf(text) == Count(DigitsValue(w) * 1000 + DigitsValue(f) * Pow10(3 - |f|))
  {
    var g := w + "." + f;
    DecimalChars(w, f);
    KSuffixOf(text, pre, g, ws);
    DecimalPrefixOf(w, f);
    var b: nat, k: nat := |pre|, |pre| + |g|;
    InstallsOfExact(text, b, k, g, w, f);
  }

  lemma InstallsOfExact(text: string, b: nat, k: nat, g: string, w: string, f: string)
    requires KSuffix(text) == Some((b, k)) && k <= |text| && text[b..k] == g
    requires DecimalPrefix(g) == Some((w, f))
    requires AllChars(w, IsDigit) && AllChars(f, IsDigit) && |f| <= 3
    ensures InstallsOf(text) == Count(DigitsValue(w) * 1000 + DigitsValue(f) * Pow10(3 - |f|))
  {
    InstallsOfMatch(text, b, k, g, w, f);
    ExactCount(w, f);
  }

  lemma ExactCount(w: string, f: string)
    requires AllChars(w, IsDigit) && AllChars(f, IsDigit) && |f| <= 3
    ensures Thousands(DigitsValue(w), DigitsValue(f), |f|) == DigitsValue(w) * 1000 + DigitsValue(f) * Pow10(3 - |f|)
  {
    DigitsBelow(f);
    ThousandsExact(DigitsValue(w), DigitsValue(f), |f|);
  }

  lemma DecimalChars(w: string, f: string)
    requires AllChars(w, IsDigit) && AllChars(f, IsDigit)
    ensures AllChars(w + "." + f, IsDigitOrDot)
  {
    var g := w + "." + f;
    forall i | 0 <= i < |g| ensures IsDigitOrDot(g[i]) {
      if i < |w| { assert g[i] == w[i]; }
      else if i > |w| { assert g[i] == f[i - |w| - 1]; }
    }
  }

  lemma InstallsOfMatch(text: string, b: nat, k: nat, g: string, w: string, f: string)
    requires KSuffix(text) == Some((b, k)) && k <= |text| && text[b..k] == g
    requires DecimalPrefix(g) == Some((w, f))
    ensures InstallsOf(text) == Count(Thousands(DigitsValue(w), DigitsValue(f), |f|))
  {
  }

  /** `<digits>K` at the end of a text (before trailing white space). */
  lemma {:induction false} InstallsOfWhole(pre: string, w: string, ws: string)
    requires AllChars(w, IsDigit) && |w| > 0
    requires AllChars(ws, IsWhitespace)
    requires |pre| == 0 || !IsDigitOrDot(pre[|pre| - 1])
    ensures InstallsOf(pre + w + "K" + ws) == Count(DigitsValue(w) * 1000)
  {
    KSuffixOf(pre + w + "K" + ws, pre, w, ws);
    var b: nat, k: nat := |pre|, |pre| + |w|;
    assert KSuffix(pre + w + "K" + ws) == Some((b, k));
    DecimalPrefixWhole(w);
    ThousandsExact(DigitsValue(w), 0, 0);
    assert DigitsValue("") == 0;
    InstallsOfMatch(pre + w + "K" + ws, b, k, w, w, "");
  }

  /** A digit string of length `l` is below `10^l`. */
  lemma {:induction false} DigitsBelow(s: string)
    requires AllChars(s, IsDigit)
    ensures DigitsValue(s) < Pow10(|s|)
    decreases |s|
  {
    if |s| > 0 {
      DigitsBelow(s[..|s| - 1]);
    }
  }

  /** Link texts as they appear on skills.sh: a title, then the count. */
  lemma InstallsExamples(findSkills: string, plain: string)
    requires findSkills == "Find Skills 162.2K" && plain == "My Skill"
    ensures InstallsOf(findSkills) == Count(162200)
    ensures InstallsOf(plain) == Count(0)
  {
    DigitsValueSmall();
    var pre, w, f := "Find Skills ", "162", "2";
    assert findSkills == pre + (w + "." + f) + "K" + "";
    InstallsOfDecimal(findSkills, pre, w, f, "");
    assert DigitsValue(w) * 1000 + DigitsValue(f) * Pow10(3 - |f|) == 162200 by {
      assert Pow10(2) == 100;
    }
    NoKNoInstalls(plain);
  }

  /** A text whose last character is neither white space nor `K` counts 0 installs. */
  lemma NoKNoInstalls(text: string)
    requires |text| > 0 && !IsWhitespace(text[|text| - 1]) && text[|text| - 1] != 'K'
    ensures InstallsOf(text) == Count(0)
  {
    assert text[..|text|] == text + "";
    RunStartAt(text, |text|, text, "", IsWhitespace);
  }

  lemma DigitsValueSmall()
    ensures DigitsValue("162") == 162 && DigitsValue("2") == 2
  {
    assert "162"[..2] == "16" && "16"[..1] == "1";
    assert "1"[..0] == "" && "2"[..0] == "";
  }

  /** A text that does not end in `K` (up to trailing white space) counts 0 installs. */
  lemma NoSuffixNoInstalls(text: string)
    requires forall k :: 0 <= k < |text| && (forall i :: k < i < |text| ==> IsWhitespace(text[i])) ==> text[k] != 'K'
    ensures InstallsOf(text) == Count(0)
  {
  }

  // ---------------------------------------------------------------------
  // Links to listings

  /**
   * The listing a link stands for, by its non-empty path segments: three or
   * more give owner, repo and the rest as skill id; two give owner and repo,
   * with the repo as skill id and no installs; fewer give nothing.
   */
  function ListingOf(link: Link): (r: Option<RawSkillListing>)
    ensures r.Some? <==> |Segments(link.href, '/')| >= 2
    ensures r.Some? ==> r.value.url == BaseUrl + link.href && r.value.name == r.value.skillId
                        && r.value.listingDescription.None?
  {
    var parts := Segments(link.href, '/');
    if |parts| >= 3 then
      var skillId := Join(parts[2..], "/");
      Some(RawSkillListing(skillId, parts[0], parts[1], skillId, BaseUrl + link.href, InstallsOf(link.text), None))
    else if |parts| == 2 then
      Some(RawSkillListing(parts[1], parts[0], parts[1], parts[1], BaseUrl + link.href, Count(0), None))
    else None
  }

  function ParsedLinks(links: seq<Link>): seq<RawSkillListing> {
    FilterMap(links, ListingOf)
  }

  /** The `for ... of links` loop of `parseSkillLinks`. */
  method ParseSkillLinks(links: seq<Link>) returns (skills: seq<RawSkillListing>)
    ensures skills == ParsedLinks(links)
  {
    skills := [];
    for i := 0 to |links|
      invariant skills == ParsedLinks(links[..i])
    {
      FilterMapSnoc(links[..i], links[i], ListingOf);
      assert links[..i + 1] == links[..i] + [links[i]];
      var parts := Segments(links[i].href, '/');
      if |parts| >= 3 {
        var skillId := Join(parts[2..], "/");
        skills := skills + [RawSkillListing(skillId, parts[0], parts[1], skillId, BaseUrl + links[i].href,
                                            InstallsOf(links[i].text), None)];
      } else if |parts| == 2 {
        skills := skills + [RawSkillListing(parts[1], parts[0], parts[1], parts[1], BaseUrl + links[i].href,
                                            Count(0), None)];
      }
    }
    assert links[..|links|] == links;
  }

  /** A path `/<owner>/<repo>/<s1>/.../<sn>` gives owner, repo and skill id `s1/.../sn`. */
  lemma ListingOfSkillPath(owner: string, repo: string, rest: seq<string>, text: string)
    requires |rest| >= 1
    requires forall k :: 0 <= k < |[owner, repo] + rest| ==> ([owner, repo] + rest)[k] != "" && '/' !in ([owner, repo] + rest)[k]
    ensures var href := "/" + Join([owner, repo] + rest, "/");
      ListingOf(Link(href, text))
        == Some(RawSkillListing(Join(rest, "/"), owner, repo, Join(rest, "/"), BaseUrl + href, InstallsOf(text), None))
  {
    SegmentsOfPath([owner, repo] + rest, '/');
    assert ([owner, repo] + rest)[2..] == rest;
  }

  /** A path `/<owner>/<repo>` gives the repo as name and skill id, with 0 installs. */
  lemma ListingOfRepoPath(owner: string, repo: string, text: string)
    requires owner != "" && '/' !in owner && repo != "" && '/' !in repo
    ensures var href := "/" + Join([owner, repo], "/");
      ListingOf(Link(href, text)) == Some(RawSkillListing(repo, owner, repo, repo, BaseUrl + href, Count(0), None))
  {
    SegmentsOfPath([owner, repo], '/');
  }

  /** Every root-page candidate becomes a listing, so none is lost between filter and parse. */
  lemma RootCandidatesAllParse(links: seq<Link>)
    requires forall i :: 0 <= i < |links| ==> IsRootCandidate(links[i].href)
    ensures |ParsedLinks(links)| == |links|
    ensures forall i :: 0 <= i < |links| ==> ListingOf(links[i]).Some? && ParsedLinks(links)[i] == ListingOf(links[i]).value
  {
    forall i | 0 <= i < |links| ensures ListingOf(links[i]).Some? {
      SkillHrefSegments(links[i].href);
    }
    FilterMapTotal(links, ListingOf);
  }

  // ---------------------------------------------------------------------
  // De-duplication and slicing

  /** The de-duplication key `${owner}/${repo}/${skillId}`. */
  function Key(s: RawSkillListing): string {
    s.owner + "/" + s.repo + "/" + s.skillId
  }

  function KeysOf<T>(xs: seq<T>, key: T -> string): (r: set<string>)
    ensures forall i :: 0 <= i < |xs| ==> key(xs[i]) in r
    ensures forall k :: k in r ==> exists i :: 0 <= i < |xs| && key(xs[i]) == k
    decreases |xs|
  {
    if |xs| == 0 then {}
    else
      var init := xs[..|xs| - 1];
      var r := KeysOf(init, key) + {key(xs[|xs| - 1])};
      assert forall i :: 0 <= i < |init| ==> init[i] == xs[i];
      r
  }

  /** The `seen`-set filter: an element is kept when no earlier element had its key. */
  function Dedup<T>(xs: seq<T>, key: T -> string): seq<T>
    decreases |xs|
  {
    if |xs| == 0 then []
    else
      var init := xs[..|xs| - 1];
      Dedup(init, key) + (if key(xs[|xs| - 1]) in KeysOf(init, key) then [] else [xs[|xs| - 1]])
  }

  method DedupByKey<T>(xs: seq<T>, key: T -> string) returns (unique: seq<T>)
    ensures unique == Dedup(xs, key)
  {
    var seen: set<string> := {};
    unique := [];
    for i := 0 to |xs|
      invariant seen == KeysOf(xs[..i], key)
      invariant unique == Dedup(xs[..i], key)
    {
      assert xs[..i + 1][..i] == xs[..i];
      if key(xs[i]) !in seen {
        seen := seen + {key(xs[i])};
        unique := unique + [xs[i]];
      } else {
        seen := seen + {key(xs[i])};
      }
    }
    assert xs[..|xs|] == xs;
  }

  /** De-duplication loses no key. */
  lemma {:induction false} DedupKeys<T>(xs: seq<T>, key: T -> string)
    ensures KeysOf(Dedup(xs, key), key) == KeysOf(xs, key)
    decreases |xs|
  {
    if |xs| > 0 {
      var init := xs[..|xs| - 1];
      var x := xs[|xs| - 1];
      DedupKeys(init, key);
      var d := Dedup(init, key);
      if key(x) !in KeysOf(init, key) {
        var r := d + [x];
        assert Dedup(xs, key) == r;
        assert r[..|r| - 1] == d;
        assert KeysOf(r, key) == KeysOf(d, key) + {key(x)};
      } else {
        assert Dedup(xs, key) == d;
      }
      assert KeysOf(xs, key) == KeysOf(init, key) + {key(x)};
    }
  }

  /** The kept elements have pairwise distinct keys. */
  lemma {:induction false} DedupDistinct<T>(xs: seq<T>, key: T -> string)
    ensures forall i, j :: 0 <= i < j < |Dedup(xs, key)| ==> key(Dedup(xs, key)[i]) != key(Dedup(xs, key)[j])
    decreases |xs|
  {
    if |xs| > 0 {
      var init := xs[..|xs| - 1];
      var x := xs[|xs| - 1];
      DedupDistinct(init, key);
      var d := Dedup(init, key);
      if key(x) !in KeysOf(init, key) {
        DedupKeys(init, key);
        var r := d + [x];
        assert Dedup(xs, key) == r;
        forall i | 0 <= i < |d| ensures key(r[i]) != key(x) {
          assert key(d[i]) in KeysOf(d, key);
        }
      }
    }
  }

  /** Every kept element is the first element of the input with its key, and keeps its input order. */
  lemma {:induction false} DedupKeepsFirsts<T>(xs: seq<T>, key: T -> string, j: nat)
    requires j < |Dedup(xs, key)|
    ensures exists i :: 0 <= i < |xs| && Dedup(xs, key)[j] == xs[i]
                        && forall l :: 0 <= l < i ==> key(xs[l]) != key(xs[i])
    decreases |xs|
  {
    var init := xs[..|xs| - 1];
    var x := xs[|xs| - 1];
    var d := Dedup(init, key);
    if j < |d| {
      DedupKeepsFirsts(init, key, j);
      var i :| 0 <= i < |init| && d[j] == init[i] && forall l :: 0 <= l < i ==> key(init[l]) != key(init[i]);
      assert xs[i] == init[i];
      assert forall l :: 0 <= l < i ==> xs[l] == init[l];
    } else {
      assert key(x) !in KeysOf(init, key);
      assert Dedup(xs, key)[j] == x;
      forall l | 0 <= l < |xs| - 1 ensures key(xs[l]) != key(x) {
        assert init[l] == xs[l];
      }
    }
  }

  /** The first element with each key is kept. */
  lemma {:induction false} DedupKeepsEveryFirst<T>(xs: seq<T>, key: T -> string, i: nat)
    requires i < |xs| && forall l :: 0 <= l < i ==> key(xs[l]) != key(xs[i])
    ensures exists j :: 0 <= j < |Dedup(xs, key)| && Dedup(xs, key)[j] == xs[i]
    decreases |xs|
  {
    var init := xs[..|xs| - 1];
    var d := Dedup(init, key);
    if i < |init| {
      assert forall l :: 0 <= l <= i ==> init[l] == xs[l];
      DedupKeepsEveryFirst(init, key, i);
      var j :| 0 <= j < |d| && d[j] == init[i];
      assert Dedup(xs, key)[j] == d[j];
    } else {
      assert Dedup(xs, key)[|d|] == xs[i];
    }
  }

  /** A list whose keys are already distinct is left as it is. */
  lemma {:induction false} DedupDistinctIdentity<T>(xs: seq<T>, key: T -> string)
    requires forall i, j :: 0 <= i < j < |xs| ==> key(xs[i]) != key(xs[j])
    ensures Dedup(xs, key) == xs
    decreases |xs|
  {
    if |xs| > 0 {
      var init := xs[..|xs| - 1];
      DedupDistinctIdentity(init, key);
      assert init + [xs[|xs| - 1]] == xs;
    }
  }

  /** `xs.slice(start, end)` with JavaScript's clamping of negative and oversized bounds. */
  function JsSlice<T>(xs: seq<T>, start: int, end: int): (r: seq<T>)
    ensures |r| <= |xs| && (start <= end ==> |r| <= end - start)
    ensures var from := if start < 0 then Max(|xs| + start, 0) else Min(start, |xs|);
      from + |r| <= |xs| && r == xs[from..from + |r|]
  {
    var from := if start < 0 then Max(|xs| + start, 0) else Min(start, |xs|);
    var to := if end < 0 then Max(|xs| + end, 0) else Min(end, |xs|);
    if to <= from then [] else xs[from..to]
  }

  function Min(a: int, b: int): int { if a <= b then a else b }
  function Max(a: int, b: int): int { if a >= b then a else b }

  /** With a non-negative offset and count, the slice is the window `[offset, offset + count)` cut at the end. */
  lemma JsSliceWindow<T>(xs: seq<T>, offset: int, count: int)
    requires 0 <= offset && 0 <= count
    ensures JsSlice(xs, offset, offset + count) == xs[Min(offset, |xs|)..Min(offset + count, |xs|)]
    ensures |JsSlice(xs, offset, offset + count)| <= count
  {
  }
}
