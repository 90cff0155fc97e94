/**
 * The sync engine (`src/lib/skill-sync.ts`): every crawled skill is turned
 * into the shared fields of a `SkillIndex` row and upserted under its
 * (owner, repo, skillId) key; a failing upsert is counted and reported and
 * the loop goes on.
 *
 * The table is a map held by a `SkillIndex` object. Whether the upsert of
 * the i-th skill throws, and with which message, is the oracle `failure(i)`.
 * The `syncedAt` timestamp is not modelled.
 */
module SkillSync {
  import opened Wrappers
  import opened Text
  import opened Json
  import opened Metadata
  import opened SkillListing
  import opened Crawler

  /** The `owner_repo_skillId` unique key. */
  type IndexKey = (string, string, string)

  /** The fields an upsert writes, both on update and on create. */
  datatype SkillRecord = SkillRecord(
    name: string,
    description: string,
    url: string,
    githubUrl: string,
    tags: string,
    installs: InstallCount)

  /** The `SkillIndex` table, one row per key. */
  class SkillIndex {
    var records: map<IndexKey, SkillRecord>

    constructor ()
      ensures records == map[]
    {
      records := map[];
    }

    /** `upsert`: the row under `key` is created or overwritten with `data`; no other row changes. */
    method Upsert(key: IndexKey, data: SkillRecord)
      modifies this
      ensures records == old(records)[key := data]
    {
      records := records[key := data];
    }
  }

  datatype SyncResult = SyncResult(synced: nat, failed: nat, total: nat, errors: seq<string>, message: string)

  function StoreKey(listing: RawSkillListing): IndexKey {
    (listing.owner, listing.repo, listing.skillId)
  }

  /** `frontmatter?.name || listing.name` */
  function ResolvedName(listing: RawSkillListing, frontmatter: Option<YamlDocument>): string {
    var fm := if frontmatter.Some? then FieldsOf(frontmatter.value) else EmptyFrontmatter;
    if Present(fm.name) then fm.name.value else listing.name
  }

  /** `frontmatter?.description || listing.listingDescription || ''` */
  function ResolvedDescription(listing: RawSkillListing, frontmatter: Option<YamlDocument>): string {
    var fm := if frontmatter.Some? then FieldsOf(frontmatter.value) else EmptyFrontmatter;
    if Present(fm.description) then fm.description.value
    else if Present(listing.listingDescription) then listing.listingDescription.value
    else ""
  }

  /** `frontmatter?.tags ?? []`: a present list is kept even when it is empty. */
  function ResolvedTags(frontmatter: Option<YamlDocument>): seq<string> {
    var fm := if frontmatter.Some? then FieldsOf(frontmatter.value) else EmptyFrontmatter;
    if fm.tags.Some? then fm.tags.value else []
  }

  /** The shared data written for one crawled skill. */
  function SharedData(skill: CrawledSkill): SkillRecord {
    var listing := skill.listing;
    SkillRecord(
      ResolvedName(listing, skill.frontmatter),
      ResolvedDescription(listing, skill.frontmatter),
      listing.url,
      "https://github.com/" + listing.owner + "/" + listing.repo,
      StringifyStrings(ResolvedTags(skill.frontmatter)),
      listing.installs)
  }

  /**
   * The front matter is preferred field by field: its name and description
   * when they are non-empty strings, its tags whenever they are present;
   * the listing supplies the rest. The stored tag text decodes back to the
   * resolved tags.
   */
  lemma SharedDataFields(skill: CrawledSkill)
    ensures var fm := if skill.frontmatter.Some? then FieldsOf(skill.frontmatter.value) else EmptyFrontmatter;
      var r := SharedData(skill);
      (Present(fm.name) ==> r.name == fm.name.value)
      && (!Present(fm.name) ==> r.name == skill.listing.name)
      && (Present(fm.description) ==> r.description == fm.description.value)
      && (!Present(fm.description) ==> r.description == OrElse(skill.listing.listingDescription, Some("")).value)
      && (fm.tags.Some? ==> ParseStrings(r.tags) == Some(fm.tags.value))
      && (fm.tags.None? ==> ParseStrings(r.tags) == Some([]))
      && r.url == skill.listing.url
  {
    ParseStringifyStrings(ResolvedTags(skill.frontmatter));
  }

  /** Without a front matter the row takes the listing's name and, lacking a listing description, "". */
  lemma ListingFallback(skill: CrawledSkill)
    requires skill.frontmatter.None? || skill.frontmatter.value.YamlSequence?
    ensures SharedData(skill).name == skill.listing.name
    ensures skill.listing.listingDescription.None? ==> SharedData(skill).description == ""
    ensures ParseStrings(SharedData(skill).tags) == Some([])
  {
    ParseStringifyStrings([]);
  }

  /** The message pushed for a failing upsert. */
  function ErrorText(listing: RawSkillListing, message: string): string {
    "Failed to upsert " + listing.owner + "/" + listing.repo + "/" + listing.skillId + ": " + message
  }

  /** The reported error names the row's key and carries the underlying message. */
  lemma ErrorTextMentions(listing: RawSkillListing, message: string)
    ensures Contains(ErrorText(listing, message), listing.owner + "/" + listing.repo + "/" + listing.skillId)
    ensures Contains(ErrorText(listing, message), message)
  {
    var key := listing.owner + "/" + listing.repo + "/" + listing.skillId;
    var e := ErrorText(listing, message);
    var head := "Failed to upsert ";
    assert e == head + key + (": " + message);
    assert e[|head|..|head| + |key|] == key;
    ContainsAt(e, key, |head|);
    assert e == (head + key + ": ") + message;
    assert e[|e| - |message|..] == message;
    ContainsAt(e, message, |e| - |message|);
  }

  /** The table after the loop: each skill whose upsert did not throw overwrites its key, in order. */
  function Applied(m: map<IndexKey, SkillRecord>, skills: seq<CrawledSkill>, failure: nat -> Option<string>)
    : map<IndexKey, SkillRecord>
    decreases |skills|
  {
    if |skills| == 0 then m
    else
      var n := |skills| - 1;
      var prev := Applied(m, skills[..n], failure);
      if failure(n).None? then prev[StoreKey(skills[n].listing) := SharedData(skills[n])] else prev
  }

  /** The errors pushed, one per failing upsert, in order. */
  function Errors(skills: seq<CrawledSkill>, failure: nat -> Option<string>): (e: seq<string>)
    ensures |e| <= |skills|
    decreases |skills|
  {
    if |skills| == 0 then []
    else
      var n := |skills| - 1;
      Errors(skills[..n], failure) + (if failure(n).Some? then [ErrorText(skills[n].listing, failure(n).value)] else [])
  }

  /** How many of the upserts throw. */
  function FailureCount(n: nat, failure: nat -> Option<string>): nat {
    if n == 0 then 0 else FailureCount(n - 1, failure) + (if failure(n - 1).Some? then 1 else 0)
  }

  /** What `syncSkillsToDb` returns. */
  function SyncSummary(skills: seq<CrawledSkill>, failure: nat -> Option<string>): SyncResult {
    var errors := Errors(skills, failure);
    var synced := |skills| - |errors|;
    SyncResult(synced, |errors|, |skills|, errors, SummaryMessage(synced, |errors|, |skills|))
  }

  /** The closing report line. */
  function SummaryMessage(synced: nat, failed: nat, total: nat): string {
    "Sync complete: " + NatToString(synced) + " synced, " + NatToString(failed) + " failed out of "
    + NatToString(total) + " total"
  }

  /** There is one error per failing upsert and every such error is the upsert's message for its skill. */
  lemma {:induction false} ErrorsOf(skills: seq<CrawledSkill>, failure: nat -> Option<string>)
    ensures |Errors(skills, failure)| == FailureCount(|skills|, failure)
    ensures forall k :: 0 <= k < |Errors(skills, failure)| ==>
      exists i: nat :: i < |skills| && failure(i).Some? && Errors(skills, failure)[k] == ErrorText(skills[i].listing, failure(i).value)
    decreases |skills|
  {
    if |skills| > 0 {
      var n := |skills| - 1;
      var init := skills[..n];
      ErrorsOf(init, failure);
      var e := Errors(skills, failure);
      var prev := Errors(init, failure);
      forall k | 0 <= k < |e|
        ensures exists i: nat :: i < |skills| && failure(i).Some? && e[k] == ErrorText(skills[i].listing, failure(i).value)
      {
        if k < |prev| {
          assert e[k] == prev[k];
          var i :| 0 <= i < |init| && failure(i).Some? && prev[k] == ErrorText(init[i].listing, failure(i).value);
          assert skills[i] == init[i];
          assert i < |skills| && failure(i).Some? && e[k] == ErrorText(skills[i].listing, failure(i).value);
        } else {
          assert n < |skills| && failure(n).Some? && e[k] == ErrorText(skills[n].listing, failure(n).value);
        }
      }
      assert forall k :: 0 <= k < |Errors(skills, failure)| ==>
        exists i: nat :: i < |skills| && failure(i).Some? && Errors(skills, failure)[k] == ErrorText(skills[i].listing, failure(i).value);
    }
  }

  /** The counters add up: every skill is either synced or failed, with one error per failure. */
  lemma SummaryCounts(skills: seq<CrawledSkill>, failure: nat -> Option<string>)
    ensures var r := SyncSummary(skills, failure);
      r.synced + r.failed == r.total == |skills| && |r.errors| == r.failed
      && r.failed == FailureCount(|skills|, failure)
  {
    ErrorsOf(skills, failure);
  }

  /** Three skills, the second of which fails to upsert: 2 synced, 1 failed, one error naming the second. */
  lemma MixedResults(skills: seq<CrawledSkill>, failure: nat -> Option<string>)
    requires |skills| == 3 && failure(0).None? && failure(1).Some? && failure(2).None?
    ensures SyncSummary(skills, failure).synced == 2 && SyncSummary(skills, failure).failed == 1
    ensures SyncSummary(skills, failure).errors == [ErrorText(skills[1].listing, failure(1).value)]
  {
    assert skills[..2][..1] == skills[..1];
    assert skills[..3] == skills;
    var e := Errors(skills, failure);
    assert e == Errors(skills[..2], failure) + [];
    assert Errors(skills[..2], failure) == Errors(skills[..1], failure) + [ErrorText(skills[1].listing, failure(1).value)];
  }

  /** The last skill with key `k` whose upsert did not throw. */
  function LastWrite(skills: seq<CrawledSkill>, failure: nat -> Option<string>, k: IndexKey): (r: Option<nat>)
    ensures r.Some? ==> r.value < |skills| && StoreKey(skills[r.value].listing) == k && failure(r.value).None?
    ensures r.Some? ==> forall j :: r.value < j < |skills| && StoreKey(skills[j].listing) == k ==> failure(j).Some?
    ensures r.None? ==> forall j :: 0 <= j < |skills| && StoreKey(skills[j].listing) == k ==> failure(j).Some?
    decreases |skills|
  {
    if |skills| == 0 then None
    else
      var n := |skills| - 1;
      if failure(n).None? && StoreKey(skills[n].listing) == k then Some(n)
      else
        var r := LastWrite(skills[..n], failure, k);
        assert forall j :: 0 <= j < n ==> skills[..n][j] == skills[j];
        r
  }

  /**
   * Last write wins: a key holds the data of the last skill with that key
   * whose upsert went through; a key no such skill has keeps its old row,
   * or stays absent.
   */
  lemma {:induction false} AppliedLookup(m: map<IndexKey, SkillRecord>, skills: seq<CrawledSkill>,
                                         failure: nat -> Option<string>, k: IndexKey)
    ensures k in Applied(m, skills, failure) <==> k in m || LastWrite(skills, failure, k).Some?
    ensures LastWrite(skills, failure, k).Some? ==>
      Applied(m, skills, failure)[k] == SharedData(skills[LastWrite(skills, failure, k).value])
    ensures LastWrite(skills, failure, k).None? && k in m ==> Applied(m, skills, failure)[k] == m[k]
    decreases |skills|
  {
    if |skills| > 0 {
      var n := |skills| - 1;
      AppliedLookup(m, skills[..n], failure, k);
      var w := LastWrite(skills[..n], failure, k);
      if !(failure(n).None? && StoreKey(skills[n].listing) == k) && w.Some? {
        assert skills[..n][w.value] == skills[w.value];
      }
    }
  }

  /** `syncSkillsToDb`: upserts every skill in turn, counting and reporting the failures. */
  method SyncSkillsToDb(index: SkillIndex, skills: seq<CrawledSkill>, failure: nat -> Option<string>)
    returns (r: SyncResult)
    modifies index
    ensures index.records == Applied(old(index.records), skills, failure)
    ensures r == SyncSummary(skills, failure)
  {
    var synced, failed := 0, 0;
    var errors: seq<string> := [];
    for i := 0 to |skills|
      invariant index.records == Applied(old(index.records), skills[..i], failure)
      invariant errors == Errors(skills[..i], failure)
      invariant failed == |errors| && synced + failed == i
    {
      assert skills[..i + 1][..i] == skills[..i];
      var listing := skills[i].listing;
      var data := SharedData(skills[i]);
      var thrown := failure(i);
      if thrown.None? {
        index.Upsert(StoreKey(listing), data);
        synced := synced + 1;
      } else {
        failed := failed + 1;
        errors := errors + [ErrorText(listing, thrown.value)];
      }
    }
    assert skills[..|skills|] == skills;
    r := SyncResult(synced, failed, |skills|, errors, SummaryMessage(synced, failed, |skills|));
  }
}
