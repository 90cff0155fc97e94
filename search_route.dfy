/**
 * `GET /api/skills/search` (`src/app/api/skills/search/route.ts`): the quick
 * search of the command palette. A query shorter than two characters after
 * trimming answers an empty list without a lookup; otherwise each skill the
 * database finds is cut down to what the palette shows, its description
 * shortened to 100 characters.
 *
 * The database is the parameter `db`: given the trimmed query it answers
 * the matching skills in their order, or `None` when it throws.
 */
module SearchRoute {
  import opened Wrappers
  import opened Text

  datatype Author = Author(username: string)
  datatype QualityScoreRow = QualityScoreRow(grade: string)
  datatype Tag = Tag(name: string)
  datatype SkillTag = SkillTag(tag: Tag)

  /** The fields the lookup selects. */
  datatype SkillRow = SkillRow(
    id: string,
    name: string,
    description: string,
    icon: Option<string>,
    author: Author,
    qualityScore: Option<QualityScoreRow>,
    tags: seq<SkillTag>)

  datatype SearchItem = SearchItem(
    id: string,
    name: string,
    description: string,
    icon: Option<string>,
    author: string,
    grade: Option<string>,
    tags: seq<string>)

  datatype Response =
    | Ok(items: seq<SearchItem>, query: Option<string>)
    | InternalError  // 500 INTERNAL_ERROR

  /** `description.slice(0, 100) + (description.length > 100 ? '...' : '')` */
  function Truncate(description: string): (r: string)
    ensures |description| > 100 ==> r == description[..100] + "..."
    ensures |description| <= 100 ==> r == description
    ensures |r| <= 103
    ensures var n := if |description| < 100 then |description| else 100;
      n <= |r| && r[..n] == description[..n]
  {
    if |description| > 100 then description[..100] + "..." else description
  }

  /** `t.tag.name` for each tag, in order. */
  function TagNames(tags: seq<SkillTag>): (names: seq<string>)
    ensures |names| == |tags|
    ensures forall i :: 0 <= i < |tags| ==> names[i] == tags[i].tag.name
    decreases |tags|
  {
    if |tags| == 0 then [] else [tags[0].tag.name] + TagNames(tags[1..])
  }

  function ItemOf(row: SkillRow): SearchItem {
    SearchItem(
      row.id, row.name, Truncate(row.description), row.icon, row.author.username,
      if row.qualityScore.Some? then Some(row.qualityScore.value.grade) else None,
      TagNames(row.tags))
  }

  /** The skills in database order, each shown by its item. */
  function Items(rows: seq<SkillRow>): (items: seq<SearchItem>)
    ensures |items| == |rows|
    ensures forall i :: 0 <= i < |rows| ==> items[i] == ItemOf(rows[i])
    decreases |rows|
  {
    if |rows| == 0 then [] else [ItemOf(rows[0])] + Items(rows[1..])
  }

  /** An item keeps the skill's id, name and icon, names its author by username and lists its tag names. */
  lemma ItemFields(row: SkillRow)
    ensures ItemOf(row).id == row.id && ItemOf(row).name == row.name && ItemOf(row).icon == row.icon
    ensures ItemOf(row).author == row.author.username
    ensures ItemOf(row).grade.Some? <==> row.qualityScore.Some?
    ensures |ItemOf(row).tags| == |row.tags|
    ensures forall i :: 0 <= i < |row.tags| ==> ItemOf(row).tags[i] == row.tags[i].tag.name
    ensures |ItemOf(row).description| <= 103
  {
  }

  function SearchGet(q: Option<string>, db: string -> Option<seq<SkillRow>>): Response {
    if q.None? then Ok([], None)
    else
      var query := Trim(q.value);
      if |query| < 2 then Ok([], None)
      else
        match db(query)
        case None => InternalError
        case Some(rows) => Ok(Items(rows), Some(query))
  }

  /**
   * A missing query, or one under two characters once trimmed, answers an
   * empty list whatever the database holds, so no lookup is made.
   */
  lemma ShortQueryNoLookup(q: Option<string>, db1: string -> Option<seq<SkillRow>>, db2: string -> Option<seq<SkillRow>>)
    requires q.None? || |Trim(q.value)| < 2
    ensures SearchGet(q, db1) == Ok([], None) == SearchGet(q, db2)
  {
  }

  /** A longer query is looked up trimmed, and echoed trimmed with the items found. */
  lemma LongQueryLookup(q: string, db: string -> Option<seq<SkillRow>>)
    requires |Trim(q)| >= 2
    ensures db(Trim(q)).None? ==> SearchGet(Some(q), db) == InternalError
    ensures db(Trim(q)).Some? ==>
      SearchGet(Some(q), db) == Ok(Items(db(Trim(q)).value), Some(Trim(q)))
    ensures db(Trim(q)).Some? ==> |SearchGet(Some(q), db).items| == |db(Trim(q)).value|
  {
  }
}
