/**
 * The SKILL.md front matter as the quality scorer reads it, and the outcome
 * of handing a text to the YAML parser. YAML parsing itself is not modelled:
 * every operation that parses YAML takes the parser as a function parameter
 * returning a `YamlOutcome`.
 */
module Metadata {
  import opened Wrappers

  datatype Tools = Tools(required: Option<seq<string>>, optional: Option<seq<string>>)

  datatype Runtime = Runtime(
    claudeCode: Option<string>,
    minModel: Option<string>,
    tools: Option<Tools>)

  datatype Resources = Resources(baseTokens: Option<int>, contextHint: Option<string>)

  datatype Dependency = Dependency(id: Option<string>, version: Option<string>, optional: Option<bool>)

  datatype Location = Location(
    kind: Option<string>,
    owner: Option<string>,
    repo: Option<string>,
    path: Option<string>,
    ref: Option<string>)

  /** The `skillhub` block. */
  datatype SkillHub = SkillHub(
    location: Option<Location>,
    runtime: Option<Runtime>,
    resources: Option<Resources>,
    dependencies: Option<seq<Dependency>>)

  /** The `extended` block; `useCases` is the key `use-cases`, `targetRoles` is `target-roles`. */
  datatype Extended = Extended(
    useCases: Option<seq<string>>,
    targetRoles: Option<seq<string>>,
    icon: Option<string>,
    license: Option<string>,
    status: Option<string>)

  /** A SKILL.md front matter; every key is optional. */
  datatype Frontmatter = Frontmatter(
    name: Option<string>,
    description: Option<string>,
    version: Option<string>,
    tags: Option<seq<string>>,
    author: Option<string>,
    skillhub: Option<SkillHub>,
    extended: Option<Extended>)

  const EmptyFrontmatter := Frontmatter(None, None, None, None, None, None, None)

  /** JavaScript truthiness of an optional string (`undefined` and `""` are falsy). */
  predicate Present(s: Option<string>) {
    s.Some? && s.value != ""
  }

  /** `a || b` on optional strings. */
  function OrElse(a: Option<string>, b: Option<string>): (r: Option<string>)
    ensures Present(a) ==> r == a
    ensures !Present(a) ==> r == b
  {
    if Present(a) then a else b
  }

  /** What the YAML parser returns for a document: a value of one of these kinds. */
  datatype YamlDocument =
    | YamlNull
    | YamlScalar(text: string)
    | YamlSequence(length: nat)
    | YamlMapping(fields: Frontmatter)

  /** A parsed document, or the error the parser threw (its message and first reported line). */
  datatype YamlOutcome =
    | Parsed(document: YamlDocument)
    | Threw(message: string, line: Option<int>)

  /** `typeof v === 'object' && v !== null`: a mapping or a sequence. */
  predicate IsObject(d: YamlDocument) {
    d.YamlMapping? || d.YamlSequence?
  }

  /** The front matter an object document stands for; a sequence has none of the keys. */
  function FieldsOf(d: YamlDocument): (fm: Frontmatter)
    ensures d.YamlMapping? ==> fm == d.fields
    ensures !d.YamlMapping? ==> fm == EmptyFrontmatter
  {
    if d.YamlMapping? then d.fields else EmptyFrontmatter
  }
}
