/**
 * The request schemas of `src/lib/schemas.ts`: search parameters of the
 * skill index API, chat requests, and the front matter of an agent file.
 * Each schema is a function from the typed input to the parsed value, or
 * `None` where the schema rejects the input.
 */
module Schemas {
  import opened Wrappers
  import opened Text
  import opened Rules

  // ---------------------------------------------------------------------
  // skillSearchParamsSchema

  datatype SearchParamsInput = SearchParamsInput(q: Option<string>, page: Option<real>, limit: Option<real>)

  datatype SkillSearchParams = SkillSearchParams(q: string, page: int, limit: int)

  /**
   * A non-empty `q`; `page` a positive integer, 1 when absent; `limit` an
   * integer in 1..100, 20 when absent.
   */
  function ParseSkillSearchParams(input: SearchParamsInput): (r: Option<SkillSearchParams>)
    ensures r.Some? <==>
      input.q.Some? && |input.q.value| >= 1
      && (input.page.None? || PositiveInt(input.page.value))
      && (input.limit.None? || IntBetween(input.limit.value, 1, 100))
    ensures r.Some? ==> r.value.q == input.q.value && r.value.page >= 1 && 1 <= r.value.limit <= 100
    ensures r.Some? ==> r.value.page == (if input.page.None? then 1 else input.page.value.Floor)
    ensures r.Some? ==> r.value.limit == (if input.limit.None? then 20 else input.limit.value.Floor)
  {
    var page := IntField(input.page, 1, None, 1);
    var limit := IntField(input.limit, 1, Some(100), 20);
    if input.q.Some? && |input.q.value| >= 1 && page.Some? && limit.Some? then
      Some(SkillSearchParams(input.q.value, page.value, limit.value))
    else None
  }

  /** The cases the schema's own suite checks: defaults, a missing query, a limit of 101, a page of 0. */
  lemma SearchParamsExamples()
    ensures ParseSkillSearchParams(SearchParamsInput(Some("react"), Some(2.0), Some(10.0))) == Some(SkillSearchParams("react", 2, 10))
    ensures ParseSkillSearchParams(SearchParamsInput(Some("test"), None, None)) == Some(SkillSearchParams("test", 1, 20))
    ensures ParseSkillSearchParams(SearchParamsInput(None, None, None)) == None
    ensures ParseSkillSearchParams(SearchParamsInput(Some("test"), None, Some(101.0))) == None
    ensures ParseSkillSearchParams(SearchParamsInput(Some("test"), Some(0.0), None)) == None
  {
  }

  // ---------------------------------------------------------------------
  // chatRequestSchema

  datatype Role = User | Assistant

  function RoleName(role: Role): string {
    match role
    case User => "user"
    case Assistant => "assistant"
  }

  /** `z.enum(['user', 'assistant'])` */
  function ParseRole(s: string): (r: Option<Role>)
    ensures r.Some? <==> OneOf(s, ["user", "assistant"])
    ensures r.Some? ==> RoleName(r.value) == s
  {
    if s == "user" then Some(User) else if s == "assistant" then Some(Assistant) else None
  }

  lemma RoleRoundTrip(role: Role)
    ensures ParseRole(RoleName(role)) == Some(role)
  {
  }

  datatype MessageInput = MessageInput(role: string, content: string)

  datatype Message = Message(role: Role, content: string)

  datatype ChatContext = ChatContext(
    agentName: Option<string>,
    agentDescription: Option<string>,
    selectedSkills: Option<seq<string>>)

  datatype ChatRequestInput = ChatRequestInput(messages: seq<MessageInput>, context: Option<ChatContext>)

  datatype ChatRequest = ChatRequest(messages: seq<Message>, context: Option<ChatContext>)

  /** A message with a known role and non-empty content. */
  predicate ValidMessage(m: MessageInput) {
    ParseRole(m.role).Some? && |m.content| >= 1
  }

  /** Every message needs a known role and non-empty content; any bad one rejects the array. */
  function ParseMessages(ms: seq<MessageInput>): (r: Option<seq<Message>>)
    ensures r.Some? <==> forall k :: 0 <= k < |ms| ==> ParseRole(ms[k].role).Some? && |ms[k].content| >= 1
    ensures r.Some? ==> |r.value| == |ms|
    ensures r.Some? ==> forall k :: 0 <= k < |ms| ==>
      RoleName(r.value[k].role) == ms[k].role && r.value[k].content == ms[k].content
  {
    if forall k :: 0 <= k < |ms| ==> ValidMessage(ms[k]) then
      Some(seq(|ms|, k requires 0 <= k < |ms| && ValidMessage(ms[k]) => Message(ParseRole(ms[k].role).value, ms[k].content)))
    else None
  }

  /** The messages as above; the context is optional and its fields are free. */
  function ParseChatRequest(input: ChatRequestInput): (r: Option<ChatRequest>)
    ensures r.Some? <==> ParseMessages(input.messages).Some?
    ensures r.Some? ==> r.value.context == input.context && |r.value.messages| == |input.messages|
  {
    match ParseMessages(input.messages)
    case None => None
    case Some(ms) => Some(ChatRequest(ms, input.context))
  }

  /** One user message is accepted, with or without a context; empty content or the role "system" is rejected. */
  lemma ChatRequestExamples(context: Option<ChatContext>)
    ensures ParseChatRequest(ChatRequestInput([MessageInput("user", "hello")], context)).Some?
    ensures ParseChatRequest(ChatRequestInput([MessageInput("user", "")], context)).None?
    ensures ParseChatRequest(ChatRequestInput([MessageInput("system", "hello")], context)).None?
  {
    var empty, system := [MessageInput("user", "")], [MessageInput("system", "hello")];
    assert !ValidMessage(empty[0]);
    assert ParseRole("system").None? && !ValidMessage(system[0]);
  }

  // ---------------------------------------------------------------------
  // agentFrontmatterSchema

  /** `[a-z0-9-]` */
  predicate IsAgentNameChar(c: char) {
    ('a' <= c <= 'z') || IsDigit(c) || c == '-'
  }

  /** `.min(1).regex(/^[a-z0-9-]+$/)` */
  predicate IsAgentName(s: string) {
    |s| >= 1 && AllChars(s, IsAgentNameChar)
  }

  const AgentModels: seq<string> := ["sonnet", "opus", "haiku", "inherit"]

  datatype McpServer = McpServer(command: string, args: Option<seq<string>>, env: Option<map<string, string>>)

  datatype AgentFrontmatter = AgentFrontmatter(
    name: string,
    description: string,
    model: Option<string>,
    tools: Option<seq<string>>,
    disallowedTools: Option<seq<string>>,
    skills: Option<seq<string>>,
    maxTurns: Option<real>,
    permissionMode: Option<string>,
    mcpServers: Option<map<string, McpServer>>)

  /** The rules of the schema; an accepted value is returned unchanged. */
  predicate ValidAgentFrontmatter(fm: AgentFrontmatter) {
    IsAgentName(fm.name)
    && |fm.description| >= 1
    && OptionalOneOf(fm.model, AgentModels)
    && (fm.maxTurns.None? || PositiveInt(fm.maxTurns.value))
  }

  /** A name holding an upper-case letter or a space is rejected, whatever else the value holds. */
  lemma AgentNameRejects(fm: AgentFrontmatter, k: nat)
    requires k < |fm.name| && (('A' <= fm.name[k] <= 'Z') || fm.name[k] == ' ')
    ensures !ValidAgentFrontmatter(fm)
  {
    assert !IsAgentNameChar(fm.name[k]);
  }

  /** The optional fields never stand in the way: a good name and description with no options is accepted. */
  lemma AgentFrontmatterMinimal(name: string, description: string)
    requires IsAgentName(name) && |description| >= 1
    ensures ValidAgentFrontmatter(AgentFrontmatter(name, description, None, None, None, None, None, None, None))
  {
  }

  /** "my-agent" with model "opus", two tools and 10 turns is accepted; a model outside the four or 0 turns is not. */
  lemma AgentFrontmatterExamples(fm: AgentFrontmatter)
    requires fm.name == "my-agent" && fm.description == "test"
    ensures fm.model == Some("opus") && fm.maxTurns == Some(10.0) ==> ValidAgentFrontmatter(fm)
    ensures fm.model == Some("gpt") ==> !ValidAgentFrontmatter(fm)
    ensures fm.maxTurns == Some(0.0) ==> !ValidAgentFrontmatter(fm)
  {
    assert AllChars("my-agent", IsAgentNameChar);
  }
}
