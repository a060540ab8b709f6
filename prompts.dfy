/** The journaling system prompt and the rendering of retrieved context into it
    (backend/app/chains/prompts.py). */
module Prompts {
  import opened Wrappers
  import opened Strings
  import opened Models
  import opened TokenCounter

  // ---------------------------------------------------------------------------
  // The template and its substitution
  // ---------------------------------------------------------------------------

  /** A `str.format` template: literal text and named replacement fields. */
  datatype Piece = Text(text: string) | Field(name: string)

  /** Fills every field from `env`; `None` where `str.format` raises `KeyError`. */
  function Render(template: seq<Piece>, env: map<string, string>): (r: Option<string>)
    ensures r.Some? <==> forall i :: 0 <= i < |template| && template[i].Field? ==> template[i].name in env
  {
    if |template| == 0 then Some("")
    else
      var rest := Render(template[1..], env);
      match template[0]
      case Text(t) => if rest.Some? then Some(t + rest.value) else None
      case Field(n) => if n in env && rest.Some? then Some(env[n] + rest.value) else None
  }

  function FieldCount(template: seq<Piece>): nat {
    if |template| == 0 then 0 else (if template[0].Field? then 1 else 0) + FieldCount(template[1..])
  }

  const ContextField := "context_instruction"

  const PromptHead :=
    "You are a thoughtful journaling companion. You help users reflect on their thoughts and experiences through natural conversation.\n\n"
    + "Be empathetic, ask clarifying questions when appropriate, and help users explore their thoughts more deeply. Your goal is to facilitate meaningful self-reflection and personal growth.\n\n"

  const PromptTail :=
    "\n\nRespond naturally and conversationally. Keep your responses focused and not overly long unless the user asks for detailed exploration of a topic."

  /** `JOURNALING_SYSTEM_PROMPT`. */
  const SystemPromptTemplate: seq<Piece> := [Text(PromptHead), Field(ContextField), Text(PromptTail)]

  /** The system prompt for a context instruction: the template with its single field
      substituted, i.e. `ctx` placed between the fixed head and tail. */
  function SystemPrompt(ctx: string): string {
    PromptHead + ctx + PromptTail
  }

  /** The template holds exactly one replacement field, so the instruction is inserted once,
      and the prompt decomposes back into head, instruction and tail. */
  lemma TemplateSubstitutesOnce(ctx: string)
    ensures FieldCount(SystemPromptTemplate) == 1
    ensures Render(SystemPromptTemplate, map[ContextField := ctx]) == Some(SystemPrompt(ctx))
    ensures StartsWith(SystemPrompt(ctx), PromptHead) && EndsWith(SystemPrompt(ctx), PromptTail)
    ensures SystemPrompt(ctx)[|PromptHead|..|SystemPrompt(ctx)| - |PromptTail|] == ctx
  {
    var t := SystemPromptTemplate;
    var env := map[ContextField := ctx];
    assert t[1..][1..][1..] == [];
    assert FieldCount(t[1..][1..]) == 0;
    assert Render(t[1..][1..][1..], env) == Some("");
    assert PromptTail + "" == PromptTail;
    assert Render(t[1..][1..], env) == Some(PromptTail);
    assert Render(t[1..], env) == Some(ctx + PromptTail);
    assert PromptHead + (ctx + PromptTail) == PromptHead + ctx + PromptTail;
    var p := SystemPrompt(ctx);
    assert p[..|PromptHead|] == PromptHead;
    assert p[|PromptHead|..|p| - |PromptTail|] == ctx;
    assert p[|p| - |PromptTail|..] == PromptTail;
  }

  // ---------------------------------------------------------------------------
  // Retrieved context
  // ---------------------------------------------------------------------------

  const ContextIntro := "Here are some relevant excerpts from past conversations:\n\n"
  const ContextHeader := "\nCONTEXT FROM PAST CONVERSATIONS:\n"
  const ContextTrailer :=
    "\n\nUse this context to provide continuity and reference past discussions when relevant.\n"
    + "Don't force connections if they're not natural to the current conversation.\n"

  /** `ctx.metadata.get('date', 'Unknown date')`, as printed. */
  function DateText(md: Metadata): string {
    if "date" in md then ValueText(md["date"]) else "Unknown date"
  }

  /** The optional `" (Session: xxxxxxxx...)"` tag. A non-zero integer session id, which
      the backend never stores, makes `session_id[:8]` raise in the source; here it gives
      no tag. */
  function SessionTag(md: Metadata): (tag: string)
    ensures tag != "" <==> "session_id" in md && Truthy(md["session_id"]) && !md["session_id"].Int?
  {
    if "session_id" in md then
      match md["session_id"]
      case Str(s) => if s != "" then " (Session: " + Slice(s, 0, 8) + "...)" else ""
      case StrList(l) => if l != [] then " (Session: " + ValueText(StrList(Slice(l, 0, 8))) + "...)" else ""
      case Int(_) => ""
    else ""
  }

  /** Entry number `i` of the list. */
  function Entry(i: nat, c: RetrievedContext): string {
    NatToString(i) + ". From " + DateText(c.metadata) + SessionTag(c.metadata) + ":\n" + c.content + "\n\n"
  }

  /** The entries of `cs`, numbered from 1, built from the back so that the loop's
      accumulator is always the entries of a prefix. */
  function Entries(cs: seq<RetrievedContext>): string {
    if |cs| == 0 then "" else Entries(cs[..|cs| - 1]) + Entry(|cs|, cs[|cs| - 1])
  }

  /** `format_retrieved_context` as a value. */
  function FormattedContext(cs: seq<RetrievedContext>): string {
    if |cs| == 0 then "" else ContextHeader + ContextIntro + Entries(cs) + ContextTrailer
  }

  /** `format_retrieved_context`: the empty list renders as nothing; otherwise the entries
      are appended one by one behind the intro and wrapped in the header and trailer. */
  method FormatRetrievedContext(contexts: seq<RetrievedContext>) returns (s: string)
    ensures s == FormattedContext(contexts)
  {
    if |contexts| == 0 {
      return "";
    }
    var entries := "";
    var i := 0;
    while i < |contexts|
      invariant 0 <= i <= |contexts|
      invariant entries == Entries(contexts[..i])
    {
      assert contexts[..i + 1][..i] == contexts[..i];
      entries := entries + Entry(i + 1, contexts[i]);
      i := i + 1;
    }
    assert contexts[..i] == contexts;
    s := ContextHeader + ContextIntro + entries + ContextTrailer;
  }

  /** The entries of a prefix of the list are a prefix of the entries of the list. */
  lemma {:induction false} EntriesPrefix(cs: seq<RetrievedContext>, n: nat)
    requires n <= |cs|
    ensures StartsWith(Entries(cs), Entries(cs[..n]))
    decreases |cs|
  {
    if n == |cs| {
      assert cs[..n] == cs;
    } else {
      var init := cs[..|cs| - 1];
      assert init[..n] == cs[..n];
      EntriesPrefix(init, n);
      var a := Entries(init);
      var p := Entries(cs[..n]);
      var e := Entry(|cs|, cs[|cs| - 1]);
      assert Entries(cs) == a + e;
      assert (a + e)[..|p|] == a[..|p|];
    }
  }

  /** The entry of the `k`-th context (numbered `k + 1`) sits in the list right after the
      entries of the contexts before it: entries are numbered in input order. */
  lemma EntryInPlace(cs: seq<RetrievedContext>, k: nat)
    requires k < |cs|
    ensures OccursAt(Entries(cs), Entry(k + 1, cs[k]), |Entries(cs[..k])|)
  {
    EntriesPrefix(cs, k + 1);
    var before := Entries(cs[..k]);
    var e := Entry(k + 1, cs[k]);
    assert cs[..k + 1][..k] == cs[..k];
    var p := Entries(cs[..k + 1]);
    assert p == before + e;
    var all := Entries(cs);
    assert all[..|p|] == p;
    assert all[|before|..|before| + |e|] == p[|before|..] == e;
  }

  /** Every entry ends with its context's content. */
  lemma EntryHoldsContent(i: nat, c: RetrievedContext)
    ensures EndsWith(Entry(i, c), c.content + "\n\n")
  {
    var e := Entry(i, c);
    assert e[|e| - |c.content + "\n\n"|..] == c.content + "\n\n";
  }

  /** A context without a date is attributed to "Unknown date"; the session tag is present
      exactly for a non-empty session id and shows at most its first 8 characters. */
  lemma EntryDateAndSession(c: RetrievedContext, s: string)
    ensures "date" !in c.metadata ==> DateText(c.metadata) == "Unknown date"
    ensures "session_id" !in c.metadata ==> SessionTag(c.metadata) == ""
    ensures "session_id" in c.metadata && c.metadata["session_id"] == Str(s) ==>
              (SessionTag(c.metadata) == (if s == "" then "" else " (Session: " + Slice(s, 0, 8) + "...)"))
  {
  }

  /** The empty list renders as nothing; any other list is wrapped in the header, intro
      and continuity instructions. */
  lemma FormattedContextShape(cs: seq<RetrievedContext>)
    ensures cs == [] <==> FormattedContext(cs) == ""
    ensures cs != [] ==> StartsWith(FormattedContext(cs), ContextHeader + ContextIntro)
    ensures cs != [] ==> EndsWith(FormattedContext(cs), ContextTrailer)
  {
    if cs != [] {
      var f := FormattedContext(cs);
      assert f[..|ContextHeader + ContextIntro|] == ContextHeader + ContextIntro;
      assert f[|f| - |ContextTrailer|..] == ContextTrailer;
    }
  }

  // ---------------------------------------------------------------------------
  // The chat prompt
  // ---------------------------------------------------------------------------

  /** `create_chat_prompt`: a `None` or empty context list gives the empty instruction. */
  function CreateChatPrompt(userMessage: string, contexts: Option<seq<RetrievedContext>>): (r: seq<DictMessage>)
    ensures |r| == 2
    ensures Get(r[0], "role") == "system" && Get(r[1], "role") == "user" && Get(r[1], "content") == userMessage
    ensures Get(r[0], "content") == SystemPrompt(if contexts.Some? then FormattedContext(contexts.value) else "")
  {
    var instruction := if contexts.Some? && contexts.value != [] then FormattedContext(contexts.value) else "";
    [MakeDict("system", SystemPrompt(instruction)), MakeDict("user", userMessage)]
  }
}
