/** The title post-processing of `generate_title` (backend/app/services/llm_service.py).
    The model call is an oracle from the prompt to the reply's content (`None` for a null
    content) or a failure. */
module LlmService {
  import opened Wrappers
  import opened Strings
  import opened Models

  const DefaultTitleLength: nat := 50
  const EmptyReplyTitle := "Untitled"
  const FailedTitle := "Untitled Conversation"

  predicate IsQuote(c: char) {
    c == '"' || c == '\''
  }

  /** Index of the last occurrence of `c` in `s` (`s.rfind(c)`). */
  function LastIndexOf(s: string, c: char): (r: Option<nat>)
    ensures r.Some? ==> r.value < |s| && s[r.value] == c && forall j :: r.value < j < |s| ==> s[j] != c
    ensures r.None? ==> forall j :: 0 <= j < |s| ==> s[j] != c
  {
    if |s| == 0 then None
    else if s[|s| - 1] == c then Some(|s| - 1)
    else LastIndexOf(s[..|s| - 1], c)
  }

  /** `s.rsplit(c, 1)[0]`: everything before the last `c`, or all of `s` without one. */
  function BeforeLast(s: string, c: char): string {
    match LastIndexOf(s, c)
    case None => s
    case Some(i) => s[..i]
  }

  /** The reply turned into a title: `content or "Untitled"`, surrounding quotes stripped,
      and a title over `max` characters cut at its last space within the limit. */
  function PostProcessTitle(reply: Option<string>, max: nat): string {
    var raw := if reply.Some? && reply.value != "" then reply.value else EmptyReplyTitle;
    var title := Trim(raw, IsQuote);
    if |title| > max then BeforeLast(title[..max], ' ') else title
  }

  /** The unquoted reply text, before any truncation. */
  function UnquotedTitle(reply: Option<string>): string {
    Trim(if reply.Some? && reply.value != "" then reply.value else EmptyReplyTitle, IsQuote)
  }

  /** The title is always a prefix of the unquoted reply and never longer than `max`,
      unless the unquoted reply already fits, in which case it is returned whole. A long
      title is cut right before a space, or at `max` when its first `max` characters hold
      no space. */
  lemma PostProcessTitleSpec(reply: Option<string>, max: nat)
    ensures var t := UnquotedTitle(reply); var r := PostProcessTitle(reply, max);
            StartsWith(t, r)
            && (|t| <= max ==> r == t)
            && (|t| > max ==> |r| <= max)
            && (|t| > max && (forall j :: 0 <= j < max ==> t[j] != ' ') ==> r == t[..max])
            && (|t| > max && |r| < max ==> t[|r|] == ' ' && forall j :: |r| < j < max ==> t[j] != ' ')
  {
    var t := UnquotedTitle(reply);
    if |t| > max {
      var p := t[..max];
      var r := PostProcessTitle(reply, max);
      match LastIndexOf(p, ' ')
      case None =>
      case Some(i) =>
        assert r == p[..i];
        assert t[..i] == p[..i];
        assert t[i] == p[i];
        forall j | i < j < max
          ensures t[j] != ' '
        {
          assert t[j] == p[j];
        }
    }
  }

  /** Surrounding quotes of any mix and number are removed. */
  lemma QuotesStripped(reply: Option<string>)
    ensures var t := UnquotedTitle(reply); |t| > 0 ==> !IsQuote(t[0]) && !IsQuote(t[|t| - 1])
  {
    TrimSpec(if reply.Some? && reply.value != "" then reply.value else EmptyReplyTitle, IsQuote);
  }

  /** A null or empty reply becomes "Untitled" (when the limit allows that many characters). */
  lemma EmptyReplyIsUntitled(reply: Option<string>, max: nat)
    requires reply.None? || reply.value == ""
    requires max >= |EmptyReplyTitle|
    ensures PostProcessTitle(reply, max) == EmptyReplyTitle
  {
    TrimIdentity(EmptyReplyTitle, IsQuote);
  }

  /** The prompt sent to the title model; the conversation is cut to 1000 characters. */
  const TitleAsk := "Based on the following conversation, generate a concise, descriptive title (maximum "
  const TitleTheme := " characters). The title should capture the main theme or topic.\n\nConversation:\n"
  const TitleCue := "\n\nTitle ("
  const TitleRule := " characters max, no quotes):"

  function TitlePrompt(conversation: string, max: nat): string {
    TitleAsk + NatToString(max) + TitleTheme + Slice(conversation, 0, 1000) + TitleCue + NatToString(max) + TitleRule
  }

  /** `generate_title`: the model's reply post-processed, or "Untitled Conversation" when
      the call fails. */
  function GenerateTitle(conversation: string, max: nat, model: string -> Result<Option<string>, Error>): string {
    var prompt := TitlePrompt(conversation, max);
    match model(prompt)
    case Failure(_) => FailedTitle
    case Success(reply) => PostProcessTitle(reply, max)
  }

  /** Title generation never raises: a failed call gives the fallback title, a successful
      one a prefix of the unquoted reply. */
  lemma GenerateTitleFallback(conversation: string, max: nat, model: string -> Result<Option<string>, Error>)
    ensures var reply := model(TitlePrompt(conversation, max));
            var t := GenerateTitle(conversation, max, model);
            (reply.Failure? ==> t == FailedTitle)
            && (reply.Success? ==> StartsWith(UnquotedTitle(reply.value), t) && t == PostProcessTitle(reply.value, max))
  {
    var reply := model(TitlePrompt(conversation, max));
    if reply.Success? {
      PostProcessTitleSpec(reply.value, max);
    }
  }
}
