/** The chat orchestration of backend/app/services/chat_service.py: retrieval, the
    token-budgeted prompt with optional summarisation of older turns, the completion and
    the auto-save. Collaborators are oracles gathered in `Services`. */
module ChatService {
  import opened Wrappers
  import opened Strings
  import opened Models
  import opened TokenCounter
  import opened Prompts

  const MaxContextTokens: int := 8000
  const RecentToKeep: nat := 10
  /** How many messages survive when even the recent ones exceed the budget. */
  const LastResort: nat := 5
  const BudgetBuffer: int := 100

  // ---------------------------------------------------------------------------
  // Summarising older messages
  // ---------------------------------------------------------------------------

  function TranscriptLine(m: Message): string {
    SpeakerLabel(m.role) + ": " + m.content + "\n\n"
  }

  /** The transcript of `ms`, built from the back like the loop's accumulator. */
  function Transcript(ms: seq<Message>): string {
    if |ms| == 0 then "" else Transcript(ms[..|ms| - 1]) + TranscriptLine(ms[|ms| - 1])
  }

  /** The transcript loop of `_summarize_messages`. */
  method BuildTranscript(messages: seq<Message>) returns (text: string)
    ensures text == Transcript(messages)
  {
    text := "";
    var i := 0;
    while i < |messages|
      invariant 0 <= i <= |messages|
      invariant text == Transcript(messages[..i])
    {
      assert messages[..i + 1][..i] == messages[..i];
      text := text + TranscriptLine(messages[i]);
      i := i + 1;
    }
    assert messages[..i] == messages;
  }

  /** The transcript of two runs of messages is the two transcripts one after the other. */
  lemma {:induction false} TranscriptAppend(a: seq<Message>, b: seq<Message>)
    ensures Transcript(a + b) == Transcript(a) + Transcript(b)
    decreases |b|
  {
    if |b| == 0 {
      assert a + b == a;
    } else {
      var init, m := b[..|b| - 1], b[|b| - 1];
      assert b == init + [m];
      SeqAssoc(a, init, [m]);
      TranscriptSnoc(a + init, m);
      TranscriptSnoc(init, m);
      TranscriptAppend(a, init);
      SeqAssoc(Transcript(a), Transcript(init), TranscriptLine(m));
    }
  }

  lemma TranscriptSnoc(s: seq<Message>, m: Message)
    ensures Transcript(s + [m]) == Transcript(s) + TranscriptLine(m)
  {
    assert (s + [m])[..|s|] == s;
  }

  /** A user turn is labelled "User" and any other turn "Assistant". */
  lemma TranscriptOfOne(m: Message)
    ensures m.role == User ==> Transcript([m]) == "User: " + m.content + "\n\n"
    ensures m.role != User ==> Transcript([m]) == "Assistant: " + m.content + "\n\n"
  {
    assert [m][..0] == [];
  }

  const SummaryInstruction :=
    "Summarize the following conversation concisely, preserving key topics, decisions, and important context. Keep it under 200 words."

  const SummaryLead := "Summarize this conversation:\n\n"
  const SummaryHeading := "Summary of earlier conversation:\n"

  /** The two-message summarisation prompt. */
  function SummaryPrompt(older: seq<Message>): (p: seq<DictMessage>)
    ensures |p| == 2 && Get(p[0], "role") == "system" && Get(p[1], "role") == "user"
    ensures Get(p[1], "content") == SummaryLead + Transcript(older)
  {
    [MakeDict("system", SummaryInstruction), MakeDict("user", SummaryLead + Transcript(older))]
  }

  /** `_summarize_messages`: the transcript sent to the model; a failing call raises. */
  method SummarizeMessages(llm: seq<DictMessage> -> Result<string, Error>, messages: seq<Message>)
    returns (summary: Result<string, Error>)
    ensures summary == llm(SummaryPrompt(messages))
  {
    var text := BuildTranscript(messages);
    var prompt := [MakeDict("system", SummaryInstruction), MakeDict("user", SummaryLead + text)];
    summary := llm(prompt);
  }

  // ---------------------------------------------------------------------------
  // The history budget
  // ---------------------------------------------------------------------------

  function SummaryMessage(summary: string): (d: DictMessage)
    ensures Get(d, "role") == "system" && Get(d, "content") == SummaryHeading + summary
  {
    MakeDict("system", SummaryHeading + summary)
  }

  /** `_manage_conversation_history`: the whole history when it fits the budget; otherwise
      the last ten messages behind a summary of the rest, or only the last ten when the
      summary fails, or only the last five when the last ten alone exceed the budget. */
  function ManageHistory(ct: string -> nat, llm: seq<DictMessage> -> Result<string, Error>,
                         history: seq<Message>, available: int): seq<DictMessage>
  {
    if |history| == 0 then []
    else
      var all := ToDicts(history);
      if DictMessagesTokens(ct, all) <= available then all
      else
        var recent := ToDicts(LastN(history, RecentToKeep));
        if DictMessagesTokens(ct, recent) >= available then LastN(recent, LastResort)
        else
          var older := DropLastN(history, RecentToKeep);
          if |older| > 0 then
            match llm(SummaryPrompt(older))
            case Success(s) => [SummaryMessage(s)] + recent
            case Failure(_) => recent
          else recent
  }

  /** Cost of the history in message-dict form. */
  function HistoryTokens(ct: string -> nat, history: seq<Message>): int {
    DictMessagesTokens(ct, ToDicts(history))
  }

  lemma LastNOfLastN<T>(s: seq<T>, m: nat, n: nat)
    requires n <= m
    ensures LastN(LastN(s, m), n) == LastN(s, n)
  {
  }

  /** The four outcomes of the budget, case by case. */
  lemma ManageHistoryCases(ct: string -> nat, llm: seq<DictMessage> -> Result<string, Error>,
                           history: seq<Message>, available: int)
    ensures var r := ManageHistory(ct, llm, history, available);
            var recent := LastN(history, RecentToKeep);
            var older := DropLastN(history, RecentToKeep);
            && (history == [] ==> r == [])
            && (history != [] && HistoryTokens(ct, history) <= available ==> r == ToDicts(history))
            && (history != [] && HistoryTokens(ct, history) > available && HistoryTokens(ct, recent) >= available ==>
                  r == ToDicts(LastN(history, LastResort)))
            && (history != [] && HistoryTokens(ct, history) > available && HistoryTokens(ct, recent) < available ==>
                  older != [] &&
                  r == (match llm(SummaryPrompt(older))
                        case Success(s) => [SummaryMessage(s)] + ToDicts(recent)
                        case Failure(_) => ToDicts(recent)))
  {
    if history != [] && HistoryTokens(ct, history) > available {
      if HistoryTokens(ct, LastN(history, RecentToKeep)) >= available {
        LastResortCase(ct, llm, history, available);
      } else {
        SummaryCase(ct, llm, history, available);
      }
    }
  }

  /** When even the last ten messages overflow, the last five are kept. */
  lemma LastResortCase(ct: string -> nat, llm: seq<DictMessage> -> Result<string, Error>,
                       history: seq<Message>, available: int)
    requires history != [] && HistoryTokens(ct, history) > available
    requires HistoryTokens(ct, LastN(history, RecentToKeep)) >= available
    ensures ManageHistory(ct, llm, history, available) == ToDicts(LastN(history, LastResort))
  {
    var ad := ToDicts(history);
    ToDictsLastN(history, RecentToKeep);
    ToDictsLastN(history, LastResort);
    LastNOfLastN(ad, RecentToKeep, LastResort);
  }

  /** Converting the last `k` messages is taking the last `k` converted ones. */
  lemma ToDictsLastN(ms: seq<Message>, k: nat)
    ensures ToDicts(LastN(ms, k)) == LastN(ToDicts(ms), k)
  {
    ToDictsSuffix(ms, |ms| - |LastN(ms, k)|);
  }

  /** When the last ten messages fit but the whole history does not, the older ones are
      summarised in front of them, or dropped when the summary fails. */
  lemma SummaryCase(ct: string -> nat, llm: seq<DictMessage> -> Result<string, Error>,
                    history: seq<Message>, available: int)
    requires history != [] && HistoryTokens(ct, history) > available
    requires HistoryTokens(ct, LastN(history, RecentToKeep)) < available
    ensures var recent := LastN(history, RecentToKeep);
            var older := DropLastN(history, RecentToKeep);
            && older != []
            && ManageHistory(ct, llm, history, available) ==
                 (match llm(SummaryPrompt(older))
                  case Success(s) => [SummaryMessage(s)] + ToDicts(recent)
                  case Failure(_) => ToDicts(recent))
  {
    SummarisingNeedsOlderMessages(ct, history, available);
  }

  /** When the last ten messages fit but the whole history does not, there are older
      messages to summarise: the fallback after the summary branch is never taken. */
  lemma SummarisingNeedsOlderMessages(ct: string -> nat, history: seq<Message>, available: int)
    requires HistoryTokens(ct, history) > available
    requires HistoryTokens(ct, LastN(history, RecentToKeep)) < available
    ensures |DropLastN(history, RecentToKeep)| > 0
  {
  }

  /** `r` is a suffix of `ad` starting at `k`, either alone or behind one summary message. */
  ghost predicate SuffixBehindSummary(r: seq<DictMessage>, ad: seq<DictMessage>, k: nat) {
    k < |ad| && (r == ad[k..] || exists s :: r == [SummaryMessage(s)] + ad[k..])
  }

  /** Whatever the budget, the result is a suffix of the history (in dict form), possibly
      behind one summary message. */
  lemma ManagedHistoryIsSuffix(ct: string -> nat, llm: seq<DictMessage> -> Result<string, Error>,
                               history: seq<Message>, available: int)
    requires history != []
    ensures exists k :: SuffixBehindSummary(ManageHistory(ct, llm, history, available), ToDicts(history), k)
  {
    if HistoryTokens(ct, history) <= available {
      assert ToDicts(history)[0..] == ToDicts(history);
      assert SuffixBehindSummary(ManageHistory(ct, llm, history, available), ToDicts(history), 0);
    } else if HistoryTokens(ct, LastN(history, RecentToKeep)) >= available {
      LastResortSuffix(ct, llm, history, available);
    } else {
      SummarySuffix(ct, llm, history, available);
    }
  }

  lemma LastResortSuffix(ct: string -> nat, llm: seq<DictMessage> -> Result<string, Error>,
                         history: seq<Message>, available: int)
    requires history != [] && HistoryTokens(ct, history) > available
    requires HistoryTokens(ct, LastN(history, RecentToKeep)) >= available
    ensures SuffixBehindSummary(ManageHistory(ct, llm, history, available), ToDicts(history),
                                |history| - |LastN(history, LastResort)|)
  {
    var r := ManageHistory(ct, llm, history, available);
    var tail := LastN(history, LastResort);
    var k := |history| - |tail|;
    LastResortCase(ct, llm, history, available);
    assert tail == history[k..];
    ToDictsSuffix(history, k);
    assert r == ToDicts(history)[k..];
  }

  lemma SummarySuffix(ct: string -> nat, llm: seq<DictMessage> -> Result<string, Error>,
                      history: seq<Message>, available: int)
    requires history != [] && HistoryTokens(ct, history) > available
    requires HistoryTokens(ct, LastN(history, RecentToKeep)) < available
    ensures SuffixBehindSummary(ManageHistory(ct, llm, history, available), ToDicts(history),
                                |history| - |LastN(history, RecentToKeep)|)
  {
    var r := ManageHistory(ct, llm, history, available);
    var ad := ToDicts(history);
    var k := |history| - |LastN(history, RecentToKeep)|;
    SummaryCase(ct, llm, history, available);
    ToDictsSuffix(history, k);
    match llm(SummaryPrompt(DropLastN(history, RecentToKeep)))
    case Success(s) =>
      assert r == [SummaryMessage(s)] + ad[k..];
    case Failure(_) =>
      assert r == ad[k..];
  }

  /** The most recent message is always kept, whatever the budget. */
  lemma LatestMessageKept(ct: string -> nat, llm: seq<DictMessage> -> Result<string, Error>,
                          history: seq<Message>, available: int)
    requires history != []
    ensures var r := ManageHistory(ct, llm, history, available);
            |r| > 0 && r[|r| - 1] == ToDict(history[|history| - 1])
  {
    var r := ManageHistory(ct, llm, history, available);
    var n := |history|;
    if HistoryTokens(ct, history) > available {
      var k := if HistoryTokens(ct, LastN(history, RecentToKeep)) >= available then LastResort else RecentToKeep;
      if k == LastResort {
        LastResortCase(ct, llm, history, available);
      } else {
        SummaryCase(ct, llm, history, available);
      }
      var kept := LastN(history, k);
      assert kept[|kept| - 1] == history[n - 1];
    }
  }

  /** Unless even the last ten messages exceed the budget, the messages kept in full fit
      within it: the result fits as a whole, or it is a summary followed by messages that
      fit. */
  lemma KeptHistoryFitsBudget(ct: string -> nat, llm: seq<DictMessage> -> Result<string, Error>,
                              history: seq<Message>, available: int)
    requires HistoryTokens(ct, LastN(history, RecentToKeep)) < available
    ensures var r := ManageHistory(ct, llm, history, available);
            DictMessagesTokens(ct, r) <= available
            || (|r| > 0 && (exists s :: r[0] == SummaryMessage(s)) && DictMessagesTokens(ct, r[1..]) < available)
  {
    ManageHistoryCases(ct, llm, history, available);
    if history != [] && HistoryTokens(ct, history) > available {
      var r := ManageHistory(ct, llm, history, available);
      var recent := LastN(history, RecentToKeep);
      match llm(SummaryPrompt(DropLastN(history, RecentToKeep)))
      case Success(s) =>
        assert r[0] == SummaryMessage(s);
        assert r[1..] == ToDicts(recent);
      case Failure(_) =>
    }
  }

  // ---------------------------------------------------------------------------
  // The prompt
  // ---------------------------------------------------------------------------

  /** The system message carrying the formatted retrieved context. */
  function SystemMessage(contexts: seq<RetrievedContext>): (d: DictMessage)
    ensures Get(d, "role") == "system" && Get(d, "content") == SystemPrompt(FormattedContext(contexts))
  {
    MakeDict("system", SystemPrompt(FormattedContext(contexts)))
  }

  /** Tokens left for the history: 8000 less the system message, the current message and
      a buffer of 100. May be negative. */
  function HistoryBudget(ct: string -> nat, current: string, contexts: seq<RetrievedContext>): (b: int)
    ensures b == MaxContextTokens - (ct("system") + ct(SystemPrompt(FormattedContext(contexts))) + MessageOverhead)
                 - ct(current) - BudgetBuffer
    ensures b <= MaxContextTokens - MessageOverhead - BudgetBuffer - ct(current)
  {
    MaxContextTokens - DictMessageTokens(ct, SystemMessage(contexts)) - ct(current) - BudgetBuffer
  }

  /** `_build_llm_messages`: system prompt, managed history (only for a non-empty history),
      then the current message. */
  function LlmMessages(ct: string -> nat, llm: seq<DictMessage> -> Result<string, Error>, current: string,
                       history: seq<Message>, contexts: seq<RetrievedContext>): seq<DictMessage>
  {
    var system := SystemMessage(contexts);
    var budget := MaxContextTokens - DictMessageTokens(ct, system) - ct(current) - BudgetBuffer;
    [system] + (if |history| > 0 then ManageHistory(ct, llm, history, budget) else []) + [MakeDict("user", current)]
  }

  /** `_build_llm_messages`, appending to the message list step by step. */
  method BuildLlmMessages(ct: string -> nat, llm: seq<DictMessage> -> Result<string, Error>, current: string,
                          history: seq<Message>, contexts: seq<RetrievedContext>) returns (messages: seq<DictMessage>)
    ensures messages == LlmMessages(ct, llm, current, history, contexts)
  {
    var instruction := FormatRetrievedContext(contexts);
    var system := MakeDict("system", SystemPrompt(instruction));
    assert system == SystemMessage(contexts);
    messages := [system];
    var available := MaxContextTokens - DictMessageTokens(ct, system) - ct(current) - BudgetBuffer;
    var managed: seq<DictMessage> := [];
    if |history| > 0 {
      managed := ManageHistory(ct, llm, history, available);
    }
    messages := messages + managed;
    messages := messages + [MakeDict("user", current)];
  }

  /** The prompt opens with the system message, closes with the user's message and holds
      the managed history in between; the guard on an empty history changes nothing. */
  lemma LlmMessagesShape(ct: string -> nat, llm: seq<DictMessage> -> Result<string, Error>, current: string,
                         history: seq<Message>, contexts: seq<RetrievedContext>)
    ensures var p := LlmMessages(ct, llm, current, history, contexts);
            var h := ManageHistory(ct, llm, history, HistoryBudget(ct, current, contexts));
            && p == [SystemMessage(contexts)] + h + [MakeDict("user", current)]
            && |p| >= 2
            && Get(p[0], "role") == "system" && Get(p[0], "content") == SystemPrompt(FormattedContext(contexts))
            && Get(p[|p| - 1], "role") == "user" && Get(p[|p| - 1], "content") == current
  {
  }

  /** A history within the budget reaches the model whole, in order, between the system
      message and the current message. */
  lemma FittingHistorySentWhole(ct: string -> nat, llm: seq<DictMessage> -> Result<string, Error>, current: string,
                                history: seq<Message>, contexts: seq<RetrievedContext>)
    requires HistoryTokens(ct, history) <= HistoryBudget(ct, current, contexts)
    ensures LlmMessages(ct, llm, current, history, contexts)
            == [SystemMessage(contexts)] + ToDicts(history) + [MakeDict("user", current)]
  {
    LlmMessagesShape(ct, llm, current, history, contexts);
    ManageHistoryCases(ct, llm, history, HistoryBudget(ct, current, contexts));
  }

  // ---------------------------------------------------------------------------
  // Sending and streaming
  // ---------------------------------------------------------------------------

  /** What the token stream delivered: the tokens yielded, then whether it ended by
      raising, with the exception's text. */
  datatype StreamOutcome = StreamOutcome(tokens: seq<string>, failure: Option<string>)

  /** The collaborators: token counting, `retrieve_context` (top 5, threshold 0.7),
      `complete`, `stream_complete` and `save_journal` for a session. */
  datatype Services = Services(
    ct: string -> nat,
    retrieve: string -> Result<seq<RetrievedContext>, Error>,
    llm: seq<DictMessage> -> Result<string, Error>,
    stream: seq<DictMessage> -> StreamOutcome,
    save: (string, seq<Message>) -> Outcome<Error>)

  /** The context a turn works with: empty without RAG or when retrieval raises. */
  function TurnContext(svc: Services, message: string, useRag: bool): seq<RetrievedContext> {
    if useRag && svc.retrieve(message).Success? then svc.retrieve(message).value else []
  }

  /** The prompt a turn sends. */
  function TurnPrompt(svc: Services, message: string, history: seq<Message>, useRag: bool): seq<DictMessage> {
    LlmMessages(svc.ct, svc.llm, message, history, TurnContext(svc, message, useRag))
  }

  /** Ids and timestamps the two new `Message` objects receive from their defaults. */
  datatype Stamps = Stamps(aiId: string, aiTime: int, userId: string, userTime: int)

  /** The conversation saved after a turn. */
  function SavedConversation(history: seq<Message>, message: string, reply: string, st: Stamps): seq<Message> {
    history + [Message(st.userId, User, message, st.userTime, None), Message(st.aiId, Assistant, reply, st.aiTime, None)]
  }

  /** `send_message`. Retrieval failing degrades to no context; a failing completion
      fails the turn and nothing is saved; otherwise the conversation with the two new
      messages is saved (`saved` is what was handed to `save_journal`) and a failing save
      only clears `autoSaved`. */
  method SendMessage(svc: Services, message: string, sessionId: string, history: seq<Message>, useRag: bool, st: Stamps)
    returns (r: Result<ChatResponse, Error>, askedRetrieval: bool, saved: Option<seq<Message>>)
    ensures askedRetrieval == useRag
    ensures var reply := svc.llm(TurnPrompt(svc, message, history, useRag));
            && (reply.Failure? ==> r == Failure(reply.error) && saved.None?)
            && (reply.Success? ==> saved == Some(SavedConversation(history, message, reply.value, st)) && r.Success?)
    ensures r.Success? ==>
              var resp := r.value;
              && resp.message == Message(st.aiId, Assistant, svc.llm(TurnPrompt(svc, message, history, useRag)).value, st.aiTime, None)
              && resp.retrievedContext == TurnContext(svc, message, useRag)
              && resp.autoSaved == svc.save(sessionId, saved.value).Pass?
              && resp.metadata == map["tokens_used" := Int(0),
                                      "context_chunks_retrieved" := Int(|resp.retrievedContext|),
                                      "conversation_length" := Int(|history| + 2)]
  {
    var contexts: seq<RetrievedContext> := [];
    askedRetrieval := useRag;
    if useRag {
      var found := svc.retrieve(message);
      if found.Success? {
        contexts := found.value;
      }
    }
    var prompt := BuildLlmMessages(svc.ct, svc.llm, message, history, contexts);
    var reply := svc.llm(prompt);
    if reply.Failure? {
      return Failure(reply.error), askedRetrieval, None;
    }
    var aiMessage := Message(st.aiId, Assistant, reply.value, st.aiTime, None);
    var userMessage := Message(st.userId, User, message, st.userTime, None);
    var conversation := history + [userMessage, aiMessage];
    saved := Some(conversation);
    var outcome := svc.save(sessionId, conversation);
    var metadata := map["tokens_used" := Int(0), "context_chunks_retrieved" := Int(|contexts|),
                        "conversation_length" := Int(|history| + 2)];
    r := Success(ChatResponse(aiMessage, contexts, metadata, outcome.Pass?));
  }

  /** The token events for a run of tokens. */
  function TokenEvents(tokens: seq<string>): (es: seq<StreamEvent>)
    ensures |es| == |tokens| && forall i :: 0 <= i < |tokens| ==> es[i] == TokenEvent(tokens[i])
  {
    seq(|tokens|, i requires 0 <= i < |tokens| => TokenEvent(tokens[i]))
  }

  /** The content a single event contributes: its text for a token, nothing otherwise. */
  function TokenOf(e: StreamEvent): seq<string> {
    if e.TokenEvent? then [e.content] else []
  }

  function TokenContents(events: seq<StreamEvent>): seq<string> {
    if |events| == 0 then [] else TokenOf(events[0]) + TokenContents(events[1..])
  }

  lemma {:induction false} TokenContentsAppend(a: seq<StreamEvent>, b: seq<StreamEvent>)
    ensures TokenContents(a + b) == TokenContents(a) + TokenContents(b)
    decreases |a|
  {
    if |a| == 0 {
      assert a + b == b;
    } else {
      var ab := a + b;
      assert ab[0] == a[0];
      assert ab[1..] == a[1..] + b;
      TokenContentsAppend(a[1..], b);
      SeqAssoc(TokenOf(a[0]), TokenContents(a[1..]), TokenContents(b));
    }
  }

  lemma {:induction false} TokenContentsOfTokens(tokens: seq<string>)
    ensures TokenContents(TokenEvents(tokens)) == tokens
    decreases |tokens|
  {
    if |tokens| > 0 {
      assert TokenEvents(tokens)[1..] == TokenEvents(tokens[1..]);
      TokenContentsOfTokens(tokens[1..]);
    }
  }

  /** An event stream as the client sees it: an optional context event first, then
      tokens, then exactly one terminal `done` or `error` event. */
  predicate WellFormedStream(events: seq<StreamEvent>) {
    && |events| >= 1
    && (events[|events| - 1].DoneEvent? || events[|events| - 1].ErrorEvent?)
    && forall i :: 0 <= i < |events| - 1 ==> events[i].TokenEvent? || (i == 0 && events[i].ContextEvent?)
  }

  /** The token loop of `stream_message`: every token is forwarded as an event and appended
      to the reply. */
  method ForwardTokens(opening: seq<StreamEvent>, tokens: seq<string>) returns (events: seq<StreamEvent>, reply: string)
    ensures events == opening + TokenEvents(tokens) && reply == Concat(tokens)
  {
    reply := "";
    events := opening;
    var i := 0;
    while i < |tokens|
      invariant 0 <= i <= |tokens|
      invariant reply == Concat(tokens[..i])
      invariant events == opening + TokenEvents(tokens[..i])
    {
      ConcatAppend(tokens[..i], [tokens[i]]);
      assert tokens[..i + 1] == tokens[..i] + [tokens[i]];
      assert TokenEvents(tokens[..i + 1]) == TokenEvents(tokens[..i]) + [TokenEvent(tokens[i])];
      reply := reply + tokens[i];
      events := events + [TokenEvent(tokens[i])];
      i := i + 1;
    }
    assert tokens[..i] == tokens;
  }

  /** An optional context event, the token events and one terminal event make a
      well-formed stream whose token contents are the tokens. */
  lemma StreamShape(opening: seq<StreamEvent>, tokens: seq<string>, last: StreamEvent)
    requires opening == [] || (|opening| == 1 && opening[0].ContextEvent?)
    requires last.DoneEvent? || last.ErrorEvent?
    ensures var events := opening + TokenEvents(tokens) + [last];
            && WellFormedStream(events)
            && TokenContents(events) == tokens
            && (events[0].ContextEvent? <==> opening != [])
            && (opening != [] ==> events[0] == opening[0])
            && events[|events| - 1] == last
  {
    StreamEnds(opening, tokens, last);
    StreamTokens(opening, tokens, last);
  }

  /** The layout half of `StreamShape`: the stream is well formed, opens with the context
      event when there is one and closes with `last`. */
  lemma StreamEnds(opening: seq<StreamEvent>, tokens: seq<string>, last: StreamEvent)
    requires opening == [] || (|opening| == 1 && opening[0].ContextEvent?)
    requires last.DoneEvent? || last.ErrorEvent?
    ensures var events := opening + TokenEvents(tokens) + [last];
            && WellFormedStream(events)
            && (events[0].ContextEvent? <==> opening != [])
            && (opening != [] ==> events[0] == opening[0])
            && events[|events| - 1] == last
  {
    var body := TokenEvents(tokens);
    var events := opening + body + [last];
    forall i | 0 <= i < |events| - 1
      ensures events[i].TokenEvent? || (i == 0 && events[i].ContextEvent?)
    {
      if i >= |opening| {
        assert events[i] == body[i - |opening|];
      }
    }
    if opening == [] && tokens != [] {
      assert events[0] == body[0];
    }
  }

  /** The content half of `StreamShape`: only the token events contribute content. */
  lemma StreamTokens(opening: seq<StreamEvent>, tokens: seq<string>, last: StreamEvent)
    requires opening == [] || (|opening| == 1 && opening[0].ContextEvent?)
    requires last.DoneEvent? || last.ErrorEvent?
    ensures TokenContents(opening + TokenEvents(tokens) + [last]) == tokens
  {
    TokenContentsAppend(opening + TokenEvents(tokens), [last]);
    TokenContentsAppend(opening, TokenEvents(tokens));
    TokenContentsOfTokens(tokens);
    assert TokenContents([last]) == [];
    if opening != [] {
      assert TokenContents(opening) == [];
    }
  }

  /** `stream_message`. A context event is sent exactly when retrieval was asked for and
      succeeded; every token is forwarded; a failing stream ends with an error event and
      saves nothing; otherwise the conversation is saved with the forwarded tokens, joined,
      as the assistant's reply, and the done event reports whether that save succeeded. */
  method StreamMessage(svc: Services, message: string, sessionId: string, history: seq<Message>, useRag: bool, st: Stamps)
    returns (events: seq<StreamEvent>, askedRetrieval: bool, saved: Option<seq<Message>>)
    ensures askedRetrieval == useRag
    ensures WellFormedStream(events)
    ensures var out := svc.stream(TurnPrompt(svc, message, history, useRag));
            var retrieved := useRag && svc.retrieve(message).Success?;
            var contexts := TurnContext(svc, message, useRag);
            && (events[0].ContextEvent? <==> retrieved)
            && (retrieved ==> events[0] == ContextEvent(contexts))
            && TokenContents(events) == out.tokens
            && (out.failure.Some? ==> events[|events| - 1] == ErrorEvent(out.failure.value) && saved.None?)
            && (out.failure.None? ==>
                  saved == Some(SavedConversation(history, message, Concat(out.tokens), st))
                  && events[|events| - 1] == DoneEvent(svc.save(sessionId, saved.value).Pass?, |contexts|))
    ensures saved.Some? ==> saved.value[|saved.value| - 1].content == Concat(TokenContents(events))
  {
    var opening: seq<StreamEvent> := [];
    var contexts: seq<RetrievedContext> := [];
    askedRetrieval := useRag;
    if useRag {
      var found := svc.retrieve(message);
      if found.Success? {
        contexts := found.value;
        opening := [ContextEvent(contexts)];
      }
    }
    var prompt := BuildLlmMessages(svc.ct, svc.llm, message, history, contexts);
    var out := svc.stream(prompt);
    var body, reply := ForwardTokens(opening, out.tokens);
    var last: StreamEvent;
    if out.failure.Some? {
      last := ErrorEvent(out.failure.value);
      saved := None;
    } else {
      var conversation := history + [Message(st.userId, User, message, st.userTime, None),
                                     Message(st.aiId, Assistant, reply, st.aiTime, None)];
      saved := Some(conversation);
      var outcome := svc.save(sessionId, conversation);
      last := DoneEvent(outcome.Pass?, |contexts|);
    }
    events := body + [last];
    StreamShape(opening, out.tokens, last);
  }
}
