/** `_parse_messages_from_markdown` of backend/app/services/journal_service.py: the line
    by line reading of a journal's conversation section back into messages, and the proof
    that it recovers what `format_journal_markdown` wrote. */
module JournalMessages {
  import opened Wrappers
  import opened Strings
  import opened Models
  import opened MarkdownFormatter

  const ConversationMarker := "## Conversation"
  const FooterMarker := "---"
  const UserHeader := "**User**"
  const AssistantHeader := "**Assistant**"

  /** `s.split(pat, 1)[1]`; only used where `pat` occurs. */
  function AfterFirst(s: string, pat: string): string {
    match Find(s, pat)
    case None => ""
    case Some(i) => s[i + |pat|..]
  }

  /** `s.split(pat, 1)[0]`. */
  function BeforeFirst(s: string, pat: string): string {
    match Find(s, pat)
    case None => s
    case Some(i) => s[..i]
  }

  predicate IsHeader(line: string) {
    StartsWith(line, UserHeader) || StartsWith(line, AssistantHeader)
  }

  /** The parser's variables: `current_role`, `current_content` and the messages so far.
      (`current_timestamp` is always "now" by the time it is used.) */
  datatype ParseState = ParseState(role: Option<Role>, content: seq<string>, messages: seq<Message>)

  const Start := ParseState(None, [], [])

  /** The messages with the current one appended when it has a role and content. The k-th
      parsed message gets id `ids(k)` and timestamp `now`. */
  function Flushed(st: ParseState, now: int, ids: nat -> string): seq<Message> {
    if st.role.Some? && |st.content| > 0 then
      st.messages + [Message(ids(|st.messages|), st.role.value, Strip(Join(st.content, "\n")), now, None)]
    else st.messages
  }

  /** One line: a speaker header closes the current message and opens a new one; any
      other non-blank line is content when a speaker is open; the rest is skipped. */
  function Step(st: ParseState, raw: string, now: int, ids: nat -> string): ParseState {
    var line := Strip(raw);
    if IsHeader(line) then
      ParseState(Some(if StartsWith(line, UserHeader) then User else Assistant),
                 if st.role.Some? && |st.content| > 0 then [] else st.content,
                 Flushed(st, now, ids))
    else if line != "" && st.role.Some? then
      st.(content := st.content + [line])
    else st
  }

  function RunFrom(st: ParseState, lines: seq<string>, now: int, ids: nat -> string): ParseState
    decreases |lines|
  {
    if |lines| == 0 then st else RunFrom(Step(st, lines[0], now, ids), lines[1..], now, ids)
  }

  /** The lines between the first "## Conversation" and the first "---" after it. */
  function ConversationLines(content: string): seq<string> {
    Split(BeforeFirst(AfterFirst(content, ConversationMarker), FooterMarker), "\n")
  }

  /** What `_parse_messages_from_markdown` returns: nothing without a conversation section,
      otherwise the messages the line loop collects. */
  function ParseMessages(content: string, now: int, ids: nat -> string): seq<Message> {
    if Contains(content, ConversationMarker) then Flushed(RunFrom(Start, ConversationLines(content), now, ids), now, ids)
    else []
  }

  /** `_parse_messages_from_markdown`, as the loop over lines it is. */
  method ParseMessagesFromMarkdown(content: string, now: int, ids: nat -> string) returns (messages: seq<Message>)
    ensures messages == ParseMessages(content, now, ids)
  {
    messages := [];
    if !Contains(content, ConversationMarker) {
      return;
    }
    var lines := ConversationLines(content);
    var currentRole: Option<Role> := None;
    var currentContent: seq<string> := [];
    var i := 0;
    while i < |lines|
      invariant 0 <= i <= |lines|
      invariant RunFrom(ParseState(currentRole, currentContent, messages), lines[i..], now, ids)
                == RunFrom(Start, lines, now, ids)
    {
      ghost var before := ParseState(currentRole, currentContent, messages);
      var line := Strip(lines[i]);
      if StartsWith(line, UserHeader) || StartsWith(line, AssistantHeader) {
        if currentRole.Some? && |currentContent| > 0 {
          messages := messages + [Message(ids(|messages|), currentRole.value, Strip(Join(currentContent, "\n")), now, None)];
          currentContent := [];
        }
        if StartsWith(line, UserHeader) {
          currentRole := Some(User);
        } else {
          currentRole := Some(Assistant);
        }
      } else if line != "" && currentRole.Some? {
        currentContent := currentContent + [line];
      }
      assert ParseState(currentRole, currentContent, messages) == Step(before, lines[i], now, ids);
      assert lines[i..][1..] == lines[i + 1..];
      i := i + 1;
    }
    messages := Flushed(ParseState(currentRole, currentContent, messages), now, ids);
  }

  /** Text after the first "---" of the conversation section is never read: appending
      anything to content whose section is already closed changes no parsed message. */
  lemma FooterIgnored(content: string, tail: string, now: int, ids: nat -> string)
    requires Contains(content, ConversationMarker)
    requires Contains(AfterFirst(content, ConversationMarker), FooterMarker)
    ensures ParseMessages(content + tail, now, ids) == ParseMessages(content, now, ids)
  {
    FindExtend(content, tail, ConversationMarker);
    var section := AfterFirst(content, ConversationMarker);
    assert AfterFirst(content + tail, ConversationMarker) == section + tail;
    FindExtend(section, tail, FooterMarker);
    var k := Find(section, FooterMarker).value;
    assert BeforeFirst(section + tail, FooterMarker) == (section + tail)[..k] == section[..k];
    assert ConversationLines(content + tail) == ConversationLines(content);
    assert Contains(content + tail, ConversationMarker);
  }

  // ---------------------------------------------------------------------------
  // What the parser produces
  // ---------------------------------------------------------------------------

  /** Every message so far is a user or assistant message with content, stamped `now`;
      the open content lines are non-blank and stripped. */
  ghost predicate Proper(st: ParseState, now: int) {
    && st.role != Some(System)
    && (forall k :: 0 <= k < |st.content| ==> st.content[k] != "" && Strip(st.content[k]) == st.content[k])
    && (forall k :: 0 <= k < |st.messages| ==>
          st.messages[k].role != System && st.messages[k].content != "" && st.messages[k].timestamp == now)
  }

  /** Joining stripped non-blank lines and stripping leaves something. */
  lemma JoinedContentNonEmpty(content: seq<string>)
    requires |content| > 0 && content[0] != "" && Strip(content[0]) == content[0]
    ensures Strip(Join(content, "\n")) != ""
  {
    TrimSpec(content[0], IsSpace);
    JoinStart(content, "\n");
    var j := Join(content, "\n");
    TrimSpec(j, IsSpace);
    assert !IsSpace(j[0]);
  }

  lemma FlushedProper(st: ParseState, now: int, ids: nat -> string)
    requires Proper(st, now)
    ensures forall k :: 0 <= k < |Flushed(st, now, ids)| ==>
              Flushed(st, now, ids)[k].role != System && Flushed(st, now, ids)[k].content != ""
              && Flushed(st, now, ids)[k].timestamp == now
  {
    if st.role.Some? && |st.content| > 0 {
      JoinedContentNonEmpty(st.content);
    }
  }

  lemma StepProper(st: ParseState, raw: string, now: int, ids: nat -> string)
    requires Proper(st, now)
    ensures Proper(Step(st, raw, now, ids), now)
  {
    FlushedProper(st, now, ids);
    var line := Strip(raw);
    if !IsHeader(line) && line != "" && st.role.Some? {
      TrimSpec(raw, IsSpace);
      TrimIdentity(line, IsSpace);
    }
  }

  lemma {:induction false} RunProper(st: ParseState, lines: seq<string>, now: int, ids: nat -> string)
    requires Proper(st, now)
    ensures Proper(RunFrom(st, lines, now, ids), now)
    decreases |lines|
  {
    if |lines| > 0 {
      StepProper(st, lines[0], now, ids);
      RunProper(Step(st, lines[0], now, ids), lines[1..], now, ids);
    }
  }

  /** Parsed messages are never system messages, never empty, and carry the time of the
      read; a journal without a conversation section has none. */
  lemma ParsedMessagesProper(content: string, now: int, ids: nat -> string)
    ensures !Contains(content, ConversationMarker) ==> ParseMessages(content, now, ids) == []
    ensures var ms := ParseMessages(content, now, ids);
            forall k :: 0 <= k < |ms| ==> ms[k].role != System && ms[k].content != "" && ms[k].timestamp == now
  {
    if Contains(content, ConversationMarker) {
      RunProper(Start, ConversationLines(content), now, ids);
      FlushedProper(RunFrom(Start, ConversationLines(content), now, ids), now, ids);
    }
  }

  // ---------------------------------------------------------------------------
  // The round trip through the markdown body
  // ---------------------------------------------------------------------------

  /** The role and content of a message, which is what survives the journal file. */
  datatype Turn = Turn(role: Role, content: string)

  /** What one message leaves in the file: nothing for a system message. */
  function TurnOf(m: Message): seq<Turn> {
    if m.role == System then [] else [Turn(m.role, m.content)]
  }

  /** The user and assistant turns of a conversation, in order. */
  function Turns(ms: seq<Message>): seq<Turn> {
    if |ms| == 0 then [] else TurnOf(ms[0]) + Turns(ms[1..])
  }

  lemma {:induction false} TurnsAppend(a: seq<Message>, b: seq<Message>)
    ensures Turns(a + b) == Turns(a) + Turns(b)
    decreases |a|
  {
    if |a| == 0 {
      assert a + b == b;
    } else {
      assert (a + b)[0] == a[0];
      assert (a + b)[1..] == a[1..] + b;
      TurnsAppend(a[1..], b);
      calc {
        Turns(a + b);
        TurnOf(a[0]) + Turns(a[1..] + b);
        TurnOf(a[0]) + (Turns(a[1..]) + Turns(b));
        Turns(a) + Turns(b);
      }
    }
  }

  function Marker(r: Role): string {
    "**" + SpeakerLabel(r) + "**"
  }

  /** The first line of a message block, trailing spaces included. */
  function HeaderLine(m: Message, cal: Calendar): string {
    Marker(m.role) + " " + Separator + " *" + cal.clock(m.timestamp) + "*  "
  }

  /** The lines a message block holds: header, content and a blank line. */
  function LinesOf(m: Message, cal: Calendar): seq<string> {
    if m.role == System then [] else [HeaderLine(m, cal), m.content, ""]
  }

  /** The lines of the body, message by message. */
  function Transcript(ms: seq<Message>, cal: Calendar): seq<string> {
    if |ms| == 0 then [] else LinesOf(ms[0], cal) + Transcript(ms[1..], cal)
  }

  /** A message whose content the file keeps intact: one stripped non-blank line that is
      not itself a speaker header, with no "---" in it or in its time. */
  ghost predicate Transcribable(m: Message, cal: Calendar) {
    && m.content != "" && '\n' !in m.content && Strip(m.content) == m.content && !IsHeader(m.content)
    && NoDashRun(m.content)
    && '\n' !in cal.clock(m.timestamp) && NoDashRun(cal.clock(m.timestamp))
  }

  ghost predicate AllTranscribable(ms: seq<Message>, cal: Calendar) {
    forall k :: 0 <= k < |ms| && ms[k].role != System ==> Transcribable(ms[k], cal)
  }

  lemma JoinSnoc(a: seq<string>, x: string, sep: string)
    requires |a| >= 1
    ensures Join(a + [x], sep) == Join(a, sep) + sep + x
    decreases |a|
  {
    if |a| >= 2 {
      JoinSnoc(a[1..], x, sep);
      assert (a + [x])[1..] == a[1..] + [x];
    } else {
      assert a + [x] == [a[0], x];
    }
  }

  lemma BlockLines(m: Message, cal: Calendar)
    ensures MessageBlock(m, cal) == HeaderLine(m, cal) + "\n" + m.content + "\n" + "" + "\n"
  {
  }

  lemma Regroup(j: string, a: string, b: string, c: string, r: string, sep: string)
    ensures j + sep + a + sep + b + sep + c + sep + r == j + sep + ((a + sep + b + sep + c + sep) + r)
  {
  }

  lemma JoinThree(pre: seq<string>, a: string, b: string, c: string, rest: string, sep: string)
    requires |pre| >= 1
    ensures Join(pre + [a, b, c], sep) + sep + rest == Join(pre, sep) + sep + ((a + sep + b + sep + c + sep) + rest)
  {
    JoinSnoc(pre, a, sep);
    JoinSnoc(pre + [a], b, sep);
    JoinSnoc(pre + [a] + [b], c, sep);
    assert pre + [a] + [b] + [c] == pre + [a, b, c];
    Regroup(Join(pre, sep), a, b, c, rest, sep);
  }

  /** One message block, as three joined lines. */
  lemma BlockJoin(pre: seq<string>, m: Message, cal: Calendar, rest: string)
    requires |pre| >= 1 && m.role != System
    ensures Join(pre + LinesOf(m, cal), "\n") + "\n" + rest == Join(pre, "\n") + "\n" + (Block(m, cal) + rest)
  {
    BlockLines(m, cal);
    JoinThree(pre, HeaderLine(m, cal), m.content, "", rest, "\n");
  }

  /** The body is the transcript joined at newlines, after whatever came before. */
  lemma {:induction false} BodyJoin(pre: seq<string>, ms: seq<Message>, cal: Calendar)
    requires |pre| >= 1
    ensures Join(pre + Transcript(ms, cal) + [""], "\n") == Join(pre, "\n") + "\n" + Body(ms, cal)
    decreases |ms|
  {
    if |ms| == 0 {
      assert pre + Transcript(ms, cal) + [""] == pre + [""];
      JoinSnoc(pre, "", "\n");
    } else {
      var m := ms[0];
      var pre' := pre + LinesOf(m, cal);
      var rest := Body(ms[1..], cal);
      assert pre + Transcript(ms, cal) + [""] == pre' + Transcript(ms[1..], cal) + [""];
      BodyJoin(pre', ms[1..], cal);
      assert Body(ms, cal) == Block(m, cal) + rest;
      if m.role == System {
        assert pre' == pre;
        assert Block(m, cal) + rest == rest;
      } else {
        BlockJoin(pre, m, cal, rest);
      }
      calc {
        Join(pre + Transcript(ms, cal) + [""], "\n");
        Join(pre' + Transcript(ms[1..], cal) + [""], "\n");
        Join(pre', "\n") + "\n" + rest;
        Join(pre, "\n") + "\n" + (Block(m, cal) + rest);
      }
    }
  }

  /** Stripping a string that starts with a kept character and has a kept character at
      `k` keeps its first `k` characters. */
  lemma StripKeepsLead(h: string, lead: string, k: nat)
    requires StartsWith(h, lead) && |lead| <= k < |h| && !IsSpace(h[0]) && !IsSpace(h[k])
    ensures StartsWith(Strip(h), lead)
  {
    assert TrimLeft(h, IsSpace) == h;
    TrimRightSpec(h, IsSpace);
    var r := TrimRight(h, IsSpace);
    assert |r| > k;
    assert r[..|lead|] == h[..|lead|];
  }

  lemma MarkerRoles(line: string, r: Role)
    requires r != System && StartsWith(line, Marker(r))
    ensures IsHeader(line) && (StartsWith(line, UserHeader) <==> r == User)
  {
    if r == User {
      assert Marker(r) == UserHeader;
    } else {
      assert Marker(r) == AssistantHeader;
      assert line[2] == AssistantHeader[2];
    }
  }

  lemma HeaderLineStripped(m: Message, cal: Calendar)
    requires m.role != System
    ensures var line := Strip(HeaderLine(m, cal));
            IsHeader(line) && (StartsWith(line, UserHeader) <==> m.role == User)
  {
    var h := HeaderLine(m, cal);
    var mk := Marker(m.role);
    var front := mk + " " + Separator + " *" + cal.clock(m.timestamp);
    assert h == front + "*  ";
    assert h[|h| - 3] == '*';
    assert h[..|mk|] == mk && h[0] == mk[0];
    StripKeepsLead(h, mk, |h| - 3);
    MarkerRoles(Strip(h), m.role);
  }

  /** An open message with content, or none at all. */
  ghost predicate Settled(st: ParseState) {
    st.content == [] || (st.role.Some? && |st.content| == 1 && Strip(st.content[0]) == st.content[0])
  }

  /** The state after a message's lines: a new open message, or no change for a system
      message, which has no lines. */
  function Advance(st: ParseState, m: Message, now: int, ids: nat -> string): ParseState {
    if m.role == System then st else ParseState(Some(m.role), [m.content], Flushed(st, now, ids))
  }

  function AfterAll(st: ParseState, ms: seq<Message>, now: int, ids: nat -> string): ParseState
    decreases |ms|
  {
    if |ms| == 0 then st else AfterAll(Advance(st, ms[0], now, ids), ms[1..], now, ids)
  }

  lemma BlankStep(st: ParseState, now: int, ids: nat -> string)
    ensures Step(st, "", now, ids) == st
  {
    assert Strip("") == "";
  }

  lemma BlockSteps(st: ParseState, m: Message, cal: Calendar, now: int, ids: nat -> string)
    requires Settled(st) && m.role != System && Transcribable(m, cal)
    ensures Step(Step(Step(st, HeaderLine(m, cal), now, ids), m.content, now, ids), "", now, ids) == Advance(st, m, now, ids)
  {
    HeaderLineStripped(m, cal);
    var s1 := Step(st, HeaderLine(m, cal), now, ids);
    assert s1 == ParseState(Some(m.role), [], Flushed(st, now, ids));
    var s2 := Step(s1, m.content, now, ids);
    assert s2 == ParseState(Some(m.role), [m.content], Flushed(st, now, ids));
    BlankStep(s2, now, ids);
  }

  lemma TranscribableTail(ms: seq<Message>, cal: Calendar)
    requires |ms| > 0 && AllTranscribable(ms, cal)
    ensures AllTranscribable(ms[1..], cal)
  {
    forall k | 0 <= k < |ms[1..]| && ms[1..][k].role != System
      ensures Transcribable(ms[1..][k], cal)
    {
      assert ms[1..][k] == ms[k + 1];
    }
  }

  lemma RunThree(st: ParseState, a: string, b: string, c: string, tail: seq<string>, now: int, ids: nat -> string)
    ensures RunFrom(st, [a, b, c] + tail, now, ids)
            == RunFrom(Step(Step(Step(st, a, now, ids), b, now, ids), c, now, ids), tail, now, ids)
  {
    var lines := [a, b, c] + tail;
    var s1 := Step(st, a, now, ids);
    var s2 := Step(s1, b, now, ids);
    assert lines[0] == a && lines[1..][0] == b && lines[1..][1..][0] == c;
    assert lines[1..][1..][1..] == tail;
    calc {
      RunFrom(st, lines, now, ids);
      RunFrom(s1, lines[1..], now, ids);
      RunFrom(s2, lines[1..][1..], now, ids);
      RunFrom(Step(s2, c, now, ids), tail, now, ids);
    }
  }

  lemma {:induction false} RunTranscript(st: ParseState, ms: seq<Message>, rest: seq<string>, cal: Calendar,
                                        now: int, ids: nat -> string)
    requires Settled(st) && AllTranscribable(ms, cal)
    ensures RunFrom(st, Transcript(ms, cal) + rest, now, ids) == RunFrom(AfterAll(st, ms, now, ids), rest, now, ids)
    ensures Settled(AfterAll(st, ms, now, ids))
    decreases |ms|
  {
    if |ms| > 0 {
      TranscribableTail(ms, cal);
      var m := ms[0];
      var tail := Transcript(ms[1..], cal) + rest;
      assert Transcript(ms, cal) + rest == LinesOf(m, cal) + tail;
      var next := Advance(st, m, now, ids);
      if m.role == System {
        assert LinesOf(m, cal) + tail == tail;
      } else {
        assert LinesOf(m, cal) == [HeaderLine(m, cal), m.content, ""];
        RunThree(st, HeaderLine(m, cal), m.content, "", tail, now, ids);
        BlockSteps(st, m, cal, now, ids);
      }
      assert RunFrom(st, LinesOf(m, cal) + tail, now, ids) == RunFrom(next, tail, now, ids);
      RunTranscript(next, ms[1..], rest, cal, now, ids);
      assert AfterAll(st, ms, now, ids) == AfterAll(next, ms[1..], now, ids);
    } else {
      assert Transcript(ms, cal) + rest == rest;
    }
  }

  /** Advancing past a message adds its turn once the parse is flushed. */
  lemma FlushAdvance(st: ParseState, m: Message, now: int, ids: nat -> string)
    requires m.role != System ==> Strip(m.content) == m.content
    ensures Turns(Flushed(Advance(st, m, now, ids), now, ids)) == Turns(Flushed(st, now, ids)) + TurnOf(m)
  {
    if m.role != System {
      var added := Message(ids(|Flushed(st, now, ids)|), m.role, Strip(Join([m.content], "\n")), now, None);
      assert Flushed(Advance(st, m, now, ids), now, ids) == Flushed(st, now, ids) + [added];
      TurnsAppend(Flushed(st, now, ids), [added]);
      assert Turns([added]) == TurnOf(added) + Turns([]);
    }
  }

  /** Every user and assistant message is already stripped. */
  ghost predicate Stripped(ms: seq<Message>) {
    forall k :: 0 <= k < |ms| ==> (ms[k].role != System ==> Strip(ms[k].content) == ms[k].content)
  }

  lemma StrippedTail(ms: seq<Message>)
    requires |ms| > 0 && Stripped(ms)
    ensures Stripped(ms[1..]) && (ms[0].role != System ==> Strip(ms[0].content) == ms[0].content)
  {
    forall k | 0 <= k < |ms[1..]|
      ensures ms[1..][k].role != System ==> Strip(ms[1..][k].content) == ms[1..][k].content
    {
      assert ms[1..][k] == ms[k + 1];
    }
  }

  lemma TranscribableStripped(ms: seq<Message>, cal: Calendar)
    requires AllTranscribable(ms, cal)
    ensures Stripped(ms)
  {
  }

  lemma {:induction false} TurnsAfterAll(st: ParseState, ms: seq<Message>, now: int, ids: nat -> string)
    requires Stripped(ms)
    ensures Turns(Flushed(AfterAll(st, ms, now, ids), now, ids)) == Turns(Flushed(st, now, ids)) + Turns(ms)
    decreases |ms|
  {
    if |ms| > 0 {
      var m, rest := ms[0], ms[1..];
      StrippedTail(ms);
      var next := Advance(st, m, now, ids);
      TurnsAfterAll(next, rest, now, ids);
      FlushAdvance(st, m, now, ids);
      SeqAssoc(Turns(Flushed(st, now, ids)), TurnOf(m), Turns(rest));
    }
  }

  /** A blank line changes nothing. */
  lemma RunBlank(st: ParseState, rest: seq<string>, now: int, ids: nat -> string)
    ensures RunFrom(st, [""] + rest, now, ids) == RunFrom(st, rest, now, ids)
  {
    BlankStep(st, now, ids);
    assert ([""] + rest)[0] == "" && ([""] + rest)[1..] == rest;
  }

  /** The parser reads a body back as its user and assistant turns. */
  lemma BodyRoundTrip(ms: seq<Message>, cal: Calendar, now: int, ids: nat -> string)
    requires AllTranscribable(ms, cal)
    ensures Turns(Flushed(RunFrom(Start, BodyLines(ms, cal), now, ids), now, ids)) == Turns(ms)
  {
    var t := Transcript(ms, cal);
    assert BodyLines(ms, cal) == [""] + ([""] + (t + [""]));
    RunBlank(Start, [""] + (t + [""]), now, ids);
    RunBlank(Start, t + [""], now, ids);
    RunTranscript(Start, ms, [""], cal, now, ids);
    var last := AfterAll(Start, ms, now, ids);
    RunBlank(last, [], now, ids);
    assert [""] + [] == [""];
    TranscribableStripped(ms, cal);
    TurnsAfterAll(Start, ms, now, ids);
  }

  // ---------------------------------------------------------------------------
  // Finding the conversation in a whole journal
  // ---------------------------------------------------------------------------

  /** `c` appears in no part and not in the separator, so not in the join. */
  lemma {:induction false} JoinAvoids(parts: seq<string>, sep: string, c: char)
    requires c !in sep
    requires forall i :: 0 <= i < |parts| ==> c !in parts[i]
    ensures c !in Join(parts, sep)
    decreases |parts|
  {
    if |parts| >= 2 {
      assert forall i :: 0 <= i < |parts[1..]| ==> parts[1..][i] == parts[i + 1];
      JoinAvoids(parts[1..], sep, c);
    }
  }

  lemma NumbersAvoidHash(n: int)
    ensures '#' !in IntToString(n) && '#' !in DurationText(n)
  {
    forall k: int ensures '#' !in IntToString(k) {
      assert '#' !in NatToString(if k < 0 then -k else k);
    }
  }

  lemma FrontmatterAvoidsHash(title: string, date: string, sessionId: string, count: nat, duration: Option<int>)
    requires '#' !in title && '#' !in date && '#' !in sessionId
    ensures '#' !in Frontmatter(title, date, sessionId, count, duration)
  {
    var lines := FrontmatterLines(title, date, sessionId, count, duration);
    assert '#' !in NatToString(count);
    if duration.Some? {
      NumbersAvoidHash(duration.value);
    }
    JoinAvoids(lines, "\n", '#');
  }

  /** What the header holds between the title and the conversation heading. */
  function HeaderMiddle(longDate: string, duration: Option<int>): string {
    if duration.Some? then
      "\n\n**Session Date:** " + longDate + "  \n**Duration:** " + DurationText(duration.value) + "\n\n---\n\n"
    else
      "\n\n**Session Date:** " + longDate + "\n\n---\n\n"
  }

  lemma HeadingSplit()
    ensures "\n\n---\n\n## Conversation\n\n" == "\n\n---\n\n" + ConversationMarker + "\n\n"
  {
  }

  lemma RegroupHeader(h: string, t: string, p: string, d: string, q: string, e: string, r: string, k: string, nl: string)
    ensures h + t + p + d + q + e + (r + k + nl) == h + t + (p + d + q + e + r) + k + nl
    ensures h + t + p + d + (r + k + nl) == h + t + (p + d + r) + k + nl
  {
  }

  lemma HeaderParts(title: string, longDate: string, duration: Option<int>)
    ensures Header(title, longDate, duration) == "# " + title + HeaderMiddle(longDate, duration) + ConversationMarker + "\n\n"
  {
    HeadingSplit();
    if duration.Some? {
      RegroupHeader("# ", title, "\n\n**Session Date:** ", longDate, "  \n**Duration:** ", DurationText(duration.value),
                    "\n\n---\n\n", ConversationMarker, "\n\n");
    } else {
      RegroupHeader("# ", title, "\n\n**Session Date:** ", longDate, "", "", "\n\n---\n\n", ConversationMarker, "\n\n");
    }
  }

  lemma MiddleAvoidsHash(longDate: string, duration: Option<int>)
    requires '#' !in longDate
    ensures '#' !in HeaderMiddle(longDate, duration)
    ensures var h := HeaderMiddle(longDate, duration); |h| > 0 && h[|h| - 1] == '\n'
  {
    if duration.Some? {
      NumbersAvoidHash(duration.value);
    }
  }

  /** With a single '#' in the text, and a space after it, "## Conversation" cannot occur. */
  lemma SingleHash(a: string, b: string)
    requires '#' !in a && '#' !in b
    ensures !Contains(a + "# " + b, ConversationMarker)
  {
    var s := a + "# " + b;
    var pat := ConversationMarker;
    forall j: nat
      ensures !OccursAt(s, pat, j)
    {
      if j + |pat| <= |s| {
        var w := s[j..j + |pat|];
        assert w[0] == s[j] && w[1] == s[j + 1];
        if j < |a| {
          assert s[j] == a[j];
        } else if j == |a| {
          assert s[j + 1] == ' ';
        } else if j == |a| + 1 {
          assert s[j] == ' ';
        } else {
          assert s[j] == b[j - |a| - 2];
        }
      }
    }
  }

  lemma HeaderLineClean(m: Message, cal: Calendar)
    requires m.role != System && Transcribable(m, cal)
    ensures NoDashRun(HeaderLine(m, cal)) && '\n' !in HeaderLine(m, cal)
  {
    var lead := Marker(m.role) + " " + Separator + " *";
    var clock := cal.clock(m.timestamp);
    assert '-' !in lead && lead[|lead| - 1] == '*';
    DashFree(lead);
    NoRunAppend(lead, clock);
    DashFree("*  ");
    NoRunAppend(lead + clock, "*  ");
    assert HeaderLine(m, cal) == lead + clock + "*  ";
  }

  /** The body's lines, with the two blank lines before and the one after. */
  function BodyLines(ms: seq<Message>, cal: Calendar): seq<string> {
    ["", ""] + Transcript(ms, cal) + [""]
  }

  lemma {:induction false} TranscriptClean(ms: seq<Message>, cal: Calendar)
    requires AllTranscribable(ms, cal)
    ensures CleanLines(Transcript(ms, cal))
    decreases |ms|
  {
    if |ms| > 0 {
      TranscribableTail(ms, cal);
      TranscriptClean(ms[1..], cal);
      var own := LinesOf(ms[0], cal);
      var t := Transcript(ms, cal);
      assert t == own + Transcript(ms[1..], cal);
      if ms[0].role != System {
        HeaderLineClean(ms[0], cal);
        ShortNoRun("");
      }
      forall i | 0 <= i < |t|
        ensures NoDashRun(t[i]) && '\n' !in t[i]
      {
        if i >= |own| {
          assert t[i] == Transcript(ms[1..], cal)[i - |own|];
        } else {
          assert t[i] == own[i];
        }
      }
    }
  }

  /** The text between the heading and the footer joins the body lines at newlines. */
  lemma BodyText(ms: seq<Message>, cal: Calendar)
    ensures Join(BodyLines(ms, cal), "\n") == "\n\n" + Body(ms, cal)
  {
    BodyJoin(["", ""], ms, cal);
    assert Join(["", ""], "\n") == "\n";
  }

  /** The body lines are single lines without "---". */
  lemma BodyLinesClean(ms: seq<Message>, cal: Calendar)
    requires AllTranscribable(ms, cal)
    ensures CleanLines(BodyLines(ms, cal))
  {
    var lines := BodyLines(ms, cal);
    TranscriptClean(ms, cal);
    ShortNoRun("");
    forall i | 0 <= i < |lines|
      ensures NoDashRun(lines[i]) && '\n' !in lines[i]
    {
      if 2 <= i < |lines| - 1 {
        assert lines[i] == Transcript(ms, cal)[i - 2];
      }
    }
  }

  lemma BodyFree(ms: seq<Message>, cal: Calendar)
    requires AllTranscribable(ms, cal)
    ensures !Contains("\n\n" + Body(ms, cal), FooterMarker)
  {
    BodyText(ms, cal);
    BodyLinesClean(ms, cal);
    JoinNoRun(BodyLines(ms, cal));
    NoDashRunNotContains(Join(BodyLines(ms, cal), "\n"));
  }

  lemma BodyEnd(ms: seq<Message>, cal: Calendar)
    ensures var b := "\n\n" + Body(ms, cal); b[|b| - 1] == '\n'
  {
    var lines := BodyLines(ms, cal);
    BodyText(ms, cal);
    JoinSnoc(lines[..|lines| - 1], "", "\n");
    assert lines[..|lines| - 1] + [""] == lines;
  }

  lemma RegroupJournal(f: string, h: string, t: string, m: string, k: string, nl: string, b: string, ft: string)
    ensures f + (h + t + m + k + nl) + b + ft == (f + h + (t + m)) + (k + (nl + b + ft))
  {
  }

  lemma DropFront(x: string, k: string, rest: string)
    ensures (x + (k + rest))[|x| + |k|..] == rest
  {
  }

  lemma MarkersSingleLine()
    ensures '\n' !in ConversationMarker && '\n' !in FooterMarker
  {
  }

  lemma FooterSplit()
    ensures Footer == FooterMarker + Footer[3..]
  {
  }

  /** The frontmatter and the header up to the conversation heading. */
  function Top(title: string, sessionId: string, ms: seq<Message>, createdAt: int, duration: Option<int>,
               cal: Calendar): string {
    Frontmatter(title, cal.stamp(createdAt), sessionId, |ms|, duration) + "# "
    + (title + HeaderMiddle(cal.longDate(createdAt), duration))
  }

  /** The first occurrence of `k` in `x + k + rest`, when `x` cannot hold or start one. */
  lemma FirstAfter(s: string, x: string, k: string, rest: string)
    requires s == x + (k + rest)
    requires !Contains(x, k) && |k| > 0 && |x| > 0 && x[|x| - 1] !in k
    ensures Find(s, k) == Some(|x|)
    ensures AfterFirst(s, k) == rest
    ensures BeforeFirst(s, k) == x
  {
    NoOccurrenceBefore(x, k + rest, k);
    assert s[|x|..|x| + |k|] == k;
    FindAt(s, k, |x|);
    DropFront(x, k, rest);
  }

  lemma JournalSplit(title: string, sessionId: string, ms: seq<Message>, createdAt: int,
                     duration: Option<int>, cal: Calendar)
    ensures JournalMarkdown(title, sessionId, ms, createdAt, duration, cal)
            == Top(title, sessionId, ms, createdAt, duration, cal) + (ConversationMarker + ("\n\n" + Body(ms, cal) + Footer))
  {
    HeaderParts(title, cal.longDate(createdAt), duration);
    RegroupJournal(Frontmatter(title, cal.stamp(createdAt), sessionId, |ms|, duration), "# ", title,
                   HeaderMiddle(cal.longDate(createdAt), duration), ConversationMarker, "\n\n", Body(ms, cal), Footer);
  }

  /** Nothing before the heading looks like it, and the text before it ends in a newline. */
  lemma TopFacts(title: string, sessionId: string, ms: seq<Message>, createdAt: int,
                 duration: Option<int>, cal: Calendar)
    requires '#' !in title && '#' !in sessionId && '#' !in cal.stamp(createdAt) && '#' !in cal.longDate(createdAt)
    ensures var x := Top(title, sessionId, ms, createdAt, duration, cal);
            !Contains(x, ConversationMarker) && |x| > 0 && x[|x| - 1] == '\n'
  {
    var f := Frontmatter(title, cal.stamp(createdAt), sessionId, |ms|, duration);
    var mid := HeaderMiddle(cal.longDate(createdAt), duration);
    FrontmatterAvoidsHash(title, cal.stamp(createdAt), sessionId, |ms|, duration);
    MiddleAvoidsHash(cal.longDate(createdAt), duration);
    SingleHash(f, title + mid);
    var x := Top(title, sessionId, ms, createdAt, duration, cal);
    assert x == f + "# " + (title + mid);
    assert x[|x| - 1] == mid[|mid| - 1];
  }

  /** The first "## Conversation" of a journal is the heading, and after it come the body
      and the footer. */
  lemma HeadingOfJournal(title: string, sessionId: string, ms: seq<Message>, createdAt: int,
                         duration: Option<int>, cal: Calendar)
    requires '#' !in title && '#' !in sessionId && '#' !in cal.stamp(createdAt) && '#' !in cal.longDate(createdAt)
    ensures var j := JournalMarkdown(title, sessionId, ms, createdAt, duration, cal);
            Contains(j, ConversationMarker) && AfterFirst(j, ConversationMarker) == "\n\n" + Body(ms, cal) + Footer
  {
    JournalSplit(title, sessionId, ms, createdAt, duration, cal);
    TopFacts(title, sessionId, ms, createdAt, duration, cal);
    MarkersSingleLine();
    FirstAfter(JournalMarkdown(title, sessionId, ms, createdAt, duration, cal), Top(title, sessionId, ms, createdAt, duration, cal),
               ConversationMarker, "\n\n" + Body(ms, cal) + Footer);
  }

  /** The first "---" after the heading is the footer's. */
  lemma FooterOfBody(ms: seq<Message>, cal: Calendar)
    requires AllTranscribable(ms, cal)
    ensures BeforeFirst("\n\n" + Body(ms, cal) + Footer, FooterMarker) == "\n\n" + Body(ms, cal)
  {
    var body := "\n\n" + Body(ms, cal);
    BodyEnd(ms, cal);
    BodyFree(ms, cal);
    FooterSplit();
    MarkersSingleLine();
    FirstAfter(body + Footer, body, FooterMarker, Footer[3..]);
  }

  /** The parser's lines of a whole journal are the body lines. */
  lemma ConversationOfJournal(title: string, sessionId: string, ms: seq<Message>, createdAt: int,
                              duration: Option<int>, cal: Calendar)
    requires '#' !in title && '#' !in sessionId && '#' !in cal.stamp(createdAt) && '#' !in cal.longDate(createdAt)
    requires AllTranscribable(ms, cal)
    ensures var j := JournalMarkdown(title, sessionId, ms, createdAt, duration, cal);
            Contains(j, ConversationMarker) && ConversationLines(j) == BodyLines(ms, cal)
  {
    HeadingOfJournal(title, sessionId, ms, createdAt, duration, cal);
    FooterOfBody(ms, cal);
    BodyText(ms, cal);
    BodyLinesClean(ms, cal);
    SplitJoin(BodyLines(ms, cal), '\n');
  }

  /** Reading back a journal written by `format_journal_markdown` gives its user and
      assistant turns in order, when no '#' in the frontmatter values can fake the
      conversation heading and each message is a single clean line. */
  lemma MessagesRoundTrip(title: string, sessionId: string, ms: seq<Message>, createdAt: int,
                          duration: Option<int>, cal: Calendar, now: int, ids: nat -> string)
    requires '#' !in title && '#' !in sessionId && '#' !in cal.stamp(createdAt) && '#' !in cal.longDate(createdAt)
    requires AllTranscribable(ms, cal)
    ensures Turns(ParseMessages(JournalMarkdown(title, sessionId, ms, createdAt, duration, cal), now, ids)) == Turns(ms)
  {
    ConversationOfJournal(title, sessionId, ms, createdAt, duration, cal);
    BodyRoundTrip(ms, cal, now, ids);
  }
}
