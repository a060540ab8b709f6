/** The markdown journal format of backend/app/utils/markdown_formatter.py: frontmatter,
    header, conversation body and footer, and the frontmatter parser. */
module MarkdownFormatter {
  import opened Wrappers
  import opened Strings
  import opened Models

  // ---------------------------------------------------------------------------
  // Formatting
  // ---------------------------------------------------------------------------

  /** The duration as "{m}m {s}s", or "{s}s" under a minute. Python's `//` and `%` by 60
      floor, which for a positive divisor is what Dafny's `/` and `%` do. */
  function DurationText(d: int): string {
    var minutes := d / 60;
    var seconds := d % 60;
    if minutes > 0 then IntToString(minutes) + "m " + IntToString(seconds) + "s" else IntToString(seconds) + "s"
  }

  /** The frontmatter lines in order; `duration` only when a duration is given. The count
      is of all messages, system messages included. */
  function FrontmatterLines(title: string, date: string, sessionId: string, count: nat, duration: Option<int>): seq<string> {
    var fixed := ["title: " + title, "date: " + date, "session_id: " + sessionId, "message_count: " + NatToString(count)];
    if duration.Some? then fixed + ["duration: " + IntToString(duration.value)] else fixed
  }

  /** The frontmatter block: "---", the lines, "---" and a blank line. */
  function Frontmatter(title: string, date: string, sessionId: string, count: nat, duration: Option<int>): string {
    "---\n" + Join(FrontmatterLines(title, date, sessionId, count, duration), "\n") + "\n---\n\n"
  }

  /** The title heading, the long session date and, when a duration is given, its text. */
  function Header(title: string, longDate: string, duration: Option<int>): string {
    if duration.Some? then
      "# " + title + "\n\n**Session Date:** " + longDate + "  \n**Duration:** " + DurationText(duration.value)
      + "\n\n---\n\n## Conversation\n\n"
    else
      "# " + title + "\n\n**Session Date:** " + longDate + "\n\n---\n\n## Conversation\n\n"
  }

  /** The separator between speaker and time. The source file holds the UTF-8 bytes of an
      em dash read as Windows-1252; the three characters are kept as they are written. */
  const Separator := "\U{E2}\U{20AC}\U{201D}"

  function MessageBlock(m: Message, cal: Calendar): string {
    "**" + SpeakerLabel(m.role) + "** " + Separator + " *" + cal.clock(m.timestamp) + "*  \n" + m.content + "\n\n"
  }

  /** What one message contributes to the body: nothing for a system message. */
  function Block(m: Message, cal: Calendar): string {
    if m.role == System then "" else MessageBlock(m, cal)
  }

  /** The conversation body: one block per non-system message, in order. */
  function Body(ms: seq<Message>, cal: Calendar): string {
    if |ms| == 0 then "" else Block(ms[0], cal) + Body(ms[1..], cal)
  }

  const Footer := "---\n\n*Journal entry automatically generated*\n"

  function JournalMarkdown(title: string, sessionId: string, ms: seq<Message>, createdAt: int,
                           duration: Option<int>, cal: Calendar): string {
    Frontmatter(title, cal.stamp(createdAt), sessionId, |ms|, duration)
    + Header(title, cal.longDate(createdAt), duration) + Body(ms, cal) + Footer
  }

  /** `format_journal_markdown`: frontmatter, header, conversation and footer, each grown
      the way the source does. */
  method FormatJournalMarkdown(title: string, sessionId: string, messages: seq<Message>, createdAt: int,
                               duration: Option<int>, cal: Calendar) returns (s: string)
    ensures s == JournalMarkdown(title, sessionId, messages, createdAt, duration, cal)
  {
    var frontmatter := FormatFrontmatter(title, cal.stamp(createdAt), sessionId, |messages|, duration);
    var header := FormatHeader(title, cal.longDate(createdAt), duration);
    var conversation := FormatConversation(messages, cal);
    s := frontmatter + header + conversation + Footer;
  }

  /** The frontmatter as the source builds it: the fixed lines, the duration line when
      there is a duration, and the closing "---". */
  method FormatFrontmatter(title: string, date: string, sessionId: string, count: nat, duration: Option<int>)
    returns (frontmatter: string)
    ensures frontmatter == Frontmatter(title, date, sessionId, count, duration)
  {
    var n := NatToString(count);
    frontmatter := "---\n" + "title: " + title + "\n" + "date: " + date + "\n" + "session_id: " + sessionId
                   + "\n" + "message_count: " + n;
    if duration.Some? {
      var d := IntToString(duration.value);
      frontmatter := frontmatter + "\n" + "duration: " + d;
      RegroupFive("---\n", "title: ", title, "date: ", date, "session_id: ", sessionId, "message_count: ", n,
                  "duration: ", d, "\n");
      assert FrontmatterLines(title, date, sessionId, count, duration)
             == ["title: " + title, "date: " + date, "session_id: " + sessionId, "message_count: " + n, "duration: " + d];
    } else {
      RegroupFour("---\n", "title: ", title, "date: ", date, "session_id: ", sessionId, "message_count: ", n, "\n");
    }
    frontmatter := frontmatter + "\n---\n\n";
  }

  /** The header as the source builds it; the duration text is shown when it is not empty,
      which is exactly when a duration is given. */
  method FormatHeader(title: string, longDate: string, duration: Option<int>) returns (header: string)
    ensures header == Header(title, longDate, duration)
  {
    var durationText := "";
    if duration.Some? {
      durationText := DurationText(duration.value);
    }
    header := "# " + title + "\n\n**Session Date:** " + longDate;
    if durationText != "" {
      header := header + "  \n**Duration:** " + durationText;
    }
    header := header + "\n\n---\n\n## Conversation\n\n";
  }

  /** The conversation loop: system messages are skipped, every other message appends its
      block. */
  method FormatConversation(messages: seq<Message>, cal: Calendar) returns (conversation: string)
    ensures conversation == Body(messages, cal)
  {
    conversation := "";
    var i := 0;
    while i < |messages|
      invariant 0 <= i <= |messages|
      invariant conversation == Body(messages[..i], cal)
    {
      assert messages[..i + 1] == messages[..i] + [messages[i]];
      BodyAppend(messages[..i], [messages[i]], cal);
      BodyOfOne(messages[i], cal);
      if messages[i].role != System {
        conversation := conversation + MessageBlock(messages[i], cal);
      }
      i := i + 1;
    }
    assert messages[..i] == messages;
  }

  lemma JoinFour(a: string, b: string, c: string, d: string, sep: string)
    ensures Join([a, b, c, d], sep) == a + sep + b + sep + c + sep + d
  {
    var l := [a, b, c, d];
    assert l[1..] == [b, c, d];
    assert l[1..][1..] == [c, d];
    assert l[1..][1..][1..] == [d];
    JoinTail([c, d], sep);
    JoinTail([b, c, d], sep);
    JoinTail(l, sep);
  }

  lemma JoinFive(a: string, b: string, c: string, d: string, e: string, sep: string)
    ensures Join([a, b, c, d, e], sep) == a + sep + b + sep + c + sep + d + sep + e
  {
    var l := [a, b, c, d, e];
    assert l[1..] == [b, c, d, e];
    JoinFour(b, c, d, e, sep);
    JoinTail(l, sep);
  }

  /** Writing the "key: value" lines one after another behind a prefix is the prefix
      followed by the lines joined. */
  lemma RegroupFour(p: string, k1: string, v1: string, k2: string, v2: string, k3: string, v3: string,
                    k4: string, v4: string, sep: string)
    ensures p + k1 + v1 + sep + k2 + v2 + sep + k3 + v3 + sep + k4 + v4
            == p + Join([k1 + v1, k2 + v2, k3 + v3, k4 + v4], sep)
  {
    JoinFour(k1 + v1, k2 + v2, k3 + v3, k4 + v4, sep);
  }

  lemma RegroupFive(p: string, k1: string, v1: string, k2: string, v2: string, k3: string, v3: string,
                    k4: string, v4: string, k5: string, v5: string, sep: string)
    ensures p + k1 + v1 + sep + k2 + v2 + sep + k3 + v3 + sep + k4 + v4 + sep + k5 + v5
            == p + Join([k1 + v1, k2 + v2, k3 + v3, k4 + v4, k5 + v5], sep)
  {
    JoinFive(k1 + v1, k2 + v2, k3 + v3, k4 + v4, k5 + v5, sep);
  }

  lemma DurationTwoMinutes() ensures DurationText(125) == "2m 5s" {}
  lemma DurationSeconds() ensures DurationText(45) == "45s" { assert NatToString(45) == NatToString(4) + [DigitChar(5)]; }
  lemma DurationOneMinute() ensures DurationText(60) == "1m 0s" {}
  lemma DurationZero() ensures DurationText(0) == "0s" {}

  /** Illustration: the sample durations 125, 45, 60 and 0 seconds, instances of
      `DurationParts`. */
  lemma DurationExamples()
    ensures DurationText(125) == "2m 5s" && DurationText(45) == "45s" && DurationText(60) == "1m 0s"
    ensures DurationText(0) == "0s"
  {
    DurationTwoMinutes();
    DurationSeconds();
    DurationOneMinute();
    DurationZero();
  }

  /** From a minute on, the minutes come first; below a minute only the seconds show. The
      minutes and seconds recombine to the duration. */
  lemma DurationParts(d: int)
    ensures d == 60 * (d / 60) + d % 60 && 0 <= d % 60 < 60
    ensures d >= 60 ==> DurationText(d) == IntToString(d / 60) + "m " + IntToString(d % 60) + "s"
    ensures 0 <= d < 60 ==> DurationText(d) == IntToString(d) + "s"
    ensures d < 0 ==> DurationText(d) == IntToString(d % 60) + "s"
  {
  }

  /** The body leaves out system messages and keeps the others in order: it distributes
      over concatenation and a system message contributes nothing. */
  lemma {:induction false} BodyAppend(a: seq<Message>, b: seq<Message>, cal: Calendar)
    ensures Body(a + b, cal) == Body(a, cal) + Body(b, cal)
    decreases |a|
  {
    if |a| == 0 {
      assert a + b == b;
    } else {
      assert (a + b)[1..] == a[1..] + b;
      BodyAppend(a[1..], b, cal);
    }
  }

  lemma BodyOfOne(m: Message, cal: Calendar)
    ensures Body([m], cal) == if m.role == System then "" else MessageBlock(m, cal)
  {
    assert [m][1..] == [];
  }

  /** The output always ends with the footer. */
  lemma EndsWithFooter(title: string, sessionId: string, ms: seq<Message>, createdAt: int,
                       duration: Option<int>, cal: Calendar)
    ensures EndsWith(JournalMarkdown(title, sessionId, ms, createdAt, duration, cal), Footer)
  {
    var s := JournalMarkdown(title, sessionId, ms, createdAt, duration, cal);
    assert s[|s| - |Footer|..] == Footer;
  }

  // ---------------------------------------------------------------------------
  // Parsing the frontmatter
  // ---------------------------------------------------------------------------

  /** The key and value of one frontmatter line, split at its first ": " and stripped;
      `None` for a line without ": ". */
  function LineEntry(line: string): Option<(string, string)> {
    match Find(line, ": ")
    case None => None
    case Some(i) => Some((Strip(line[..i]), Strip(line[i + 2..])))
  }

  /** The lines' entries read in order, a later key overwriting an earlier one. */
  function ParseLines(lines: seq<string>): map<string, string> {
    if |lines| == 0 then map[]
    else
      var m := ParseLines(lines[..|lines| - 1]);
      match LineEntry(lines[|lines| - 1])
      case None => m
      case Some(kv) => m[kv.0 := kv.1]
  }

  /** The text between the opening "---" and the next one (`content.split("---", 2)[1]`),
      or `None` when the content does not start with "---" or has no second one. */
  function FrontmatterSection(content: string): Option<string> {
    if !StartsWith(content, "---") then None
    else match Find(content[3..], "---")
      case None => None
      case Some(j) => Some(content[3..3 + j])
  }

  /** `parse_journal_markdown` as a value. */
  function ParsedFrontmatter(content: string): map<string, string> {
    match FrontmatterSection(content)
    case None => map[]
    case Some(f) => ParseLines(Split(Strip(f), "\n"))
  }

  /** One more line adds its entry, if it has one, over the earlier ones. */
  lemma ParseLinesStep(lines: seq<string>, i: nat)
    requires i < |lines|
    ensures ParseLines(lines[..i + 1]) == match LineEntry(lines[i])
                                         case None => ParseLines(lines[..i])
                                         case Some(kv) => ParseLines(lines[..i])[kv.0 := kv.1]
  {
    var p := lines[..i + 1];
    assert p[..|p| - 1] == lines[..i];
    assert p[|p| - 1] == lines[i];
  }

  /** `parse_journal_markdown`: the line loop filling the metadata dictionary. */
  method ParseJournalMarkdown(content: string) returns (metadata: map<string, string>)
    ensures metadata == ParsedFrontmatter(content)
  {
    metadata := map[];
    var text := FrontmatterSection(content);
    if text.None? {
      return;
    }
    var lines := Split(Strip(text.value), "\n");
    var i := 0;
    while i < |lines|
      invariant 0 <= i <= |lines|
      invariant metadata == ParseLines(lines[..i])
    {
      ParseLinesStep(lines, i);
      var line := lines[i];
      var at := Find(line, ": ");
      if at.Some? {
        var key := Strip(line[..at.value]);
        var value := Strip(line[at.value + 2..]);
        metadata := metadata[key := value];
      }
      i := i + 1;
    }
    assert lines[..i] == lines;
  }

  /** Content that does not open with "---", or has no closing "---", parses to nothing. */
  lemma NoFrontmatterNoMetadata(content: string)
    requires !StartsWith(content, "---") || !Contains(content[3..], "---")
    ensures ParsedFrontmatter(content) == map[]
  {
  }

  /** A key's value is the one on the last line carrying that key. */
  lemma {:induction false} LastLineWins(lines: seq<string>, i: nat, key: string, value: string)
    requires i < |lines| && LineEntry(lines[i]) == Some((key, value))
    requires forall j :: i < j < |lines| ==> LineEntry(lines[j]).None? || LineEntry(lines[j]).value.0 != key
    ensures key in ParseLines(lines) && ParseLines(lines)[key] == value
    decreases |lines|
  {
    if i < |lines| - 1 {
      var init := lines[..|lines| - 1];
      assert init[i] == lines[i];
      forall j | i < j < |init|
        ensures LineEntry(init[j]).None? || LineEntry(init[j]).value.0 != key
      {
        assert init[j] == lines[j];
      }
      LastLineWins(init, i, key, value);
    }
  }

  // ---------------------------------------------------------------------------
  // The frontmatter round trip
  // ---------------------------------------------------------------------------

  /** A field value that survives the frontmatter: one line, no "---", nothing for
      `strip` to remove. */
  predicate PlainField(s: string) {
    && '\n' !in s
    && !Contains(s, "---")
    && (|s| == 0 || (!IsSpace(s[0]) && !IsSpace(s[|s| - 1])))
  }

  /** No three consecutive '-' characters. */
  ghost predicate NoDashRun(s: string) {
    forall j: nat :: !OccursAt(s, "---", j)
  }

  lemma NoDashRunNotContains(s: string)
    requires NoDashRun(s)
    ensures !Contains(s, "---")
  {
  }

  lemma NotContainsNoDashRun(s: string)
    requires !Contains(s, "---")
    ensures NoDashRun(s)
  {
  }

  /** A string without '-' has no run of them. */
  lemma DashFree(s: string)
    requires '-' !in s
    ensures NoDashRun(s)
  {
    forall j: nat | j + 3 <= |s|
      ensures !OccursAt(s, "---", j)
    {
      assert s[j..j + 3][0] == s[j];
    }
  }

  /** Two run-free strings joined where one side of the seam is not '-' stay run-free. */
  lemma NoRunAppend(a: string, b: string)
    requires NoDashRun(a) && NoDashRun(b)
    requires |a| == 0 || |b| == 0 || a[|a| - 1] != '-' || b[0] != '-'
    ensures NoDashRun(a + b)
  {
    var s := a + b;
    forall j: nat | j + 3 <= |s|
      ensures !OccursAt(s, "---", j)
    {
      if j + 3 <= |a| {
        assert s[j..j + 3] == a[j..j + 3];
        assert !OccursAt(a, "---", j);
      } else if j >= |a| {
        assert s[j..j + 3] == b[j - |a|..j - |a| + 3];
        assert !OccursAt(b, "---", j - |a|);
      } else {
        assert s[j..j + 3][|a| - 1 - j] == a[|a| - 1];
        assert s[j..j + 3][|a| - j] == b[0];
      }
    }
  }

  /** A string shorter than the pattern holds no run. */
  lemma ShortNoRun(s: string)
    requires |s| < 3
    ensures NoDashRun(s)
  {
  }

  lemma IntTextNoRun(n: int)
    ensures NoDashRun(IntToString(n)) && '\n' !in IntToString(n)
  {
    var d := NatToString(if n < 0 then -n else n);
    assert forall i :: 0 <= i < |d| ==> IsDigit(d[i]);
    DashFree(d);
    if n < 0 {
      ShortNoRun("-");
      NoRunAppend("-", d);
    }
  }

  /** A line made of a key without '-' or newline and a single-line value without a run. */
  lemma LineNoRun(key: string, value: string)
    requires '-' !in key && '\n' !in key
    requires NoDashRun(value) && '\n' !in value
    ensures NoDashRun(key + value) && '\n' !in key + value
  {
    DashFree(key);
    NoRunAppend(key, value);
  }

  /** Lines without a run, joined at newlines, have none either. */
  lemma {:induction false} JoinNoRun(parts: seq<string>)
    requires forall i :: 0 <= i < |parts| ==> NoDashRun(parts[i])
    ensures NoDashRun(Join(parts, "\n"))
    decreases |parts|
  {
    if |parts| == 0 {
      ShortNoRun("");
    } else if |parts| >= 2 {
      var rest := parts[1..];
      assert forall i :: 0 <= i < |rest| ==> rest[i] == parts[i + 1];
      JoinNoRun(rest);
      ShortNoRun("\n");
      NoRunAppend(parts[0], "\n");
      NoRunAppend(parts[0] + "\n", Join(rest, "\n"));
    }
  }

  /** A join of non-empty parts starts with the first part's first character. */
  lemma JoinStart(parts: seq<string>, sep: string)
    requires |parts| >= 1 && |parts[0]| > 0
    ensures var j := Join(parts, sep); |j| > 0 && j[0] == parts[0][0]
  {
    if |parts| >= 2 {
      JoinTail(parts, sep);
    }
  }

  /** A join ends with the last part's last character. */
  lemma {:induction false} JoinEnd(parts: seq<string>, sep: string)
    requires |parts| >= 1 && |parts[|parts| - 1]| > 0
    ensures var j := Join(parts, sep); |j| > 0 && j[|j| - 1] == parts[|parts| - 1][|parts[|parts| - 1]| - 1]
    decreases |parts|
  {
    if |parts| >= 2 {
      var rest := parts[1..];
      assert rest[|rest| - 1] == parts[|parts| - 1];
      JoinEnd(rest, sep);
    }
  }

  /** Every line is single-line and free of runs of '-'. */
  ghost predicate CleanLines(lines: seq<string>) {
    forall i :: 0 <= i < |lines| ==> NoDashRun(lines[i]) && '\n' !in lines[i]
  }

  lemma CleanFour(a: string, b: string, c: string, d: string)
    requires CleanLines([a]) && CleanLines([b]) && CleanLines([c]) && CleanLines([d])
    ensures CleanLines([a, b, c, d])
  {
    assert [a][0] == a && [b][0] == b && [c][0] == c && [d][0] == d;
  }

  lemma CleanAppend(lines: seq<string>, l: string)
    requires CleanLines(lines) && CleanLines([l])
    ensures CleanLines(lines + [l])
  {
    assert [l][0] == l;
    forall i | 0 <= i < |lines + [l]|
      ensures NoDashRun((lines + [l])[i]) && '\n' !in (lines + [l])[i]
    {
      if i < |lines| {
        assert (lines + [l])[i] == lines[i];
      }
    }
  }

  /** A "key: value" line, as a one-line list, is clean. */
  lemma CleanLine(key: string, value: string)
    requires '-' !in key && '\n' !in key
    requires NoDashRun(value) && '\n' !in value
    ensures CleanLines([key + value])
  {
    LineNoRun(key, value);
  }

  lemma TitleLineClean(title: string)
    requires PlainField(title)
    ensures CleanLines(["title: " + title])
  {
    PlainNoRun(title);
    CleanLine("title: ", title);
  }

  lemma DateLineClean(date: string)
    requires PlainField(date)
    ensures CleanLines(["date: " + date])
  {
    PlainNoRun(date);
    CleanLine("date: ", date);
  }

  lemma SessionLineClean(sessionId: string)
    requires PlainField(sessionId)
    ensures CleanLines(["session_id: " + sessionId])
  {
    PlainNoRun(sessionId);
    CleanLine("session_id: ", sessionId);
  }

  lemma CountLineClean(count: nat)
    ensures var l := "message_count: " + NatToString(count);
            CleanLines([l]) && !IsSpace(l[|l| - 1])
  {
    var n := NatToString(count);
    assert forall i :: 0 <= i < |n| ==> IsDigit(n[i]);
    DashFree(n);
    CleanLine("message_count: ", n);
    var l := "message_count: " + n;
    assert l[|l| - 1] == n[|n| - 1];
  }

  lemma DurationLineClean(v: int)
    ensures var l := "duration: " + IntToString(v);
            CleanLines([l]) && !IsSpace(l[|l| - 1])
  {
    var d := IntToString(v);
    IntTextNoRun(v);
    CleanLine("duration: ", d);
    var l := "duration: " + d;
    assert l[|l| - 1] == d[|d| - 1];
  }

  /** The facts about the frontmatter lines that parsing relies on. */
  lemma FrontmatterLinesFacts(title: string, date: string, sessionId: string, count: nat, duration: Option<int>)
    requires PlainField(title) && PlainField(date) && PlainField(sessionId)
    ensures var lines := FrontmatterLines(title, date, sessionId, count, duration);
            && |lines| >= 4
            && CleanLines(lines)
            && |lines[0]| > 0 && lines[0][0] == 't'
            && |lines[|lines| - 1]| > 0 && !IsSpace(lines[|lines| - 1][|lines[|lines| - 1]| - 1])
  {
    var a, b, c, d := "title: " + title, "date: " + date, "session_id: " + sessionId, "message_count: " + NatToString(count);
    TitleLineClean(title);
    DateLineClean(date);
    SessionLineClean(sessionId);
    CountLineClean(count);
    CleanFour(a, b, c, d);
    if duration.Some? {
      DurationLineClean(duration.value);
      CleanAppend([a, b, c, d], "duration: " + IntToString(duration.value));
    }
  }

  /** A plain field holds no run of '-'. */
  lemma PlainNoRun(s: string)
    requires PlainField(s)
    ensures NoDashRun(s)
  {
    NotContainsNoDashRun(s);
  }

  /** The section between the first two "---" of a formatted journal is the framed
      frontmatter text, when that text holds no "---" itself. */
  lemma SectionOfJournal(j: string, header: string, body: string, footer: string)
    requires NoDashRun("\n" + j + "\n")
    ensures FrontmatterSection("---\n" + j + "\n---\n\n" + header + body + footer) == Some("\n" + j + "\n")
  {
    var content := "---\n" + j + "\n---\n\n" + header + body + footer;
    var framed := "\n" + j + "\n";
    var rest := "---\n\n" + (header + body + footer);
    FrameSplit(j, header, body, footer);
    CutAfter("---", framed, rest);
    NoDashRunNotContains(framed);
    NoOccurrenceBefore(framed, rest, "---");
    assert rest[..3] == "---";
    CutAfter(framed, "---", rest[3..]);
    assert rest == "---" + rest[3..];
    FindAt(framed + rest, "---", |framed|);
  }

  /** The frame of a journal: "---", the framed frontmatter text, then the rest. */
  lemma FrameSplit(j: string, header: string, body: string, footer: string)
    ensures "---\n" + j + "\n---\n\n" + header + body + footer
            == "---" + (("\n" + j + "\n") + ("---\n\n" + (header + body + footer)))
  {
    assert "---\n" == "---" + "\n";
    assert "\n---\n\n" == "\n" + "---\n\n";
  }

  /** Cutting `p + x + rest` after `p`, and after `p + x`. */
  lemma CutAfter(p: string, x: string, rest: string)
    ensures (p + (x + rest))[|p|..] == x + rest
    ensures (p + (x + rest))[|p|..|p| + |x|] == x
    ensures (p + (x + rest))[|p| + |x|..|p| + |x| + |rest|] == rest
  {
  }

  /** `Find` of ": " in "key: value" stops right after a key without ':'. */
  lemma KeyValueEntry(key: string, value: string)
    requires ':' !in key
    ensures LineEntry(key + ": " + value) == Some((Strip(key), Strip(value)))
  {
    var line := key + ": " + value;
    assert OccursAt(line, ": ", |key|) by {
      assert line[|key|..|key| + 2] == ": ";
    }
    forall j: nat | j < |key|
      ensures !OccursAt(line, ": ", j)
    {
      assert line[j] == key[j];
      if j + 2 <= |line| {
        assert line[j..j + 2][0] == key[j];
      }
    }
    FindAt(line, ": ", |key|);
    assert line[..|key|] == key;
    assert line[|key| + 2..] == value;
  }

  /** A "key: value" line with a plain key and value reads back as that pair. */
  lemma PlainEntry(key: string, value: string, line: string)
    requires line == key + ": " + value && ':' !in key
    requires |key| > 0 && !IsSpace(key[0]) && !IsSpace(key[|key| - 1])
    requires |value| == 0 || (!IsSpace(value[0]) && !IsSpace(value[|value| - 1]))
    ensures LineEntry(line) == Some((key, value))
  {
    KeyValueEntry(key, value);
    TrimIdentity(key, IsSpace);
    TrimIdentity(value, IsSpace);
  }

  lemma ParseFour(a: string, b: string, c: string, d: string, ka: string, va: string, kb: string, vb: string,
                  kc: string, vc: string, kd: string, vd: string)
    requires LineEntry(a) == Some((ka, va)) && LineEntry(b) == Some((kb, vb))
    requires LineEntry(c) == Some((kc, vc)) && LineEntry(d) == Some((kd, vd))
    ensures ParseLines([a, b, c, d]) == map[ka := va][kb := vb][kc := vc][kd := vd]
  {
    assert [a][..0] == [];
    assert ParseLines([a]) == map[ka := va];
    assert [a, b][..1] == [a];
    assert ParseLines([a, b]) == map[ka := va][kb := vb];
    assert [a, b, c][..2] == [a, b];
    assert ParseLines([a, b, c]) == map[ka := va][kb := vb][kc := vc];
    assert [a, b, c, d][..3] == [a, b, c];
  }

  lemma ParseFive(a: string, b: string, c: string, d: string, e: string, ka: string, va: string, kb: string, vb: string,
                  kc: string, vc: string, kd: string, vd: string, ke: string, ve: string)
    requires LineEntry(a) == Some((ka, va)) && LineEntry(b) == Some((kb, vb))
    requires LineEntry(c) == Some((kc, vc)) && LineEntry(d) == Some((kd, vd)) && LineEntry(e) == Some((ke, ve))
    ensures ParseLines([a, b, c, d, e]) == map[ka := va][kb := vb][kc := vc][kd := vd][ke := ve]
  {
    assert [a, b, c, d, e][..4] == [a, b, c, d];
    ParseFour(a, b, c, d, ka, va, kb, vb, kc, vc, kd, vd);
  }

  /** `strip` removes the newline framing of a text whose ends are not whitespace. */
  lemma StripFramed(j: string)
    requires |j| > 0 && !IsSpace(j[0]) && !IsSpace(j[|j| - 1])
    ensures Strip("\n" + j + "\n") == j
  {
    var s := "\n" + j + "\n";
    var t := j + "\n";
    assert s[1..] == t;
    assert t[0] == j[0];
    assert TrimLeft(s, IsSpace) == t;
    assert t[..|t| - 1] == j;
    assert TrimRight(j, IsSpace) == j;
    assert TrimRight(t, IsSpace) == j;
  }

  lemma TitleEntry(title: string)
    requires PlainField(title)
    ensures LineEntry("title: " + title) == Some(("title", title))
  {
    PlainEntry("title", title, "title: " + title);
  }

  lemma DateEntry(date: string)
    requires PlainField(date)
    ensures LineEntry("date: " + date) == Some(("date", date))
  {
    PlainEntry("date", date, "date: " + date);
  }

  lemma SessionEntry(sessionId: string)
    requires PlainField(sessionId)
    ensures LineEntry("session_id: " + sessionId) == Some(("session_id", sessionId))
  {
    PlainEntry("session_id", sessionId, "session_id: " + sessionId);
  }

  lemma CountEntry(count: nat)
    ensures LineEntry("message_count: " + NatToString(count)) == Some(("message_count", NatToString(count)))
  {
    var n := NatToString(count);
    assert !IsSpace(n[0]) && !IsSpace(n[|n| - 1]);
    PlainEntry("message_count", n, "message_count: " + n);
  }

  lemma DurationEntry(v: int)
    ensures LineEntry("duration: " + IntToString(v)) == Some(("duration", IntToString(v)))
  {
    PlainEntry("duration", IntToString(v), "duration: " + IntToString(v));
  }

  /** The map the frontmatter lines parse to: every key with its value, and "duration"
      exactly when a duration is given. */
  ghost predicate HoldsFields(md: map<string, string>, title: string, date: string, sessionId: string, count: nat,
                              duration: Option<int>) {
    && "title" in md && md["title"] == title
    && "date" in md && md["date"] == date
    && "session_id" in md && md["session_id"] == sessionId
    && "message_count" in md && md["message_count"] == NatToString(count)
    && ("duration" in md <==> duration.Some?)
    && (duration.Some? ==> md["duration"] == IntToString(duration.value))
  }

  /** The four fixed lines parse to their four fields. */
  lemma FixedLinesParse(title: string, date: string, sessionId: string, count: nat)
    requires PlainField(title) && PlainField(date) && PlainField(sessionId)
    ensures var lines := ["title: " + title, "date: " + date, "session_id: " + sessionId, "message_count: " + NatToString(count)];
            ParseLines(lines) == map["title" := title]["date" := date]["session_id" := sessionId]["message_count" := NatToString(count)]
  {
    var n := NatToString(count);
    TitleEntry(title);
    DateEntry(date);
    SessionEntry(sessionId);
    CountEntry(count);
    ParseFour("title: " + title, "date: " + date, "session_id: " + sessionId, "message_count: " + n,
              "title", title, "date", date, "session_id", sessionId, "message_count", n);
  }

  lemma FieldsOfMap(title: string, date: string, sessionId: string, count: nat, duration: Option<int>)
    ensures var m := map["title" := title]["date" := date]["session_id" := sessionId]["message_count" := NatToString(count)];
            HoldsFields(if duration.Some? then m["duration" := IntToString(duration.value)] else m,
                        title, date, sessionId, count, duration)
  {
  }

  lemma LinesParse(title: string, date: string, sessionId: string, count: nat, duration: Option<int>)
    requires PlainField(title) && PlainField(date) && PlainField(sessionId)
    ensures HoldsFields(ParseLines(FrontmatterLines(title, date, sessionId, count, duration)), title, date, sessionId, count, duration)
  {
    var fixed := ["title: " + title, "date: " + date, "session_id: " + sessionId, "message_count: " + NatToString(count)];
    var m := map["title" := title]["date" := date]["session_id" := sessionId]["message_count" := NatToString(count)];
    FixedLinesParse(title, date, sessionId, count);
    FieldsOfMap(title, date, sessionId, count, duration);
    if duration.Some? {
      var e := "duration: " + IntToString(duration.value);
      DurationEntry(duration.value);
      assert (fixed + [e])[..4] == fixed;
      assert ParseLines(fixed + [e]) == m["duration" := IntToString(duration.value)];
    }
  }

  /** Parsing the formatted journal gives back the title, the date line, the session id and
      the message count (of all messages), and the duration exactly when one was given,
      provided the title, session id and date line are plain single-line values. */
  lemma FrontmatterRoundTrip(title: string, sessionId: string, ms: seq<Message>, createdAt: int,
                             duration: Option<int>, cal: Calendar)
    requires PlainField(title) && PlainField(sessionId) && PlainField(cal.stamp(createdAt))
    ensures HoldsFields(ParsedFrontmatter(JournalMarkdown(title, sessionId, ms, createdAt, duration, cal)),
                        title, cal.stamp(createdAt), sessionId, |ms|, duration)
  {
    var date := cal.stamp(createdAt);
    var lines := FrontmatterLines(title, date, sessionId, |ms|, duration);
    var j := Join(lines, "\n");
    FrontmatterLinesFacts(title, date, sessionId, |ms|, duration);
    JoinNoRun(lines);
    ShortNoRun("\n");
    NoRunAppend("\n", j);
    NoRunAppend("\n" + j, "\n");
    SectionOfJournal(j, Header(title, cal.longDate(createdAt), duration), Body(ms, cal), Footer);
    JoinStart(lines, "\n");
    JoinEnd(lines, "\n");
    StripFramed(j);
    SplitJoin(lines, '\n');
    LinesParse(title, date, sessionId, |ms|, duration);
  }
}
