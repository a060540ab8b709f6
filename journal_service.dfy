/** backend/app/services/journal_service.py: saving, listing, reading and deleting journals
    over the markdown file store (the source of truth) and the vector collection (the
    search index). */
module JournalService {
  import opened Wrappers
  import opened Strings
  import opened Models
  import opened MarkdownFormatter
  import opened FileStorage
  import opened VectorStorage
  import opened RagService
  import opened LlmService
  import opened JournalMessages

  const Untitled := "Untitled"
  const UtcSuffix := " UTC"
  /** How many leading messages the title preview uses ("first 2 exchanges"). */
  const PreviewCount: nat := 4
  /** What a `ValueError` from reading a date or a number becomes: the router answers it
      with status 500. */
  const InvalidMetadata := StorageError("Invalid journal metadata")

  // ---------------------------------------------------------------------------
  // Dates
  // ---------------------------------------------------------------------------

  /** The date text with a trailing " UTC" removed. */
  function StripUtc(s: string): (r: string)
    ensures EndsWith(s, UtcSuffix) ==> r + UtcSuffix == s
    ensures !EndsWith(s, UtcSuffix) ==> r == s
  {
    if EndsWith(s, UtcSuffix) then s[..|s| - |UtcSuffix|] else s
  }

  /** `_parse_datetime`: `fromisoformat` of the text without " UTC"; `None` where Python
      raises `ValueError`. */
  function ParseDatetime(s: string, cal: Calendar): Option<int> {
    cal.fromIso(StripUtc(s))
  }

  lemma StripUtcSuffix(x: string)
    ensures StripUtc(x + UtcSuffix) == x
  {
    var s := x + UtcSuffix;
    assert s[|s| - |UtcSuffix|..] == UtcSuffix;
  }

  /** The calendar reads the frontmatter date it writes back as the same instant. */
  ghost predicate DatesReadBack(cal: Calendar, t: int) {
    ParseDatetime(cal.stamp(t), cal) == Some(t)
  }

  // ---------------------------------------------------------------------------
  // Conversation facts
  // ---------------------------------------------------------------------------

  /** When the conversation started: its first message, or now for an empty one. */
  function CreatedAt(ms: seq<Message>, now: int): int {
    if |ms| > 0 then ms[0].timestamp else now
  }

  /** Seconds from the first message to the last, for two messages or more. Timestamps
      are whole seconds, so `int(total_seconds())` is exact. */
  function DurationOf(ms: seq<Message>): (d: Option<int>)
    ensures d.Some? <==> |ms| >= 2
    ensures d.Some? ==> ms[0].timestamp + d.value == ms[|ms| - 1].timestamp
  {
    if |ms| >= 2 then Some(ms[|ms| - 1].timestamp - ms[0].timestamp) else None
  }

  // ---------------------------------------------------------------------------
  // Titles (_generate_title)
  // ---------------------------------------------------------------------------

  function PreviewLine(m: Message): string {
    SpeakerLabel(m.role) + ": " + m.content + "\n"
  }

  /** The preview lines of `ms`, in order. */
  function PreviewOf(ms: seq<Message>): string {
    if |ms| == 0 then "" else PreviewLine(ms[0]) + PreviewOf(ms[1..])
  }

  /** The preview handed to the model: the lines of the first four messages. */
  function Preview(ms: seq<Message>): string {
    PreviewOf(Slice(ms, 0, PreviewCount))
  }

  lemma {:induction false} PreviewOfAppend(a: seq<Message>, b: seq<Message>)
    ensures PreviewOf(a + b) == PreviewOf(a) + PreviewOf(b)
    decreases |a|
  {
    if |a| == 0 {
      assert a + b == b;
    } else {
      assert (a + b)[1..] == a[1..] + b;
      PreviewOfAppend(a[1..], b);
    }
  }

  /** The title of a new journal: the model's title for the preview, which is never a
      failure. */
  function JournalTitle(ms: seq<Message>, model: string -> Result<Option<string>, Error>): string {
    GenerateTitle(Preview(ms), DefaultTitleLength, model)
  }

  /** `_generate_title`: builds the preview line by line, then asks for a title of at
      most 50 characters. */
  method GenerateJournalTitle(messages: seq<Message>, model: string -> Result<Option<string>, Error>)
    returns (title: string)
    ensures title == JournalTitle(messages, model)
  {
    var first := Slice(messages, 0, PreviewCount);
    var preview := "";
    var i := 0;
    while i < |first|
      invariant 0 <= i <= |first|
      invariant preview == PreviewOf(first[..i])
    {
      PreviewOfAppend(first[..i], [first[i]]);
      assert first[..i + 1] == first[..i] + [first[i]];
      assert PreviewOf([first[i]]) == PreviewLine(first[i]);
      preview := preview + (SpeakerLabel(first[i].role) + ": " + first[i].content + "\n");
      i := i + 1;
    }
    assert first[..i] == first;
    title := GenerateTitle(preview, DefaultTitleLength, model);
  }

  /** Only the first four messages reach the model: later messages change nothing. */
  lemma PreviewIgnoresLater(a: seq<Message>, b: seq<Message>)
    requires |a| >= PreviewCount
    ensures Preview(a + b) == Preview(a)
  {
    assert (a + b)[0..PreviewCount] == a[0..PreviewCount];
  }

  /** A short conversation is previewed whole, its first message first. */
  lemma PreviewOfShort(ms: seq<Message>)
    requires 0 < |ms| <= PreviewCount
    ensures Preview(ms) == PreviewOf(ms)
    ensures StartsWith(Preview(ms), SpeakerLabel(ms[0].role) + ": " + ms[0].content + "\n")
  {
    assert ms[0..|ms|] == ms;
    var rest := PreviewOf(ms[1..]);
    assert Preview(ms) == PreviewLine(ms[0]) + rest;
  }

  /** A failing model gives the fallback title. */
  lemma FailedModelTitle(ms: seq<Message>, model: string -> Result<Option<string>, Error>)
    requires model(TitlePrompt(Preview(ms), DefaultTitleLength)).Failure?
    ensures JournalTitle(ms, model) == FailedTitle
  {
    GenerateTitleFallback(Preview(ms), DefaultTitleLength, model);
  }

  /** The title `save_journal` writes: the given one; else a generated one for a new
      journal; else the existing file's title ("Untitled" when it has none), the update
      failing when the file does not exist. */
  function ChosenTitle(stored: map<string, string>, journalId: Option<string>, title: Option<string>,
                       ms: seq<Message>, model: string -> Result<Option<string>, Error>): (r: Result<string, Error>)
    ensures r.Failure? <==> title.None? && journalId.Some? && journalId.value !in stored
    ensures r.Failure? ==> r.error == JournalNotFound(journalId.value)
  {
    if title.Some? then Success(title.value)
    else if journalId.None? then Success(JournalTitle(ms, model))
    else if journalId.value in stored then Success(Get(ParsedFrontmatter(stored[journalId.value]), "title", Untitled))
    else Failure(JournalNotFound(journalId.value))
  }

  // ---------------------------------------------------------------------------
  // Reading frontmatter values
  // ---------------------------------------------------------------------------

  /** `d.get(key, default)`. */
  function Get(md: map<string, string>, key: string, default: string): (v: string)
    ensures key in md ==> v == md[key]
    ensures key !in md ==> v == default
  {
    if key in md then md[key] else default
  }

  /** The frontmatter date, or now when there is none; `None` when it does not parse. */
  function DateField(md: map<string, string>, now: int, cal: Calendar): Option<int> {
    ParseDatetime(Get(md, "date", cal.iso(now)), cal)
  }

  /** `int(md.get('message_count', 0))`: 0 when absent, `None` when it does not parse. */
  function CountField(md: map<string, string>): (c: Option<int>)
    ensures "message_count" !in md ==> c == Some(0)
  {
    if "message_count" in md then ParseInt(md["message_count"]) else Some(0)
  }

  /** `int(md.get('duration')) if md.get('duration') else None`: no duration when the
      value is absent or empty; a failure when it does not parse. */
  function DurationField(md: map<string, string>): (r: Result<Option<int>, Error>)
    ensures ("duration" !in md || md["duration"] == "") ==> r == Success(None)
    ensures r.Failure? ==> r.error == InvalidMetadata
  {
    if "duration" in md && md["duration"] != "" then
      match ParseInt(md["duration"])
      case None => Failure(InvalidMetadata)
      case Some(d) => Success(Some(d))
    else Success(None)
  }

  /** The listing entry of one file; `None` for a file whose metadata does not parse,
      which `list_journals` skips. */
  function EntryFrom(name: string, md: map<string, string>, now: int, cal: Calendar): (e: Option<JournalMetadata>)
    ensures e.Some? <==> DateField(md, now, cal).Some? && CountField(md).Some? && DurationField(md).Success?
    ensures e.Some? ==> e.value.id == name && e.value.filename == name && e.value.title == Get(md, "title", Untitled)
                        && e.value.mode.None?
  {
    match (DateField(md, now, cal), CountField(md), DurationField(md))
    case (Some(date), Some(count), Success(duration)) =>
      Some(JournalMetadata(name, name, Get(md, "title", Untitled), date, count, duration, None))
    case _ => None
  }

  /** The entry of one name: `None` for a file that is missing or whose metadata does not parse. */
  function EntryAt(name: string, stored: map<string, string>, now: int, cal: Calendar): (e: Option<JournalMetadata>)
    ensures e.Some? ==> name in stored && e.value.id == name && e.value.filename == name
  {
    if name in stored then EntryFrom(name, ParsedFrontmatter(stored[name]), now, cal) else None
  }

  function Listed<T>(e: Option<T>): seq<T> {
    if e.Some? then [e.value] else []
  }

  /** The entries of the named files that exist and parse, in order. */
  function Entries(names: seq<string>, stored: map<string, string>, now: int, cal: Calendar): (r: seq<JournalMetadata>)
    ensures |r| <= |names|
    ensures forall k :: 0 <= k < |r| ==> r[k].id in names && r[k].id in stored && r[k].filename == r[k].id
  {
    if |names| == 0 then []
    else
      var rest := Entries(names[1..], stored, now, cal);
      assert forall k :: 0 <= k < |rest| ==> rest[k].id in names;
      Listed(EntryAt(names[0], stored, now, cal)) + rest
  }

  /** One more name adds its entry, if any, at the end. */
  lemma EntriesSnoc(names: seq<string>, i: nat, stored: map<string, string>, now: int, cal: Calendar)
    requires i < |names|
    ensures Entries(names[..i + 1], stored, now, cal) == Entries(names[..i], stored, now, cal) + Listed(EntryAt(names[i], stored, now, cal))
  {
    assert names[..i + 1] == names[..i] + [names[i]];
    EntriesAppend(names[..i], [names[i]], stored, now, cal);
    assert Entries([names[i]], stored, now, cal) == Listed(EntryAt(names[i], stored, now, cal)) + [];
  }

  lemma {:induction false} EntriesAppend(a: seq<string>, b: seq<string>, stored: map<string, string>, now: int, cal: Calendar)
    ensures Entries(a + b, stored, now, cal) == Entries(a, stored, now, cal) + Entries(b, stored, now, cal)
    decreases |a|
  {
    if |a| == 0 {
      assert a + b == b;
    } else {
      var ab := a + b;
      assert ab[0] == a[0];
      assert ab[1..] == a[1..] + b;
      EntriesAppend(a[1..], b, stored, now, cal);
      SeqAssoc(Listed(EntryAt(a[0], stored, now, cal)), Entries(a[1..], stored, now, cal), Entries(b, stored, now, cal));
    }
  }

  /** Every document of `before` is in `after`, unchanged. */
  ghost predicate Kept(before: map<string, Entry>, after: map<string, Entry>) {
    forall k :: k in before ==> k in after && after[k] == before[k]
  }

  /** The vector filter naming one session. */
  function SessionFilter(sessionId: string): Metadata {
    map["session_id" := Str(sessionId)]
  }

  /** The collection without the documents of a session. */
  function Unindexed(docs: map<string, Entry>, sessionId: string): (r: map<string, Entry>)
    ensures forall k :: k in r <==> k in docs && !Matches(docs[k].metadata, SessionFilter(sessionId))
    ensures forall k :: k in r ==> r[k] == docs[k]
  {
    map k | k in docs && !Matches(docs[k].metadata, SessionFilter(sessionId)) :: docs[k]
  }

  /** The session a journal file names, when it names a non-empty one. */
  function SessionOf(content: string): (s: Option<string>)
    ensures s.Some? ==> s.value != ""
  {
    var md := ParsedFrontmatter(content);
    if "session_id" in md && md["session_id"] != "" then Some(md["session_id"]) else None
  }

  /** What `get_journal` builds from a file: its frontmatter values and its parsed
      messages, or a failure when the date or the duration does not parse. */
  function JournalOf(name: string, content: string, now: int, ids: nat -> string, cal: Calendar): (r: Result<Journal, Error>)
    ensures r.Failure? ==> r.error == InvalidMetadata
    ensures r.Success? ==> r.value.rawContent == content && r.value.meta.id == name && r.value.meta.filename == name
                           && r.value.meta.messageCount == |r.value.messages|
  {
    var md := ParsedFrontmatter(content);
    var ms := ParseMessages(content, now, ids);
    match DateField(md, now, cal)
    case None => Failure(InvalidMetadata)
    case Some(date) =>
      match DurationField(md)
      case Failure(e) => Failure(e)
      case Success(d) => Success(Journal(JournalMetadata(name, name, Get(md, "title", Untitled), date, |ms|, d, None), ms, content))
  }

  // ---------------------------------------------------------------------------
  // The service
  // ---------------------------------------------------------------------------

  class JournalService {
    const files: FileStore
    const vectors: VectorCollection

    constructor (files: FileStore, vectors: VectorCollection)
      ensures this.files == files && this.vectors == vectors
    {
      this.files := files;
      this.vectors := vectors;
    }

    /** `save_journal`: picks the title, writes the markdown file, then indexes the
        conversation, an indexing failure being swallowed. Only an update of a missing
        journal without a title fails, and then nothing changes. Entries already in the
        collection are never lost. */
    method SaveJournal(sessionId: string, messages: seq<Message>, journalId: Option<string>, title: Option<string>,
                       now: int, cal: Calendar, model: string -> Result<Option<string>, Error>,
                       hex: nat -> string, embed: seq<string> -> Result<seq<seq<real>>, Error>)
      returns (r: Result<JournalMetadata, Error>)
      requires files.Valid()
      modifies files, vectors
      ensures files.Valid()
      ensures r.Failure? == ChosenTitle(old(files.files), journalId, title, messages, model).Failure?
      ensures r.Failure? ==> r.error == ChosenTitle(old(files.files), journalId, title, messages, model).error
                             && files.files == old(files.files) && files.byAge == old(files.byAge)
                             && vectors.docs == old(vectors.docs)
      ensures r.Success? ==>
                var t := ChosenTitle(old(files.files), journalId, title, messages, model).value;
                var created := CreatedAt(messages, now);
                var name := FileStore.TargetName(t, created, journalId, cal);
                && r.value == JournalMetadata(name, name, t, created, |messages|, DurationOf(messages), None)
                && files.files == old(files.files)[name := JournalMarkdown(t, sessionId, messages, created, DurationOf(messages), cal)]
                && files.byAge == [name] + Without(old(files.byAge), name)
      ensures Kept(old(vectors.docs), vectors.docs)
    {
      var chosen := ChooseTitle(journalId, title, messages, model);
      if chosen.Failure? {
        return Failure(chosen.error);
      }
      var created := CreatedAt(messages, now);
      var duration := DurationOf(messages);
      var name := WriteJournal(chosen.value, sessionId, messages, created, duration, journalId, cal);
      IndexJournal(messages, sessionId, created, chosen.value, name, cal, hex, embed);
      return Success(JournalMetadata(name, name, chosen.value, created, |messages|, duration, None));
    }

    /** The file step of `save_journal`: formats the journal and writes it. */
    method WriteJournal(title: string, sessionId: string, messages: seq<Message>, created: int,
                        duration: Option<int>, journalId: Option<string>, cal: Calendar) returns (name: string)
      requires files.Valid()
      modifies files
      ensures files.Valid()
      ensures name == FileStore.TargetName(title, created, journalId, cal)
      ensures files.files == old(files.files)[name := JournalMarkdown(title, sessionId, messages, created, duration, cal)]
      ensures files.byAge == [name] + Without(old(files.byAge), name)
    {
      var content := FormatJournalMarkdown(title, sessionId, messages, created, duration, cal);
      name := files.SaveJournal(content, title, created, journalId, cal);
    }

    /** The index step of `save_journal`: the chunks go in with the journal's date, title
        and file name; nothing already in the collection is lost. */
    method IndexJournal(messages: seq<Message>, sessionId: string, created: int, title: string, name: string,
                        cal: Calendar, hex: nat -> string, embed: seq<string> -> Result<seq<seq<real>>, Error>)
      modifies vectors
      ensures Kept(old(vectors.docs), vectors.docs)
    {
      var md := map["date" := Str(cal.iso(created)), "title" := Str(title), "filename" := Str(name)];
      var _ := IndexConversation(vectors, messages, sessionId, md, hex, embed);
    }

    /** The title step of `save_journal`: reads the existing file only when updating
        without a title. */
    method ChooseTitle(journalId: Option<string>, title: Option<string>, messages: seq<Message>,
                       model: string -> Result<Option<string>, Error>) returns (r: Result<string, Error>)
      ensures r == ChosenTitle(files.files, journalId, title, messages, model)
    {
      if title.Some? {
        return Success(title.value);
      }
      if journalId.None? {
        var generated := GenerateJournalTitle(messages, model);
        return Success(generated);
      }
      var existing := files.GetJournal(journalId.value);
      if existing.Failure? {
        return Failure(existing.error);
      }
      var md := ParseJournalMarkdown(existing.value);
      return Success(Get(md, "title", Untitled));
    }

    /** `list_journals`: the total number of markdown files and the entries of the
        requested window of them, newest first, skipping files whose metadata does not
        parse. */
    method ListJournals(limit: nat, offset: nat, now: int, cal: Calendar) returns (page: seq<JournalMetadata>, total: nat)
      requires files.Valid()
      ensures total == |files.ListJournals()|
      ensures page == Entries(Slice(files.ListJournals(), offset, offset + limit), files.files, now, cal)
      ensures |page| <= limit
      ensures forall k :: 0 <= k < |page| ==> page[k].id in files.files && EndsWith(page[k].id, ".md")
    {
      var names := files.ListJournals();
      total := |names|;
      var window := Slice(names, offset, offset + limit);
      page := [];
      var i := 0;
      while i < |window|
        invariant 0 <= i <= |window|
        invariant page == Entries(window[..i], files.files, now, cal)
      {
        var entry := ReadEntry(window[i], now, cal);
        EntriesSnoc(window, i, files.files, now, cal);
        if entry.Some? {
          page := page + [entry.value];
        }
        i := i + 1;
      }
      assert window[..i] == window;
      EntriesOfSlice(names, offset, offset + limit, files.files, now, cal);
    }

    /** One step of `list_journals`: the entry of a file, or `None` for one that is
        missing or whose metadata does not parse. */
    method ReadEntry(name: string, now: int, cal: Calendar) returns (entry: Option<JournalMetadata>)
      ensures entry == EntryAt(name, files.files, now, cal)
    {
      var content := files.GetJournal(name);
      if content.Failure? {
        return None;
      }
      var md := ParseJournalMarkdown(content.value);
      entry := EntryFrom(name, md, now, cal);
    }

    /** `get_journal`: a missing file is not-found; otherwise the journal read from it. */
    method GetJournal(journalId: string, now: int, ids: nat -> string, cal: Calendar) returns (r: Result<Journal, Error>)
      ensures journalId !in files.files ==> r == Failure(JournalNotFound(journalId))
      ensures journalId in files.files ==> r == JournalOf(journalId, files.files[journalId], now, ids, cal)
    {
      var content := files.GetJournal(journalId);
      if content.Failure? {
        return Failure(content.error);
      }
      var md := ParseJournalMarkdown(content.value);
      var messages := ParseMessagesFromMarkdown(content.value, now, ids);
      var date := DateField(md, now, cal);
      if date.None? {
        return Failure(InvalidMetadata);
      }
      var duration := DurationField(md);
      if duration.Failure? {
        return Failure(duration.error);
      }
      return Success(Journal(JournalMetadata(journalId, journalId, Get(md, "title", Untitled), date.value, |messages|,
                                             duration.value, None), messages, content.value));
    }

    /** `delete_journal`: a missing file is not-found and nothing changes. Otherwise the
        file goes, and then the session's documents in the collection, unless the file
        names no session or the collection fails (`vectorFails`), which is swallowed. */
    method DeleteJournal(journalId: string, vectorFails: bool) returns (o: Outcome<Error>)
      requires files.Valid()
      modifies files, vectors
      ensures files.Valid()
      ensures o.Fail? <==> journalId !in old(files.files)
      ensures o.Fail? ==> o.error == JournalNotFound(journalId) && files.files == old(files.files)
                          && files.byAge == old(files.byAge) && vectors.docs == old(vectors.docs)
      ensures o.Pass? ==> files.files == old(files.files) - {journalId} && files.byAge == Without(old(files.byAge), journalId)
      ensures o.Pass? ==> var session := SessionOf(old(files.files)[journalId]);
                          vectors.docs == if session.Some? && !vectorFails then Unindexed(old(vectors.docs), session.value)
                                          else old(vectors.docs)
    {
      var content := files.GetJournal(journalId);
      if content.Failure? {
        return Fail(content.error);
      }
      var md := ParseJournalMarkdown(content.value);
      var session: Option<string> := if "session_id" in md then Some(md["session_id"]) else None;
      var _ := files.DeleteJournal(journalId);
      if session.Some? && session.value != "" && !vectorFails {
        var _ := vectors.DeleteByMetadata(SessionFilter(session.value));
      }
      return Pass;
    }
  }

  /** The entries of a window of names are entries of names in the window's source. */
  lemma EntriesOfSlice(names: seq<string>, lo: nat, hi: nat, stored: map<string, string>, now: int, cal: Calendar)
    ensures var page := Entries(Slice(names, lo, hi), stored, now, cal);
            forall k :: 0 <= k < |page| ==> page[k].id in names && page[k].id in stored
  {
    var window := Slice(names, lo, hi);
    var page := Entries(window, stored, now, cal);
    forall k | 0 <= k < |page|
      ensures page[k].id in names
    {
      var i :| 0 <= i < |window| && window[i] == page[k].id;
      assert names[lo + i] == window[i];
    }
  }

  // ---------------------------------------------------------------------------
  // Properties across operations
  // ---------------------------------------------------------------------------

  /** What makes a journal file read back as written: single-line frontmatter values
      without "---" or '#' and with no outer spaces, single-line messages, and a calendar
      that reads its own date stamp back. */
  ghost predicate Readable(title: string, sessionId: string, ms: seq<Message>, createdAt: int, cal: Calendar) {
    && PlainField(title) && PlainField(sessionId) && PlainField(cal.stamp(createdAt))
    && '#' !in title && '#' !in sessionId && '#' !in cal.stamp(createdAt) && '#' !in cal.longDate(createdAt)
    && AllTranscribable(ms, cal)
    && DatesReadBack(cal, createdAt)
  }

  lemma FieldsOfSaved(title: string, sessionId: string, ms: seq<Message>, createdAt: int, duration: Option<int>, cal: Calendar)
    requires PlainField(title) && PlainField(sessionId) && PlainField(cal.stamp(createdAt)) && DatesReadBack(cal, createdAt)
    ensures var md := ParsedFrontmatter(JournalMarkdown(title, sessionId, ms, createdAt, duration, cal));
            && Get(md, "title", Untitled) == title
            && (forall now :: DateField(md, now, cal) == Some(createdAt))
            && CountField(md) == Some(|ms|)
            && DurationField(md) == Success(duration)
            && Get(md, "session_id", "") == sessionId
  {
    FrontmatterRoundTrip(title, sessionId, ms, createdAt, duration, cal);
    ParseIntOfIntToString(|ms|);
    if duration.Some? {
      ParseIntOfIntToString(duration.value);
    }
  }

  /** The listing shows a saved journal with exactly the metadata `save_journal`
      returned for it. */
  lemma ListedAsSaved(name: string, title: string, sessionId: string, ms: seq<Message>, now: int, cal: Calendar)
    requires PlainField(title) && PlainField(sessionId) && PlainField(cal.stamp(CreatedAt(ms, now)))
    requires DatesReadBack(cal, CreatedAt(ms, now))
    ensures forall later :: EntryFrom(name, ParsedFrontmatter(JournalMarkdown(title, sessionId, ms, CreatedAt(ms, now), DurationOf(ms), cal)), later, cal)
                            == Some(JournalMetadata(name, name, title, CreatedAt(ms, now), |ms|, DurationOf(ms), None))
  {
    FieldsOfSaved(title, sessionId, ms, CreatedAt(ms, now), DurationOf(ms), cal);
  }

  /** `|Turns(ms)| == |ms|` when no message is a system message. */
  lemma {:induction false} TurnsOfSpoken(ms: seq<Message>)
    requires forall k :: 0 <= k < |ms| ==> ms[k].role != System
    ensures |Turns(ms)| == |ms|
    decreases |ms|
  {
    if |ms| > 0 {
      assert forall k :: 0 <= k < |ms[1..]| ==> ms[1..][k] == ms[k + 1];
      TurnsOfSpoken(ms[1..]);
    }
  }

  /** Reading a saved journal back gives its title, start and duration, its user and
      assistant turns in order, and a count of those turns (system messages are written
      to the count in the frontmatter but not to the body). */
  lemma SavedJournalReadsBack(name: string, title: string, sessionId: string, ms: seq<Message>, createdAt: int,
                              duration: Option<int>, cal: Calendar, now: int, ids: nat -> string)
    requires Readable(title, sessionId, ms, createdAt, cal)
    ensures var r := JournalOf(name, JournalMarkdown(title, sessionId, ms, createdAt, duration, cal), now, ids, cal);
            && r.Success?
            && r.value.meta.title == title && r.value.meta.date == createdAt && r.value.meta.durationSeconds == duration
            && Turns(r.value.messages) == Turns(ms)
            && r.value.meta.messageCount == |Turns(ms)|
  {
    var content := JournalMarkdown(title, sessionId, ms, createdAt, duration, cal);
    FieldsOfSaved(title, sessionId, ms, createdAt, duration, cal);
    MessagesRoundTrip(title, sessionId, ms, createdAt, duration, cal, now, ids);
    ParsedMessagesProper(content, now, ids);
    TurnsOfSpoken(ParseMessages(content, now, ids));
  }

  /** Updating a journal without a title keeps the title its file holds. */
  lemma UpdateKeepsTitle(stored: map<string, string>, journalId: string, title: string, sessionId: string,
                         old_ms: seq<Message>, createdAt: int, duration: Option<int>, cal: Calendar,
                         ms: seq<Message>, model: string -> Result<Option<string>, Error>)
    requires journalId in stored && stored[journalId] == JournalMarkdown(title, sessionId, old_ms, createdAt, duration, cal)
    requires PlainField(title) && PlainField(sessionId) && PlainField(cal.stamp(createdAt))
    ensures ChosenTitle(stored, Some(journalId), None, ms, model) == Success(title)
  {
    FrontmatterRoundTrip(title, sessionId, old_ms, createdAt, duration, cal);
  }

  /** A new journal always gets a title: the model's, or the fallback when the model
      fails. */
  lemma NewJournalTitled(stored: map<string, string>, ms: seq<Message>, model: string -> Result<Option<string>, Error>)
    ensures ChosenTitle(stored, None, None, ms, model).Success?
    ensures model(TitlePrompt(Preview(ms), DefaultTitleLength)).Failure? ==>
              ChosenTitle(stored, None, None, ms, model) == Success(FailedTitle)
  {
    if model(TitlePrompt(Preview(ms), DefaultTitleLength)).Failure? {
      FailedModelTitle(ms, model);
    }
  }

  /** Deleting a journal removes every chunk its save indexed: the chunk metadata names
      the session the file names. */
  lemma DeleteRemovesIndexedChunks(docs: map<string, Entry>, md: Metadata, sessionId: string, i: nat,
                                   messageIds: seq<string>, k: string)
    requires k in docs && docs[k].metadata == ConversationChunkMetadata(md, sessionId, i, messageIds)
    ensures k !in Unindexed(docs, sessionId)
  {
    ChunkMetadataOverridesCaller(md, sessionId, i, messageIds, "session_id");
    assert Matches(docs[k].metadata, SessionFilter(sessionId));
  }

  /** The file a journal was saved to names its session, so deleting it searches the
      collection for that session. */
  lemma SavedSessionNamed(title: string, sessionId: string, ms: seq<Message>, createdAt: int, duration: Option<int>,
                          cal: Calendar)
    requires PlainField(title) && PlainField(sessionId) && PlainField(cal.stamp(createdAt)) && sessionId != ""
    ensures SessionOf(JournalMarkdown(title, sessionId, ms, createdAt, duration, cal)) == Some(sessionId)
  {
    FrontmatterRoundTrip(title, sessionId, ms, createdAt, duration, cal);
  }

  /** The newest file opens the first page, when its metadata parses. */
  lemma NewestFirst(name: string, older: seq<string>, stored: map<string, string>, limit: nat, now: int, cal: Calendar)
    requires EndsWith(name, ".md") && name in stored && limit >= 1
    requires EntryFrom(name, ParsedFrontmatter(stored[name]), now, cal).Some?
    ensures var page := Entries(Slice(MarkdownNames([name] + older), 0, limit), stored, now, cal);
            |page| >= 1 && page[0] == EntryFrom(name, ParsedFrontmatter(stored[name]), now, cal).value
  {
    var names := MarkdownNames([name] + older);
    assert ([name] + older)[1..] == older;
    assert names == [name] + MarkdownNames(older);
    var window := Slice(names, 0, limit);
    assert window == [name] + window[1..];
    EntriesAppend([name], window[1..], stored, now, cal);
  }
}
