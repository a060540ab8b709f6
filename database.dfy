/** The SQLite journal store of backend/app/storage/database.py as an in-memory pair of
    tables: journal rows keyed by id (with their insertion order) and message rows. */
module Database {
  import opened Wrappers
  import opened Strings
  import opened Models
  import opened Sorting

  datatype JournalRow = JournalRow(id: string, sessionId: string, title: string, createdAt: int, updatedAt: int,
                                   messageCount: nat, durationSeconds: Option<int>, mode: Option<Mode>)

  /** A row of the `messages` table: the message and the journal it belongs to. */
  datatype MessageRow = MessageRow(journalId: string, message: Message)

  // ---------------------------------------------------------------------------
  // Errors raised while a connection is open
  // ---------------------------------------------------------------------------

  const ConnectionFailure := "Database operation failed: "
  const UniqueViolation := "UNIQUE constraint failed: messages.id"

  /** The detail each error class builds from its argument. */
  function ErrorDetail(e: Error): string {
    match e
    case LLMError(d) => "LLM service error: " + d
    case StorageError(d) => "Storage error: " + d
    case JournalNotFound(id) => "Journal not found: " + id
    case ValidationError(d) => d
  }

  /** What `_get_connection` raises for an exception `e` raised inside it: a storage error
      carrying `str(e)`, which for these classes is the status code and the detail. */
  function ConnectionError(e: Error): (g: Error)
    ensures g.StorageError? && StatusCode(g) == 500
    ensures StartsWith(g.detail, ConnectionFailure)
  {
    var g := StorageError(ConnectionFailure + NatToString(StatusCode(e)) + ": " + ErrorDetail(e));
    assert g.detail[..|ConnectionFailure|] == ConnectionFailure;
    g
  }

  /** The result of a query run inside `with self._get_connection()`. */
  function Guarded<T>(r: Result<T, Error>): (g: Result<T, Error>)
    ensures g.Success? <==> r.Success?
    ensures r.Success? ==> g == r
    ensures r.Failure? ==> g.error == ConnectionError(r.error)
  {
    match r
    case Success(_) => r
    case Failure(e) => Failure(ConnectionError(e))
  }

  // ---------------------------------------------------------------------------
  // Message rows
  // ---------------------------------------------------------------------------

  /** The rows an INSERT per message adds for journal `jid`. */
  function Tagged(ms: seq<Message>, jid: string): (rows: seq<MessageRow>)
    ensures |rows| == |ms| && forall i :: 0 <= i < |ms| ==> rows[i] == MessageRow(jid, ms[i])
  {
    seq(|ms|, i requires 0 <= i < |ms| => MessageRow(jid, ms[i]))
  }

  /** The primary key of `messages`: no message id occurs twice. */
  predicate UniqueIds(rows: seq<MessageRow>) {
    forall i, j :: 0 <= i < j < |rows| ==> rows[i].message.id != rows[j].message.id
  }

  predicate HasMessageId(rows: seq<MessageRow>, mid: string) {
    exists k :: 0 <= k < |rows| && rows[k].message.id == mid
  }

  /** `DELETE FROM messages WHERE journal_id = ?`: the rows of other journals, in order. */
  function OtherRows(rows: seq<MessageRow>, jid: string): (r: seq<MessageRow>)
    ensures forall x :: x in r <==> x in rows && x.journalId != jid
    ensures UniqueIds(rows) ==> UniqueIds(r)
  {
    if |rows| == 0 then []
    else
      var rest := OtherRows(rows[1..], jid);
      assert UniqueIds(rows) ==> UniqueIds(rows[1..]) && !HasMessageId(rows[1..], rows[0].message.id);
      assert forall x :: x in rest ==> x in rows[1..];
      (if rows[0].journalId == jid then [] else [rows[0]]) + rest
  }

  /** The message a single row contributes to journal `jid`. */
  function RowMessage(row: MessageRow, jid: string): seq<Message> {
    if row.journalId == jid then [row.message] else []
  }

  /** `SELECT ... FROM messages WHERE journal_id = ?`, in table order. */
  function MessagesOf(rows: seq<MessageRow>, jid: string): (ms: seq<Message>)
    ensures forall m :: m in ms <==> MessageRow(jid, m) in rows
  {
    if |rows| == 0 then []
    else RowMessage(rows[0], jid) + MessagesOf(rows[1..], jid)
  }

  lemma {:induction false} MessagesOfAppend(a: seq<MessageRow>, b: seq<MessageRow>, jid: string)
    ensures MessagesOf(a + b, jid) == MessagesOf(a, jid) + MessagesOf(b, jid)
  {
    if |a| > 0 {
      var ab := a + b;
      assert ab[0] == a[0];
      assert ab[1..] == a[1..] + b;
      MessagesOfAppend(a[1..], b, jid);
      SeqAssoc(RowMessage(a[0], jid), MessagesOf(a[1..], jid), MessagesOf(b, jid));
    } else {
      assert a + b == b;
    }
  }

  /** The rows inserted for a journal read back as exactly its messages, in order. */
  lemma {:induction false} MessagesOfTagged(ms: seq<Message>, jid: string)
    ensures MessagesOf(Tagged(ms, jid), jid) == ms
  {
    if |ms| > 0 {
      MessagesOfTagged(ms[1..], jid);
      assert Tagged(ms, jid)[1..] == Tagged(ms[1..], jid);
    }
  }

  /** A journal no row refers to has no messages. */
  lemma {:induction false} MessagesOfAbsent(rows: seq<MessageRow>, jid: string)
    requires forall k :: 0 <= k < |rows| ==> rows[k].journalId != jid
    ensures MessagesOf(rows, jid) == []
  {
    if |rows| > 0 {
      MessagesOfAbsent(rows[1..], jid);
    }
  }

  /** Replacing a journal's rows: its messages read back as exactly the new ones. */
  lemma ReplacedRows(rows: seq<MessageRow>, jid: string, ms: seq<Message>)
    ensures MessagesOf(OtherRows(rows, jid) + Tagged(ms, jid), jid) == ms
  {
    var kept := OtherRows(rows, jid);
    MessagesOfAppend(kept, Tagged(ms, jid), jid);
    forall k | 0 <= k < |kept|
      ensures kept[k].journalId != jid
    {
      assert kept[k] in kept;
    }
    MessagesOfAbsent(kept, jid);
    MessagesOfTagged(ms, jid);
  }

  /** Rows added under a journal id come after whatever rows already carry that id. */
  lemma AddedRows(rows: seq<MessageRow>, jid: string, ms: seq<Message>)
    ensures MessagesOf(rows + Tagged(ms, jid), jid) == MessagesOf(rows, jid) + ms
  {
    MessagesOfAppend(rows, Tagged(ms, jid), jid);
    MessagesOfTagged(ms, jid);
  }

  // ---------------------------------------------------------------------------
  // Reading journals
  // ---------------------------------------------------------------------------

  function MessageTime(m: Message): int {
    m.timestamp
  }

  /** A journal row as `JournalMetadata`; a null mode reads as chat. */
  function RowMetadata(row: JournalRow): (md: JournalMetadata)
    ensures md.id == md.filename == row.id && md.date == row.createdAt
    ensures md.mode == Some(if row.mode.Some? then row.mode.value else Chat)
  {
    JournalMetadata(row.id, row.id, row.title, row.createdAt, row.messageCount, row.durationSeconds,
                    Some(row.mode.GetOr(Chat)))
  }

  /** What `get_journal` means to return: not-found for an unknown id, otherwise the row's
      metadata and the journal's messages in ascending timestamp order. */
  function JournalView(journals: map<string, JournalRow>, rows: seq<MessageRow>, id: string): (r: Result<Journal, Error>)
    ensures r.Failure? <==> id !in journals
    ensures r.Failure? ==> r.error == JournalNotFound(id) && StatusCode(r.error) == 404
    ensures r.Success? ==> r.value.meta == RowMetadata(journals[id]) && r.value.rawContent == ""
    ensures r.Success? ==> SortedBy(r.value.messages, MessageTime)
                           && multiset(r.value.messages) == multiset(MessagesOf(rows, id))
  {
    if id !in journals then Failure(JournalNotFound(id))
    else Success(Journal(RowMetadata(journals[id]), SortBy(MessagesOf(rows, id), MessageTime), ""))
  }

  /** `sort_by` must name one of the two timestamp columns; anything else means `created_at`. */
  function SortColumn(sortBy: string): (c: string)
    ensures c == "created_at" || c == "updated_at"
    ensures sortBy != "created_at" && sortBy != "updated_at" ==> c == "created_at"
    ensures sortBy == "created_at" || sortBy == "updated_at" ==> c == sortBy
  {
    if sortBy == "created_at" || sortBy == "updated_at" then sortBy else "created_at"
  }

  function RowKey(column: string, row: JournalRow): int {
    if column == "updated_at" then row.updatedAt else row.createdAt
  }

  /** `ORDER BY column DESC` as an ascending order on the negated column. */
  function Descending(column: string): JournalRow -> int {
    row => -RowKey(column, row)
  }

  /** The stored rows in table order. */
  function RowsInOrder(journals: map<string, JournalRow>, ids: seq<string>): (rows: seq<JournalRow>)
    requires forall i :: 0 <= i < |ids| ==> ids[i] in journals
    ensures |rows| == |ids| && forall i :: 0 <= i < |ids| ==> rows[i] == journals[ids[i]]
  {
    seq(|ids|, i requires 0 <= i < |ids| => journals[ids[i]])
  }

  /** One page of `list_journals`: the rows sorted newest first by the column, then
      `LIMIT limit OFFSET offset`. */
  function Page(rows: seq<JournalRow>, sortBy: string, limit: nat, offset: nat): seq<JournalRow> {
    Slice(SortBy(rows, Descending(SortColumn(sortBy))), offset, offset + limit)
  }

  function Metadatas(rows: seq<JournalRow>): (ms: seq<JournalMetadata>)
    ensures |ms| == |rows| && forall i :: 0 <= i < |rows| ==> ms[i] == RowMetadata(rows[i])
  {
    seq(|rows|, i requires 0 <= i < |rows| => RowMetadata(rows[i]))
  }

  lemma MetadatasSnoc(rows: seq<JournalRow>, i: nat)
    requires i < |rows|
    ensures Metadatas(rows[..i + 1]) == Metadatas(rows[..i]) + [RowMetadata(rows[i])]
  {
    var a, b := Metadatas(rows[..i + 1]), Metadatas(rows[..i]) + [RowMetadata(rows[i])];
    assert |a| == |b|;
    forall k | 0 <= k < |a|
      ensures a[k] == b[k]
    {
      assert rows[..i + 1][k] == rows[k];
    }
  }

  /** A page holds at most `limit` stored rows, newest first by the chosen column, and the
      first page of a large enough limit is every row. */
  lemma PageFacts(rows: seq<JournalRow>, sortBy: string, limit: nat, offset: nat)
    ensures var p := Page(rows, sortBy, limit, offset);
            var c := SortColumn(sortBy);
            |p| <= limit
            && (forall i, j :: 0 <= i < j < |p| ==> RowKey(c, p[i]) >= RowKey(c, p[j]))
            && (forall x :: x in p ==> x in rows)
            && (offset == 0 && |rows| <= limit ==> multiset(p) == multiset(rows))
            && (offset >= |rows| ==> p == [])
  {
    var c := SortColumn(sortBy);
    var sorted := SortBy(rows, Descending(c));
    var p := Page(rows, sortBy, limit, offset);
    var h := if offset + limit <= |sorted| then offset + limit else |sorted|;
    if offset < h {
      assert p == sorted[offset..h];
      SliceSorted(sorted, Descending(c), offset, h);
      forall i, j | 0 <= i < j < |p|
        ensures RowKey(c, p[i]) >= RowKey(c, p[j])
      {
        assert Descending(c)(p[i]) <= Descending(c)(p[j]);
      }
      forall x | x in p
        ensures x in rows
      {
        assert x in multiset(sorted);
      }
      if offset == 0 && |rows| <= limit {
        assert p == sorted;
      }
    }
  }

  /** Every message row belongs to a stored journal, as the declared foreign key demands. */
  ghost predicate Linked(journals: map<string, JournalRow>, rows: seq<MessageRow>) {
    forall k :: 0 <= k < |rows| ==> rows[k].journalId in journals
  }

  /** `len(messages) >= 2`: the seconds from the first message to the last. */
  function Duration(ms: seq<Message>): Option<int> {
    if |ms| >= 2 then Some(ms[|ms| - 1].timestamp - ms[0].timestamp) else None
  }

  /** The first message's time, or now for an empty conversation. */
  function CreatedAt(ms: seq<Message>, now: int): int {
    if |ms| > 0 then ms[0].timestamp else now
  }

  class JournalTable {
    var journals: map<string, JournalRow>
    /** The journal ids in insertion order. */
    var ids: seq<string>
    var messageRows: seq<MessageRow>

    /** Ids are session ids (the only path that creates a row sets `id = session_id`),
        `ids` lists the stored journals once each, and message ids are unique. */
    ghost predicate Valid()
      reads this
    {
      && (forall id :: id in journals ==> journals[id].id == id && journals[id].sessionId == id)
      && (forall id :: id in journals <==> id in ids)
      && Distinct(ids)
      && UniqueIds(messageRows)
    }

    ghost predicate Referential()
      reads this
    {
      Linked(journals, messageRows)
    }

    constructor ()
      ensures Valid() && Referential()
      ensures journals == map[] && ids == [] && messageRows == []
    {
      journals := map[];
      ids := [];
      messageRows := [];
    }

    /** `SELECT id FROM journals WHERE session_id = ?`. */
    function FindBySession(sessionId: string): (r: Option<string>)
      reads this
      requires Valid()
      ensures r.Some? <==> exists id :: id in journals && journals[id].sessionId == sessionId
      ensures r.Some? ==> r.value in journals && journals[r.value].sessionId == sessionId
    {
      if sessionId in journals then Some(sessionId) else None
    }

    /** `save_journal`: the journal of the session is updated (keeping its id and creation
        time, replacing its message rows) or created with the session id as its id; then
        one row per message is inserted. A message id that is already taken violates the
        primary key, and the whole transaction is rolled back. */
    method SaveJournal(sessionId: string, messages: seq<Message>, title: string, mode: Mode, now: int)
      returns (r: Result<JournalMetadata, Error>)
      requires Valid()
      modifies this
      ensures Valid()
      ensures var existing := sessionId in old(journals);
              var kept := if existing then OtherRows(old(messageRows), sessionId) else old(messageRows);
              && (r.Failure? <==> !UniqueIds(kept + Tagged(messages, sessionId)))
              && (r.Failure? ==> r.error == StorageError(ConnectionFailure + UniqueViolation)
                                 && journals == old(journals) && ids == old(ids) && messageRows == old(messageRows))
              && (r.Success? ==>
                    && messageRows == kept + Tagged(messages, sessionId)
                    && ids == (if existing then old(ids) else old(ids) + [sessionId])
                    && journals == old(journals)[sessionId :=
                         if existing then old(journals)[sessionId].(title := title, updatedAt := now,
                           messageCount := |messages|, durationSeconds := Duration(messages), mode := Some(mode))
                         else JournalRow(sessionId, sessionId, title, CreatedAt(messages, now), now,
                           |messages|, Duration(messages), Some(mode))]
                    && r.value == JournalMetadata(sessionId, sessionId, title, CreatedAt(messages, now),
                         |messages|, Duration(messages), Some(mode)))
      ensures r.Success? && old(Referential()) ==> Referential()
    {
      var created := CreatedAt(messages, now);
      var duration := Duration(messages);
      var found := FindBySession(sessionId);
      var jid: string;
      var newJournals: map<string, JournalRow>;
      var newIds := ids;
      var rows: seq<MessageRow>;
      if found.Some? {
        jid := found.value;
        var row := journals[jid];
        newJournals := journals[jid := row.(title := title, updatedAt := now, messageCount := |messages|,
                                            durationSeconds := duration, mode := Some(mode))];
        rows := OtherRows(messageRows, jid);
      } else {
        jid := sessionId;
        newJournals := journals[jid := JournalRow(jid, sessionId, title, created, now, |messages|, duration, Some(mode))];
        newIds := ids + [jid];
        rows := messageRows;
      }
      var inserted := InsertRows(rows, messages, jid);
      if inserted.None? {
        return Failure(StorageError(ConnectionFailure + UniqueViolation));
      }
      if old(Referential()) {
        SaveKeepsLinked(journals, newJournals, messageRows, rows, jid, messages);
      }
      journals := newJournals;
      ids := newIds;
      messageRows := inserted.value;
      return Success(JournalMetadata(jid, jid, title, created, |messages|, duration, Some(mode)));
    }

    /** The INSERT of one row per message, in order; a message id already present in the
        table fails the primary key. */
    static method InsertRows(kept: seq<MessageRow>, messages: seq<Message>, jid: string)
      returns (r: Option<seq<MessageRow>>)
      requires UniqueIds(kept)
      ensures r.None? <==> !UniqueIds(kept + Tagged(messages, jid))
      ensures r.Some? ==> r.value == kept + Tagged(messages, jid)
    {
      var rows := kept;
      var i := 0;
      while i < |messages|
        invariant 0 <= i <= |messages|
        invariant rows == kept + Tagged(messages[..i], jid)
        invariant UniqueIds(rows)
      {
        if HasMessageId(rows, messages[i].id) {
          TakenIdConflicts(kept, messages, jid, i);
          return None;
        }
        TaggedStep(messages, jid, i);
        rows := rows + [MessageRow(jid, messages[i])];
        i := i + 1;
      }
      assert messages[..i] == messages;
      return Some(rows);
    }

    /** `get_journal`, with the messages converted row by row. A missing journal raises
        not-found inside the connection, which turns it into a storage error. */
    method GetJournal(journalId: string) returns (r: Result<Journal, Error>)
      requires Valid()
      ensures r == Guarded(JournalView(journals, messageRows, journalId))
    {
      if journalId !in journals {
        return Guarded(Failure(JournalNotFound(journalId)));
      }
      var row := journals[journalId];
      var sorted := SortBy(MessagesOf(messageRows, journalId), MessageTime);
      var messages: seq<Message> := [];
      var i := 0;
      while i < |sorted|
        invariant 0 <= i <= |sorted|
        invariant messages == sorted[..i]
      {
        messages := messages + [sorted[i]];
        i := i + 1;
      }
      assert sorted[..i] == sorted;
      return Success(Journal(RowMetadata(row), messages, ""));
    }

    /** `list_journals`: the total count and one page converted row by row. */
    method ListJournals(limit: nat, offset: nat, sortBy: string) returns (page: seq<JournalMetadata>, total: nat)
      requires Valid()
      ensures total == |journals|
      ensures page == Metadatas(Page(RowsInOrder(journals, ids), sortBy, limit, offset))
    {
      total := |journals|;
      var rows := Page(RowsInOrder(journals, ids), sortBy, limit, offset);
      page := [];
      var i := 0;
      while i < |rows|
        invariant 0 <= i <= |rows|
        invariant page == Metadatas(rows[..i])
      {
        MetadatasSnoc(rows, i);
        page := page + [RowMetadata(rows[i])];
        i := i + 1;
      }
      assert rows[..i] == rows;
    }

    /** `delete_journal`: removes the journal row. A missing journal raises not-found inside
        the connection, which turns it into a storage error. The message rows stay: the
        connection never turns on SQLite's foreign keys, so the declared cascade does not
        run. */
    method DeleteJournal(journalId: string) returns (o: Outcome<Error>)
      requires Valid()
      modifies this
      ensures Valid()
      ensures journalId !in old(journals) ==>
                o == Fail(ConnectionError(JournalNotFound(journalId)))
                && journals == old(journals) && ids == old(ids) && messageRows == old(messageRows)
      ensures journalId in old(journals) ==>
                o == Pass && journals == old(journals) - {journalId} && ids == Without(old(ids), journalId)
                && messageRows == old(messageRows)
      ensures JournalView(journals, messageRows, journalId).Failure?
    {
      if journalId !in journals {
        return Fail(ConnectionError(JournalNotFound(journalId)));
      }
      journals := journals - {journalId};
      ids := Without(ids, journalId);
      return Pass;
    }

    /** `delete_journal` as its comment describes it: not-found for a missing journal, and
        the journal's messages deleted with it. */
    method DeleteJournalCascade(journalId: string) returns (o: Outcome<Error>)
      requires Valid()
      modifies this
      ensures Valid()
      ensures journalId !in old(journals) ==>
                o == Fail(JournalNotFound(journalId))
                && journals == old(journals) && ids == old(ids) && messageRows == old(messageRows)
      ensures journalId in old(journals) ==>
                o == Pass && journals == old(journals) - {journalId} && ids == Without(old(ids), journalId)
                && messageRows == OtherRows(old(messageRows), journalId)
      ensures journalId in old(journals) || old(Referential()) ==> MessagesOf(messageRows, journalId) == []
      ensures old(Referential()) ==> Referential()
    {
      if journalId !in journals {
        if Referential() {
          MessagesOfAbsent(messageRows, journalId);
        }
        return Fail(JournalNotFound(journalId));
      }
      CascadeUnlinks(journals, messageRows, journalId);
      journals := journals - {journalId};
      ids := Without(ids, journalId);
      messageRows := OtherRows(messageRows, journalId);
      return Pass;
    }

    /** `get_journal_by_session_id`: nothing for an unknown session, otherwise the journal
        `get_journal` returns for its id. */
    method GetJournalBySessionId(sessionId: string) returns (r: Result<Option<Journal>, Error>)
      requires Valid()
      ensures FindBySession(sessionId).None? ==> r == Success(None)
      ensures FindBySession(sessionId).Some? ==>
                r == Success(Some(JournalView(journals, messageRows, FindBySession(sessionId).value).value))
    {
      var found := FindBySession(sessionId);
      if found.None? {
        return Success(None);
      }
      var j := GetJournal(found.value);
      match j
      case Failure(e) => r := Failure(ConnectionError(e));
      case Success(v) => r := Success(Some(v));
    }
  }

  lemma TaggedStep(ms: seq<Message>, jid: string, i: nat)
    requires i < |ms|
    ensures Tagged(ms[..i + 1], jid) == Tagged(ms[..i], jid) + [MessageRow(jid, ms[i])]
  {
  }

  /** A message whose id is already among the rows inserted so far breaks the key of the
      whole insertion. */
  lemma TakenIdConflicts(kept: seq<MessageRow>, ms: seq<Message>, jid: string, i: nat)
    requires i < |ms| && HasMessageId(kept + Tagged(ms[..i], jid), ms[i].id)
    ensures !UniqueIds(kept + Tagged(ms, jid))
  {
    var rows := kept + Tagged(ms[..i], jid);
    var full := kept + Tagged(ms, jid);
    var k :| 0 <= k < |rows| && rows[k].message.id == ms[i].id;
    assert full[k] == rows[k];
    assert full[|kept| + i] == MessageRow(jid, ms[i]);
  }

  /** None of the remaining rows belong to the journal. */
  lemma OtherRowsUnlinked(rows: seq<MessageRow>, jid: string)
    ensures forall k :: 0 <= k < |OtherRows(rows, jid)| ==> OtherRows(rows, jid)[k].journalId != jid
  {
    var kept := OtherRows(rows, jid);
    forall k | 0 <= k < |kept|
      ensures kept[k].journalId != jid
    {
      assert kept[k] in kept;
    }
  }

  /** Deleting a journal with its rows leaves every other row linked and none for it. */
  lemma CascadeUnlinks(journals: map<string, JournalRow>, rows: seq<MessageRow>, jid: string)
    ensures MessagesOf(OtherRows(rows, jid), jid) == []
    ensures Linked(journals, rows) ==> Linked(journals - {jid}, OtherRows(rows, jid))
  {
    var kept := OtherRows(rows, jid);
    OtherRowsUnlinked(rows, jid);
    MessagesOfAbsent(kept, jid);
    if Linked(journals, rows) {
      forall k | 0 <= k < |kept|
        ensures kept[k].journalId in journals - {jid}
      {
        assert kept[k] in rows;
      }
    }
  }

  /** Saving keeps every row linked: the kept rows' journals stay, the new rows belong to
      the saved journal. */
  lemma SaveKeepsLinked(journals: map<string, JournalRow>, after: map<string, JournalRow>,
                        rows: seq<MessageRow>, kept: seq<MessageRow>, jid: string, ms: seq<Message>)
    requires Linked(journals, rows) && journals.Keys <= after.Keys && jid in after
    requires forall x :: x in kept ==> x in rows
    ensures Linked(after, kept + Tagged(ms, jid))
  {
    var all := kept + Tagged(ms, jid);
    forall k | 0 <= k < |all|
      ensures all[k].journalId in after
    {
      if k < |kept| {
        assert kept[k] in rows;
      }
    }
  }

  /** A journal that was deleted while it had messages gets them back when its session is
      saved again: they are read back in front of the new ones. */
  lemma StaleRowsReturn(rows: seq<MessageRow>, jid: string, ms: seq<Message>)
    requires MessagesOf(rows, jid) != []
    ensures MessagesOf(rows + Tagged(ms, jid), jid) != ms
    ensures |MessagesOf(rows + Tagged(ms, jid), jid)| > |ms|
  {
    AddedRows(rows, jid, ms);
  }

  /** With every row linked to a journal, saving a new session reads back exactly its
      messages; so does updating any journal. */
  lemma SavedMessagesReadBack(journals: map<string, JournalRow>, rows: seq<MessageRow>, sessionId: string, ms: seq<Message>)
    requires Linked(journals, rows)
    ensures var kept := if sessionId in journals then OtherRows(rows, sessionId) else rows;
            MessagesOf(kept + Tagged(ms, sessionId), sessionId) == ms
  {
    if sessionId in journals {
      ReplacedRows(rows, sessionId, ms);
    } else {
      AddedRows(rows, sessionId, ms);
      MessagesOfAbsent(rows, sessionId);
    }
  }

  /** An unknown id comes out of `get_journal` as a storage error (500), not as the
      not-found error (404) it raises. */
  lemma UnknownJournalIsStorageError(journals: map<string, JournalRow>, rows: seq<MessageRow>, id: string)
    requires id !in journals
    ensures JournalView(journals, rows, id) == Failure(JournalNotFound(id))
    ensures var g := Guarded(JournalView(journals, rows, id));
            g.Failure? && g.error.StorageError? && StatusCode(g.error) == 500
  {
  }

  /** Save, delete and save again under the same session: the journal reports one message
      but returns two. */
  method StaleMessagesExample() returns (j: Result<Journal, Error>)
    ensures j.Success? && j.value.meta.messageCount == 1 && |j.value.messages| == 2
  {
    var m1 := Message("m1", User, "first", 1, None);
    var m2 := Message("m2", User, "second", 2, None);
    var t := SavedThenDeleted(m1);
    assert !HasMessageId(Tagged([m1], "s"), "m2");
    var r2 := t.SaveJournal("s", [m2], "T", Chat, 20);
    assert t.messageRows == Tagged([m1], "s") + Tagged([m2], "s");
    assert t.journals["s"].messageCount == 1;
    AddedRows(Tagged([m1], "s"), "s", [m2]);
    MessagesOfTagged([m1], "s");
    j := t.GetJournal("s");
  }

  /** A table after saving session "s" with one message and deleting it: no journal,
      but the message row is still there. */
  method SavedThenDeleted(m: Message) returns (t: JournalTable)
    ensures fresh(t) && t.Valid()
    ensures t.journals == map[] && t.messageRows == Tagged([m], "s") && t.ids == []
  {
    t := new JournalTable();
    var r1 := t.SaveJournal("s", [m], "T", Chat, 10);
    assert UniqueIds(Tagged([m], "s"));
    var d := t.DeleteJournal("s");
  }

  /** The same steps with the cascading delete: the journal returns only its new message. */
  method CascadeExample() returns (j: Result<Journal, Error>)
    ensures j.Success? && j.value.meta.messageCount == 1 && |j.value.messages| == 1
  {
    var t := new JournalTable();
    var m1 := Message("m1", User, "first", 1, None);
    var m2 := Message("m2", User, "second", 2, None);
    var r1 := t.SaveJournal("s", [m1], "T", Chat, 10);
    assert UniqueIds(Tagged([m1], "s"));
    var d := t.DeleteJournalCascade("s");
    CascadeUnlinks(map[], Tagged([m1], "s"), "s");
    var r2 := t.SaveJournal("s", [m2], "T", Chat, 20);
    ReplacedRows(t.messageRows, "s", [m2]);
    j := t.GetJournal("s");
  }
}
