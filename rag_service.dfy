/** Retrieval-augmented generation bookkeeping (backend/app/services/rag_service.py):
    the threshold filter over search hits, the chunking of conversations and of
    write-mode text, and the assembly of the batches handed to the vector store. */
module RagService {
  import opened Wrappers
  import opened Strings
  import opened Models
  import opened VectorStorage

  const DefaultTopK: nat := 5
  const DefaultThreshold: real := 0.7

  // ---------------------------------------------------------------------------
  // Retrieval
  // ---------------------------------------------------------------------------

  /** `a` is `b` with some elements left out, the rest in their order. */
  predicate IsSubsequence<T(==)>(a: seq<T>, b: seq<T>)
    decreases |b|
  {
    if |a| == 0 then true
    else if |b| == 0 then false
    else (a[0] == b[0] && IsSubsequence(a[1..], b[1..])) || IsSubsequence(a, b[1..])
  }

  /** The list comprehension keeping the hits scored at least `threshold`: each hit is
      kept exactly as often as it occurs, in the order of the search. */
  function AboveThreshold(hits: seq<RetrievedContext>, threshold: real): (r: seq<RetrievedContext>)
    ensures forall c :: multiset(r)[c] == if c.similarityScore >= threshold then multiset(hits)[c] else 0
    ensures IsSubsequence(r, hits)
  {
    if |hits| == 0 then []
    else
      var rest := AboveThreshold(hits[1..], threshold);
      assert hits == [hits[0]] + hits[1..];
      if hits[0].similarityScore >= threshold then [hits[0]] + rest else rest
  }

  /** `retrieve_context`: a failing search degrades to no context. */
  function RetrieveContext(search: Result<seq<RetrievedContext>, Error>, threshold: real): (r: seq<RetrievedContext>)
    ensures search.Failure? ==> r == []
    ensures search.Success? ==> r == AboveThreshold(search.value, threshold)
  {
    if search.Failure? then [] else AboveThreshold(search.value, threshold)
  }

  /** A hit is retrieved iff the search returned it with a score at or above the threshold. */
  lemma RetrievedIffAboveThreshold(hits: seq<RetrievedContext>, threshold: real, c: RetrievedContext)
    ensures c in AboveThreshold(hits, threshold) <==> c in hits && c.similarityScore >= threshold
  {
    assert c in AboveThreshold(hits, threshold) <==> multiset(AboveThreshold(hits, threshold))[c] > 0;
  }

  predicate RankedByScore(s: seq<RetrievedContext>) {
    forall i, j :: 0 <= i < j < |s| ==> s[i].similarityScore >= s[j].similarityScore
  }

  lemma {:induction false} SubsequenceOfRanked(a: seq<RetrievedContext>, b: seq<RetrievedContext>)
    requires IsSubsequence(a, b) && RankedByScore(b)
    ensures RankedByScore(a)
    ensures forall x :: x in a ==> x in b
    decreases |b|
  {
    if |a| > 0 {
      assert |b| > 0;
      assert RankedByScore(b[1..]) by {
        forall i, j | 0 <= i < j < |b[1..]|
          ensures b[1..][i].similarityScore >= b[1..][j].similarityScore
        {
          assert b[1..][i] == b[i + 1] && b[1..][j] == b[j + 1];
        }
      }
      if a[0] == b[0] && IsSubsequence(a[1..], b[1..]) {
        SubsequenceOfRanked(a[1..], b[1..]);
        forall j | 0 < j < |a|
          ensures a[0].similarityScore >= a[j].similarityScore
        {
          assert a[j] == a[1..][j - 1];
          assert a[j] in b[1..];
          var k :| 0 <= k < |b[1..]| && b[1..][k] == a[j];
          assert b[k + 1] == a[j];
        }
        forall i, j | 0 <= i < j < |a|
          ensures a[i].similarityScore >= a[j].similarityScore
        {
          if i > 0 {
            assert a[i] == a[1..][i - 1] && a[j] == a[1..][j - 1];
          }
        }
        forall x | x in a
          ensures x in b
        {
          if x != a[0] {
            assert x in a[1..];
          }
        }
      } else {
        SubsequenceOfRanked(a, b[1..]);
      }
    }
  }

  /** Retrieval only filters: hits the search returned best-first stay best-first. */
  lemma RetrievalKeepsRanking(hits: seq<RetrievedContext>, threshold: real)
    requires RankedByScore(hits)
    ensures RankedByScore(AboveThreshold(hits, threshold))
  {
    SubsequenceOfRanked(AboveThreshold(hits, threshold), hits);
  }

  // ---------------------------------------------------------------------------
  // Conversation chunks
  // ---------------------------------------------------------------------------

  datatype ConversationChunk = ConversationChunk(content: string, messageIds: seq<string>)

  /** A user message answered by the next message. */
  predicate PairAt(ms: seq<Message>, i: nat) {
    i + 1 < |ms| && ms[i].role == User && ms[i + 1].role == Assistant
  }

  function PairChunk(u: Message, a: Message): ConversationChunk {
    ConversationChunk("User: " + u.content + "\n\nAssistant: " + a.content, [u.id, a.id])
  }

  /** The positions, from `i` on, where the scan finds a question-answer pair. Pairs never
      share a message, so there are at most half as many as there are messages. */
  function PairStarts(ms: seq<Message>, i: nat): (ps: seq<nat>)
    ensures forall k :: 0 <= k < |ps| ==> i <= ps[k] && PairAt(ms, ps[k])
    ensures forall k :: 0 <= k < |ps| - 1 ==> ps[k] + 2 <= ps[k + 1]
    ensures |ps| == 0 || i + 2 * |ps| <= |ms|
    decreases |ms| - i
  {
    if i + 1 >= |ms| then []
    else if PairAt(ms, i) then [i] + PairStarts(ms, i + 2)
    else PairStarts(ms, i + 1)
  }

  function ChunksAt(ms: seq<Message>, ps: seq<nat>): (cs: seq<ConversationChunk>)
    requires forall k :: 0 <= k < |ps| ==> ps[k] + 1 < |ms|
    ensures |cs| == |ps|
  {
    seq(|ps|, k requires 0 <= k < |ps| => PairChunk(ms[ps[k]], ms[ps[k] + 1]))
  }

  lemma ChunksAtSnoc(ms: seq<Message>, ps: seq<nat>, i: nat)
    requires forall k :: 0 <= k < |ps| ==> ps[k] + 1 < |ms|
    requires i + 1 < |ms|
    ensures ChunksAt(ms, ps + [i]) == ChunksAt(ms, ps) + [PairChunk(ms[i], ms[i + 1])]
  {
    var a, b := ChunksAt(ms, ps + [i]), ChunksAt(ms, ps) + [PairChunk(ms[i], ms[i + 1])];
    forall k | 0 <= k < |a|
      ensures a[k] == b[k]
    {
      assert (ps + [i])[k] == if k < |ps| then ps[k] else i;
    }
  }

  /** The chunks of a conversation: one per question-answer pair. */
  function ConversationChunks(ms: seq<Message>): (cs: seq<ConversationChunk>)
    ensures 2 * |cs| <= |ms|
  {
    ChunksAt(ms, PairStarts(ms, 0))
  }

  /** `_chunk_conversation`: the `while i < len(messages) - 1` scan that takes a pair and
      skips both, or skips one message. */
  method ChunkConversation(messages: seq<Message>) returns (chunks: seq<ConversationChunk>)
    ensures chunks == ConversationChunks(messages)
  {
    chunks := [];
    ghost var taken: seq<nat> := [];
    var i := 0;
    while i + 1 < |messages|
      invariant i <= |messages|
      invariant PairStarts(messages, 0) == taken + PairStarts(messages, i)
      invariant forall k :: 0 <= k < |taken| ==> taken[k] + 1 < |messages|
      invariant chunks == ChunksAt(messages, taken)
      decreases |messages| - i
    {
      var current := messages[i];
      var next := messages[i + 1];
      if current.role == User && next.role == Assistant {
        ChunksAtSnoc(messages, taken, i);
        SeqAssoc(taken, [i], PairStarts(messages, i + 2));
        chunks := chunks + [ConversationChunk("User: " + current.content + "\n\nAssistant: " + next.content, [current.id, next.id])];
        taken := taken + [i];
        i := i + 2;
      } else {
        i := i + 1;
      }
    }
    assert PairStarts(messages, i) == [];
    assert taken + [] == taken;
  }

  /** Chunk `k` holds the `k`-th pair found: a user message and its answer, contents and
      ids in that order. No system message is ever part of a chunk. */
  lemma ChunkIsAnsweredQuestion(ms: seq<Message>, k: nat)
    requires k < |ConversationChunks(ms)|
    ensures var p := PairStarts(ms, 0)[k];
            p + 1 < |ms| && ms[p].role == User && ms[p + 1].role == Assistant
            && ConversationChunks(ms)[k].content == "User: " + ms[p].content + "\n\nAssistant: " + ms[p + 1].content
            && ConversationChunks(ms)[k].messageIds == [ms[p].id, ms[p + 1].id]
  {
  }

  /** Chunks follow the conversation and no message belongs to two of them. */
  lemma ChunksInOrderDisjoint(ms: seq<Message>, k: nat, l: nat)
    requires k < l < |ConversationChunks(ms)|
    ensures PairStarts(ms, 0)[k] + 1 < PairStarts(ms, 0)[l]
  {
    var ps := PairStarts(ms, 0);
    var j := k;
    while j < l
      invariant k <= j <= l
      invariant ps[k] + 2 * (j - k) <= ps[j]
    {
      j := j + 1;
    }
  }

  /** Strictly alternating user/assistant turns, starting with the user. */
  predicate Alternating(ms: seq<Message>) {
    forall j :: 0 <= j < |ms| ==> ms[j].role == (if j % 2 == 0 then User else Assistant)
  }

  /** A conversation of complete question-answer rounds is chunked completely; an
      unanswered last question adds no chunk. */
  lemma {:induction false} AlternatingFullyChunked(ms: seq<Message>, i: nat)
    requires Alternating(ms) && i % 2 == 0 && i <= |ms|
    ensures |PairStarts(ms, i)| == (|ms| - i) / 2
    decreases |ms| - i
  {
    if i + 1 < |ms| {
      assert PairAt(ms, i);
      AlternatingFullyChunked(ms, i + 2);
    }
  }

  // ---------------------------------------------------------------------------
  // Write-mode chunks
  // ---------------------------------------------------------------------------

  const MaxChunkSize: nat := 1000

  predicate EndsSentence(s: string) {
    |s| > 0 && (s[|s| - 1] == '.' || s[|s| - 1] == '!' || s[|s| - 1] == '?')
  }

  /** No whitespace at either end (so `strip()` leaves it unchanged). */
  predicate NoOuterSpace(s: string) {
    |s| == 0 || (!IsSpace(s[0]) && !IsSpace(s[|s| - 1]))
  }

  /** A sentence gets a final period unless it already ends in `.`, `!` or `?`. */
  function Punctuate(s: string): (r: string)
    ensures EndsSentence(r)
    ensures NoOuterSpace(s) && s != "" ==> NoOuterSpace(r) && r != ""
  {
    if EndsSentence(s) then s else s + "."
  }

  /** `c` is one of the sentences of a `'. '` split, stripped and punctuated. */
  predicate IsSentenceOf(c: string, sents: seq<string>) {
    exists j :: 0 <= j < |sents| && Strip(sents[j]) != "" && c == Punctuate(Strip(sents[j]))
  }

  /** A sentence of the later sentences is a sentence of them all. */
  lemma SentenceOfTail(c: string, sents: seq<string>)
    requires |sents| > 0
    ensures IsSentenceOf(c, sents[1..]) ==> IsSentenceOf(c, sents)
  {
    if IsSentenceOf(c, sents[1..]) {
      var j :| 0 <= j < |sents[1..]| && Strip(sents[1..][j]) != "" && c == Punctuate(Strip(sents[1..][j]));
      assert sents[1..][j] == sents[j + 1];
    }
  }

  lemma StripNoOuterSpace(s: string)
    ensures NoOuterSpace(Strip(s))
  {
    TrimSpec(s, IsSpace);
  }

  /** The greedy packing of sentences into chunks, starting from the accumulator `cur`:
      a sentence joins the current chunk unless that would pass `max`. */
  function Pack(sents: seq<string>, cur: string, max: nat): seq<string> {
    if |sents| == 0 then (if Strip(cur) != "" then [Strip(cur)] else [])
    else
      var s := Strip(sents[0]);
      if s == "" then Pack(sents[1..], cur, max)
      else
        var t := Punctuate(s);
        if |cur| + |t| + 1 > max && cur != "" then [Strip(cur)] + Pack(sents[1..], t, max)
        else Pack(sents[1..], if cur != "" then cur + " " + t else t, max)
  }

  /** The accumulator after adding sentence `t`: a stripped run ending in punctuation. */
  lemma JoinedSentences(cur: string, t: string)
    requires NoOuterSpace(cur) && (cur == "" || EndsSentence(cur))
    requires t != "" && NoOuterSpace(t) && EndsSentence(t)
    ensures var n := if cur != "" then cur + " " + t else t;
            n != "" && NoOuterSpace(n) && EndsSentence(n)
  {
    if cur != "" {
      var n := cur + " " + t;
      assert n[0] == cur[0] && n[|n| - 1] == t[|t| - 1];
    }
  }

  /** Every packed chunk is a stripped sentence run ending in punctuation, and it fits the
      bound unless it is a single sentence (or the initial accumulator). */
  lemma {:induction false} PackChunk(sents: seq<string>, cur: string, max: nat, k: nat)
    requires NoOuterSpace(cur) && (cur == "" || EndsSentence(cur))
    requires k < |Pack(sents, cur, max)|
    ensures var c := Pack(sents, cur, max)[k];
            c != "" && NoOuterSpace(c) && EndsSentence(c) && (|c| <= max || c == cur || IsSentenceOf(c, sents))
  {
    var r := Pack(sents, cur, max);
    if |sents| == 0 {
      TrimIdentity(cur, IsSpace);
    } else {
      var s := Strip(sents[0]);
      StripNoOuterSpace(sents[0]);
      if s == "" {
        PackChunk(sents[1..], cur, max, k);
        SentenceOfTail(r[k], sents);
      } else {
        var t := Punctuate(s);
        var next := if |cur| + |t| + 1 > max && cur != "" then t else if cur != "" then cur + " " + t else t;
        var rest := Pack(sents[1..], next, max);
        if |cur| + |t| + 1 > max && cur != "" {
          assert r == [Strip(cur)] + rest;
        } else {
          assert r == rest;
        }
        if |cur| + |t| + 1 > max && cur != "" && k == 0 {
          TrimIdentity(cur, IsSpace);
        } else {
          var k' := if |cur| + |t| + 1 > max && cur != "" then k - 1 else k;
          assert r[k] == rest[k'];
          JoinedSentences(cur, t);
          PackChunk(sents[1..], next, max, k');
          assert IsSentenceOf(t, sents);
          SentenceOfTail(r[k], sents);
        }
      }
    }
  }

  /** The chunks of one paragraph: none if blank, the stripped paragraph if it fits,
      otherwise its sentences packed greedily. */
  function ParagraphChunks(p: string, max: nat): seq<string> {
    var q := Strip(p);
    if q == "" then []
    else if |q| <= max then [q]
    else Pack(Split(q, ". "), "", max)
  }

  /** Every chunk of a paragraph is non-empty and stripped, and fits the bound unless it is
      a single sentence of the paragraph. */
  lemma ParagraphChunk(p: string, max: nat, k: nat)
    requires k < |ParagraphChunks(p, max)|
    ensures var c := ParagraphChunks(p, max)[k];
            c != "" && NoOuterSpace(c) && (|c| <= max || IsSentenceOf(c, Split(Strip(p), ". ")))
  {
    StripNoOuterSpace(p);
    var q := Strip(p);
    if q != "" && |q| > max {
      PackChunk(Split(q, ". "), "", max, k);
    }
  }

  function AllChunks(paragraphs: seq<string>, max: nat): seq<string> {
    if |paragraphs| == 0 then [] else ParagraphChunks(paragraphs[0], max) + AllChunks(paragraphs[1..], max)
  }

  /** `_chunk_write_content` as a value. */
  function WriteChunks(content: string, max: nat): seq<string> {
    if Strip(content) == "" then [] else AllChunks(Split(content, "\n\n"), max)
  }

  /** `Pack` from sentence `j` on, unfolded once. */
  lemma PackUnfold(sents: seq<string>, j: nat, cur: string, max: nat)
    requires j < |sents|
    ensures var s := Strip(sents[j]);
            Pack(sents[j..], cur, max) ==
              if s == "" then Pack(sents[j + 1..], cur, max)
              else if |cur| + |Punctuate(s)| + 1 > max && cur != "" then [Strip(cur)] + Pack(sents[j + 1..], Punctuate(s), max)
              else Pack(sents[j + 1..], if cur != "" then cur + " " + Punctuate(s) else Punctuate(s), max)
  {
    assert sents[j..][0] == sents[j];
    assert sents[j..][1..] == sents[j + 1..];
  }

  /** The sentence loop of `_chunk_write_content` for a paragraph over the bound. */
  method ChunkLongParagraph(paragraph: string, max: nat) returns (chunks: seq<string>)
    ensures chunks == Pack(Split(paragraph, ". "), "", max)
  {
    var sentences := Split(paragraph, ". ");
    chunks := [];
    var current := "";
    var j := 0;
    while j < |sentences|
      invariant 0 <= j <= |sentences|
      invariant chunks + Pack(sentences[j..], current, max) == Pack(sentences, "", max)
    {
      PackUnfold(sentences, j, current, max);
      var sentence := Strip(sentences[j]);
      if sentence != "" {
        sentence := Punctuate(sentence);
        if |current| + |sentence| + 1 > max && current != "" {
          chunks := chunks + [Strip(current)];
          current := sentence;
        } else {
          current := if current != "" then current + " " + sentence else sentence;
        }
      }
      j := j + 1;
    }
    if Strip(current) != "" {
      chunks := chunks + [Strip(current)];
    }
  }

  /** One turn of the paragraph loop of `_chunk_write_content`: a blank paragraph adds
      nothing, one that fits adds itself, a longer one adds its sentence chunks. */
  method ChunkParagraph(raw: string, max: nat) returns (added: seq<string>)
    ensures added == ParagraphChunks(raw, max)
  {
    var paragraph := Strip(raw);
    if paragraph == "" {
      added := [];
    } else if |paragraph| <= max {
      added := [paragraph];
    } else {
      added := ChunkLongParagraph(paragraph, max);
    }
  }

  /** `_chunk_write_content`: the paragraph loop. */
  method ChunkWriteContent(content: string, max: nat) returns (chunks: seq<string>)
    ensures chunks == WriteChunks(content, max)
  {
    if Strip(content) == "" {
      return [];
    }
    var paragraphs := Split(content, "\n\n");
    chunks := [];
    var i := 0;
    while i < |paragraphs|
      invariant 0 <= i <= |paragraphs|
      invariant chunks + AllChunks(paragraphs[i..], max) == AllChunks(paragraphs, max)
    {
      assert paragraphs[i..][1..] == paragraphs[i + 1..];
      ghost var rest := AllChunks(paragraphs[i + 1..], max);
      var added := ChunkParagraph(paragraphs[i], max);
      assert (chunks + added) + rest == chunks + (added + rest);
      chunks := chunks + added;
      i := i + 1;
    }
  }

  /** Blank content gives no chunks. */
  lemma BlankContentNoChunks(content: string, max: nat)
    requires forall i :: 0 <= i < |content| ==> IsSpace(content[i])
    ensures WriteChunks(content, max) == []
  {
    TrimSpec(content, IsSpace);
  }

  /** A paragraph that fits the bound becomes exactly one chunk, stripped. */
  lemma ShortParagraphOneChunk(p: string, max: nat)
    requires Strip(p) != "" && |Strip(p)| <= max
    ensures ParagraphChunks(p, max) == [Strip(p)]
  {
  }

  /** Paragraphs are chunked independently and in order. */
  lemma {:induction false} AllChunksAppend(a: seq<string>, b: seq<string>, max: nat)
    ensures AllChunks(a + b, max) == AllChunks(a, max) + AllChunks(b, max)
  {
    if |a| == 0 {
      assert a + b == b;
    } else {
      assert (a + b)[1..] == a[1..] + b;
      AllChunksAppend(a[1..], b, max);
    }
  }

  /** Every chunk of any text is non-empty and stripped, and is within the bound unless
      it is a single sentence of an over-long paragraph. */
  lemma {:induction false} WriteChunksWellFormed(paragraphs: seq<string>, max: nat, k: nat)
    requires k < |AllChunks(paragraphs, max)|
    ensures var c := AllChunks(paragraphs, max)[k];
            c != "" && NoOuterSpace(c)
            && (|c| <= max || exists j :: 0 <= j < |paragraphs| && IsSentenceOf(c, Split(Strip(paragraphs[j]), ". ")))
  {
    var head := ParagraphChunks(paragraphs[0], max);
    if k < |head| {
      assert AllChunks(paragraphs, max)[k] == head[k];
      ParagraphChunk(paragraphs[0], max, k);
    } else {
      assert AllChunks(paragraphs, max)[k] == AllChunks(paragraphs[1..], max)[k - |head|];
      WriteChunksWellFormed(paragraphs[1..], max, k - |head|);
      var c := AllChunks(paragraphs, max)[k];
      if |c| > max {
        var j :| 0 <= j < |paragraphs[1..]| && IsSentenceOf(c, Split(Strip(paragraphs[1..][j]), ". "));
        assert paragraphs[1..][j] == paragraphs[j + 1];
      }
    }
  }

  // ---------------------------------------------------------------------------
  // Index batches
  // ---------------------------------------------------------------------------

  /** The metadata of conversation chunk `i`: the caller's metadata overridden by the
      session id, the chunk index and the ids of the chunk's messages. */
  function ConversationChunkMetadata(md: Metadata, sessionId: string, i: nat, messageIds: seq<string>): Metadata {
    md + map["session_id" := Str(sessionId), "chunk_index" := Int(i), "message_ids" := StrList(messageIds)]
  }

  /** `f"{session_id}_chunk_{i}_{hex}"`; `hex` stands for eight characters of a fresh uuid. */
  function ConversationChunkId(sessionId: string, i: nat, hex: string): string {
    sessionId + "_chunk_" + NatToString(i) + "_" + hex
  }

  function WriteChunkMetadata(md: Metadata, sessionId: string, i: nat): Metadata {
    md + map["session_id" := Str(sessionId), "chunk_index" := Int(i), "content_type" := Str("write_mode")]
  }

  function WriteChunkId(sessionId: string, i: nat, hex: string): string {
    sessionId + "_write_chunk_" + NatToString(i) + "_" + hex
  }

  /** The three parallel lists `index_conversation` hands to the store. */
  method ConversationBatch(chunks: seq<ConversationChunk>, sessionId: string, md: Metadata, hex: nat -> string)
    returns (documents: seq<string>, metadatas: seq<Metadata>, ids: seq<string>)
    ensures |documents| == |metadatas| == |ids| == |chunks|
    ensures forall i :: 0 <= i < |chunks| ==>
              documents[i] == chunks[i].content
              && metadatas[i] == ConversationChunkMetadata(md, sessionId, i, chunks[i].messageIds)
              && ids[i] == ConversationChunkId(sessionId, i, hex(i))
  {
    documents, metadatas, ids := [], [], [];
    var i := 0;
    while i < |chunks|
      invariant 0 <= i <= |chunks|
      invariant |documents| == |metadatas| == |ids| == i
      invariant forall j :: 0 <= j < i ==>
                  documents[j] == chunks[j].content
                  && metadatas[j] == ConversationChunkMetadata(md, sessionId, j, chunks[j].messageIds)
                  && ids[j] == ConversationChunkId(sessionId, j, hex(j))
    {
      documents := documents + [chunks[i].content];
      metadatas := metadatas + [md + map["session_id" := Str(sessionId), "chunk_index" := Int(i), "message_ids" := StrList(chunks[i].messageIds)]];
      ids := ids + [sessionId + "_chunk_" + NatToString(i) + "_" + hex(i)];
      i := i + 1;
    }
  }

  /** The three parallel lists `index_write_content` hands to the store. */
  method WriteBatch(chunks: seq<string>, sessionId: string, md: Metadata, hex: nat -> string)
    returns (documents: seq<string>, metadatas: seq<Metadata>, ids: seq<string>)
    ensures documents == chunks && |metadatas| == |ids| == |chunks|
    ensures forall i :: 0 <= i < |chunks| ==>
              metadatas[i] == WriteChunkMetadata(md, sessionId, i) && ids[i] == WriteChunkId(sessionId, i, hex(i))
  {
    documents, metadatas, ids := [], [], [];
    var i := 0;
    while i < |chunks|
      invariant 0 <= i <= |chunks|
      invariant documents == chunks[..i] && |metadatas| == |ids| == i
      invariant forall j :: 0 <= j < i ==>
                  metadatas[j] == WriteChunkMetadata(md, sessionId, j) && ids[j] == WriteChunkId(sessionId, j, hex(j))
    {
      documents := documents + [chunks[i]];
      metadatas := metadatas + [md + map["session_id" := Str(sessionId), "chunk_index" := Int(i), "content_type" := Str("write_mode")]];
      ids := ids + [sessionId + "_write_chunk_" + NatToString(i) + "_" + hex(i)];
      i := i + 1;
    }
    assert chunks[..i] == chunks;
  }

  /** Chunk metadata always names the session and the chunk's position, whatever the
      caller's metadata said under those keys. */
  lemma ChunkMetadataOverridesCaller(md: Metadata, sessionId: string, i: nat, ids: seq<string>, key: string)
    ensures ConversationChunkMetadata(md, sessionId, i, ids)["session_id"] == Str(sessionId)
    ensures ConversationChunkMetadata(md, sessionId, i, ids)["chunk_index"] == Int(i)
    ensures key in md && key !in {"session_id", "chunk_index", "message_ids"} ==>
              ConversationChunkMetadata(md, sessionId, i, ids)[key] == md[key]
  {
  }

  /** `index_conversation`: chunks the conversation and adds the chunks to the store.
      Nothing is added when there is no chunk; a failing add is swallowed and leaves the
      store as it was. `indexed` tells whether the add went through. */
  method IndexConversation(store: VectorCollection, messages: seq<Message>, sessionId: string, md: Metadata,
                           hex: nat -> string, embed: seq<string> -> Result<seq<seq<real>>, Error>)
    returns (indexed: bool)
    modifies store
    ensures ConversationChunks(messages) == [] ==> !indexed
    ensures !indexed ==> store.docs == old(store.docs)
    ensures indexed ==> exists documents, metadatas, ids ::
              |documents| == |metadatas| == |ids| == |ConversationChunks(messages)|
              && (forall i :: 0 <= i < |documents| ==>
                    documents[i] == ConversationChunks(messages)[i].content
                    && metadatas[i] == ConversationChunkMetadata(md, sessionId, i, ConversationChunks(messages)[i].messageIds)
                    && ids[i] == ConversationChunkId(sessionId, i, hex(i)))
              && embed(documents).Success? && |embed(documents).value| == |documents| && Distinct(ids)
              && store.docs == Batch(ids, documents, embed(documents).value, metadatas) + old(store.docs)
  {
    var chunks := ChunkConversation(messages);
    if |chunks| == 0 {
      return false;
    }
    var documents, metadatas, ids := ConversationBatch(chunks, sessionId, md, hex);
    var o := store.AddDocuments(documents, metadatas, ids, embed);
    indexed := o.Pass?;
  }

  /** `index_write_content`: blank text or text without chunks adds nothing; otherwise the
      write-mode chunks are added, a failing add being swallowed. */
  method IndexWriteContent(store: VectorCollection, content: string, sessionId: string, md: Metadata,
                           hex: nat -> string, embed: seq<string> -> Result<seq<seq<real>>, Error>)
    returns (indexed: bool)
    modifies store
    ensures WriteChunks(content, MaxChunkSize) == [] ==> !indexed
    ensures !indexed ==> store.docs == old(store.docs)
    ensures indexed ==> exists metadatas, ids ::
              var documents := WriteChunks(content, MaxChunkSize);
              |metadatas| == |ids| == |documents|
              && (forall i :: 0 <= i < |documents| ==>
                    metadatas[i] == WriteChunkMetadata(md, sessionId, i) && ids[i] == WriteChunkId(sessionId, i, hex(i)))
              && embed(documents).Success? && |embed(documents).value| == |documents| && Distinct(ids)
              && store.docs == Batch(ids, documents, embed(documents).value, metadatas) + old(store.docs)
  {
    if Strip(content) == "" {
      return false;
    }
    var chunks := ChunkWriteContent(content, MaxChunkSize);
    if |chunks| == 0 {
      return false;
    }
    var documents, metadatas, ids := WriteBatch(chunks, sessionId, md, hex);
    var o := store.AddDocuments(documents, metadatas, ids, embed);
    indexed := o.Pass?;
  }
}
