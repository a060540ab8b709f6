/** Token accounting of backend/app/utils/token_counter.py. The tokenizer itself is a
    parameter `ct`: the number of tokens the model's encoding gives a string. */
module TokenCounter {
  import opened Models

  /** A message in the provider's format: a dictionary with `role` and `content`. */
  type DictMessage = map<string, string>

  /** `d.get(key, '')`. */
  function Get(d: DictMessage, key: string): string {
    if key in d then d[key] else ""
  }

  function MakeDict(role: string, content: string): (d: DictMessage)
    ensures Get(d, "role") == role && Get(d, "content") == content
  {
    map["role" := role, "content" := content]
  }

  /** `{"role": msg.role, "content": msg.content}`. */
  function ToDict(m: Message): (d: DictMessage)
    ensures Get(d, "role") == RoleName(m.role) && Get(d, "content") == m.content
  {
    MakeDict(RoleName(m.role), m.content)
  }

  function ToDicts(ms: seq<Message>): (ds: seq<DictMessage>)
    ensures |ds| == |ms|
    ensures forall i :: 0 <= i < |ms| ==> ds[i] == ToDict(ms[i])
  {
    if |ms| == 0 then [] else [ToDict(ms[0])] + ToDicts(ms[1..])
  }

  lemma ToDictsSuffix(ms: seq<Message>, k: nat)
    requires k <= |ms|
    ensures ToDicts(ms[k..]) == ToDicts(ms)[k..]
  {
  }

  /** The fixed per-message formatting overhead. */
  const MessageOverhead: nat := 4

  /** `count_message_tokens`. */
  function MessageTokens(ct: string -> nat, m: Message): nat {
    ct(RoleName(m.role)) + ct(m.content) + MessageOverhead
  }

  /** `count_messages_tokens`: the sum of the per-message counts. */
  function MessagesTokens(ct: string -> nat, ms: seq<Message>): (n: nat)
    ensures n >= MessageOverhead * |ms|
  {
    if |ms| == 0 then 0 else MessageTokens(ct, ms[0]) + MessagesTokens(ct, ms[1..])
  }

  /** `count_dict_message_tokens`: a missing `role` or `content` counts as `''`. */
  function DictMessageTokens(ct: string -> nat, d: DictMessage): nat {
    ct(Get(d, "role")) + ct(Get(d, "content")) + MessageOverhead
  }

  /** `count_dict_messages_tokens`. */
  function DictMessagesTokens(ct: string -> nat, ds: seq<DictMessage>): (n: nat)
    ensures n >= MessageOverhead * |ds|
  {
    if |ds| == 0 then 0 else DictMessageTokens(ct, ds[0]) + DictMessagesTokens(ct, ds[1..])
  }

  /** The encoder gives the empty string no tokens. */
  predicate EmptyIsFree(ct: string -> nat) {
    ct("") == 0
  }

  /** A message always costs more than its content alone. */
  lemma MessageCostsMoreThanContent(ct: string -> nat, m: Message)
    ensures MessageTokens(ct, m) > ct(m.content)
  {
  }

  /** A dictionary with neither key costs only the overhead. */
  lemma EmptyDictCostsOverhead(ct: string -> nat)
    requires EmptyIsFree(ct)
    ensures DictMessageTokens(ct, map[]) == MessageOverhead
  {
  }

  lemma NoMessagesNoTokens(ct: string -> nat)
    ensures MessagesTokens(ct, []) == 0 && DictMessagesTokens(ct, []) == 0
  {
  }

  /** Counting is additive over concatenation of dictionary lists. */
  lemma {:induction false} DictMessagesTokensAppend(ct: string -> nat, a: seq<DictMessage>, b: seq<DictMessage>)
    ensures DictMessagesTokens(ct, a + b) == DictMessagesTokens(ct, a) + DictMessagesTokens(ct, b)
  {
    if |a| == 0 {
      assert a + b == b;
    } else {
      assert (a + b)[1..] == a[1..] + b;
      DictMessagesTokensAppend(ct, a[1..], b);
    }
  }

  /** Counting is additive over concatenation of message lists. */
  lemma {:induction false} MessagesTokensAppend(ct: string -> nat, a: seq<Message>, b: seq<Message>)
    ensures MessagesTokens(ct, a + b) == MessagesTokens(ct, a) + MessagesTokens(ct, b)
  {
    if |a| == 0 {
      assert a + b == b;
    } else {
      assert (a + b)[1..] == a[1..] + b;
      MessagesTokensAppend(ct, a[1..], b);
    }
  }

  /** Counting a message list and counting its dictionary form agree. */
  lemma {:induction false} DictFormCountsTheSame(ct: string -> nat, ms: seq<Message>)
    ensures DictMessagesTokens(ct, ToDicts(ms)) == MessagesTokens(ct, ms)
  {
    if |ms| > 0 {
      assert ToDicts(ms)[1..] == ToDicts(ms[1..]);
      DictFormCountsTheSame(ct, ms[1..]);
    }
  }

  /** A suffix of a dictionary list never costs more than the whole list. */
  lemma SuffixCostsNoMore(ct: string -> nat, ds: seq<DictMessage>, k: nat)
    requires k <= |ds|
    ensures DictMessagesTokens(ct, ds[k..]) <= DictMessagesTokens(ct, ds)
  {
    assert ds == ds[..k] + ds[k..];
    DictMessagesTokensAppend(ct, ds[..k], ds[k..]);
  }
}
