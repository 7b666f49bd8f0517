/**
 * The client-side query cache of the chat and the two updaters that the chat
 * context applies to its paged message entry: the optimistic insertion of the
 * user's question and the per-chunk write of the streamed answer.
 */
module ChatCache {
  import opened Wrappers

  /** Id of the in-flight assistant message until the server's copy replaces it. */
  const AI_RESPONSE_ID: string := "ai-response"

  datatype Message = Message(id: string, text: string, isUserMessage: bool, createdAt: string)

  /** One page of the paged conversation query: its messages, newest first, and its continuation cursor. */
  datatype Page = Page(messages: seq<Message>, nextCursor: Option<string>)

  /** The cached value of a paged ("infinite") query. */
  datatype InfiniteData = InfiniteData(pages: seq<Page>, pageParams: seq<Option<string>>)

  /**
   * A cache entry is found by exact key. The key says whether the entry belongs to
   * a plain or a paged query and which input the query was called with.
   */
  datatype QueryKind = Plain | Infinite
  datatype QueryInput = NoInput | FileInput(fileId: string) | PagedInput(fileId: string, limit: int)
  datatype CacheKey = CacheKey(kind: QueryKind, input: QueryInput)

  datatype CacheValue = InfiniteValue(data: InfiniteData) | PlainValue(messages: seq<Message>)

  type Cache = map<CacheKey, CacheValue>

  /** The paged value held under `key`, if any. */
  function GetInfiniteData(cache: Cache, key: CacheKey): Option<InfiniteData> {
    if key in cache && cache[key].InfiniteValue? then Some(cache[key].data) else None
  }

  /** All messages of all pages, page after page, each page's in its own order. */
  function Flat(pages: seq<Page>): seq<Message> {
    if |pages| == 0 then [] else pages[0].messages + Flat(pages[1..])
  }

  /** How many of `messages` carry `id`. */
  function CountId(messages: seq<Message>, id: string): nat {
    if |messages| == 0 then 0
    else (if messages[0].id == id then 1 else 0) + CountId(messages[1..], id)
  }

  /** Some message of the page carries the sentinel id. */
  predicate PageHasAiResponse(p: Page) {
    exists j :: 0 <= j < |p.messages| && p.messages[j].id == AI_RESPONSE_ID
  }

  /** Some page holds a message with the sentinel id. */
  predicate HasAiResponse(pages: seq<Page>) {
    exists i :: 0 <= i < |pages| && PageHasAiResponse(pages[i])
  }

  /**
   * The optimistic updater run when a question is sent. It fails with a
   * TypeError when the cached value has no page at all, because it assigns
   * to a field of the missing first page.
   */
  function AddOptimistic(prev: Option<InfiniteData>, userMessage: Message): (r: Result<InfiniteData>)
    ensures prev.None? ==> r == Ok(InfiniteData([], []))
    ensures prev.Some? && prev.value.pages == [] ==> r.Err?
    ensures prev.Some? && prev.value.pages != [] ==>
      && r.Ok?
      && r.value.pageParams == prev.value.pageParams
      && |r.value.pages| == |prev.value.pages|
      && r.value.pages[0].messages == [userMessage] + prev.value.pages[0].messages
      && r.value.pages[0].nextCursor == prev.value.pages[0].nextCursor
      && (forall i :: 1 <= i < |r.value.pages| ==> r.value.pages[i] == prev.value.pages[i])
  {
    match prev
    case None => Ok(InfiniteData([], []))
    case Some(d) =>
      if |d.pages| == 0 then Err("TypeError")
      else
        var latest := d.pages[0];
        Ok(d.(pages := d.pages[0 := latest.(messages := [userMessage] + latest.messages)]))
  }

  /** The optimistic update adds exactly the user's message, in front of everything cached. */
  lemma AddOptimisticAddsOneMessage(d: InfiniteData, userMessage: Message)
    requires d.pages != []
    ensures Flat(AddOptimistic(Some(d), userMessage).value.pages) == [userMessage] + Flat(d.pages)
  {
    var r := AddOptimistic(Some(d), userMessage).value;
    assert r.pages[1..] == d.pages[1..];
  }

  /** A question whose id is not the sentinel does not make a placeholder appear. */
  lemma AddOptimisticAddsNoPlaceholder(d: InfiniteData, userMessage: Message)
    requires d.pages != [] && !HasAiResponse(d.pages) && userMessage.id != AI_RESPONSE_ID
    ensures !HasAiResponse(AddOptimistic(Some(d), userMessage).value.pages)
  {
    var r := AddOptimistic(Some(d), userMessage).value;
    AddOptimisticAddsOneMessage(d, userMessage);
    CountIdAppend([userMessage], Flat(d.pages), AI_RESPONSE_ID);
    HasAiResponseIffCount(d.pages);
    HasAiResponseIffCount(r.pages);
  }

  /** The assistant message the stream updater inserts. */
  function Placeholder(acc: string, createdAt: string): Message {
    Message(AI_RESPONSE_ID, acc, false, createdAt)
  }

  /** Overwrites the text of every sentinel-id message with `acc`. */
  function SetAiText(messages: seq<Message>, acc: string): seq<Message> {
    seq(|messages|, j requires 0 <= j < |messages| =>
      if messages[j].id == AI_RESPONSE_ID then messages[j].(text := acc) else messages[j])
  }

  /** The messages of page 0 after one stream write. */
  function StreamPageMessages(p: Page, created: bool, acc: string, createdAt: string): seq<Message> {
    if !created then [Placeholder(acc, createdAt)] + p.messages else SetAiText(p.messages, acc)
  }

  /**
   * The updater run after every read of the answer stream: it inserts the
   * placeholder at the head of page 0 unless some page already holds one,
   * and otherwise rewrites the placeholder's text in page 0.
   */
  function StreamUpdate(prev: Option<InfiniteData>, acc: string, createdAt: string): (r: InfiniteData)
    ensures prev.None? ==> r == InfiniteData([], [])
    ensures prev.Some? ==>
      && r.pageParams == prev.value.pageParams
      && |r.pages| == |prev.value.pages|
      && (forall i :: 1 <= i < |r.pages| ==> r.pages[i] == prev.value.pages[i])
    ensures prev.Some? && prev.value.pages != [] ==>
      && r.pages[0].nextCursor == prev.value.pages[0].nextCursor
      && r.pages[0].messages == StreamPageMessages(prev.value.pages[0], HasAiResponse(prev.value.pages), acc, createdAt)
  {
    match prev
    case None => InfiniteData([], [])
    case Some(d) =>
      var created := HasAiResponse(d.pages);
      var updated := seq(|d.pages|, i requires 0 <= i < |d.pages| =>
        if i == 0 then d.pages[0].(messages := StreamPageMessages(d.pages[0], created, acc, createdAt))
        else d.pages[i]);
      d.(pages := updated)
  }

  // ----- counting sentinel ids -----

  lemma {:induction false} CountIdAppend(a: seq<Message>, b: seq<Message>, id: string)
    ensures CountId(a + b, id) == CountId(a, id) + CountId(b, id)
  {
    if |a| == 0 {
      assert a + b == b;
    } else {
      assert (a + b)[1..] == a[1..] + b;
      CountIdAppend(a[1..], b, id);
    }
  }

  /** A page holds a placeholder exactly when it holds at least one sentinel id. */
  lemma {:induction false} PageHasAiResponseIffCount(messages: seq<Message>)
    ensures PageHasAiResponse(Page(messages, None)) <==> CountId(messages, AI_RESPONSE_ID) > 0
  {
    if |messages| > 0 {
      PageHasAiResponseIffCount(messages[1..]);
      if PageHasAiResponse(Page(messages[1..], None)) {
        var j :| 0 <= j < |messages[1..]| && messages[1..][j].id == AI_RESPONSE_ID;
        assert messages[j + 1].id == AI_RESPONSE_ID;
      }
      if PageHasAiResponse(Page(messages, None)) && messages[0].id != AI_RESPONSE_ID {
        var j :| 0 <= j < |messages| && messages[j].id == AI_RESPONSE_ID;
        assert messages[1..][j - 1].id == AI_RESPONSE_ID;
      }
    }
  }

  /** The `some`-of-`some` test agrees with counting sentinel ids over all pages. */
  lemma {:induction false} HasAiResponseIffCount(pages: seq<Page>)
    ensures HasAiResponse(pages) <==> CountId(Flat(pages), AI_RESPONSE_ID) > 0
  {
    if |pages| > 0 {
      HasAiResponseIffCount(pages[1..]);
      CountIdAppend(pages[0].messages, Flat(pages[1..]), AI_RESPONSE_ID);
      PageHasAiResponseIffCount(pages[0].messages);
      assert PageHasAiResponse(pages[0]) <==> PageHasAiResponse(Page(pages[0].messages, None));
      if HasAiResponse(pages[1..]) {
        var i :| 0 <= i < |pages[1..]| && PageHasAiResponse(pages[1..][i]);
        assert PageHasAiResponse(pages[i + 1]);
      }
      if HasAiResponse(pages) && !PageHasAiResponse(pages[0]) {
        var i :| 0 <= i < |pages| && PageHasAiResponse(pages[i]);
        assert PageHasAiResponse(pages[1..][i - 1]);
      }
    }
  }

  /** Rewriting texts keeps every id, hence the number of sentinel ids. */
  lemma {:induction false} SetAiTextKeepsCount(messages: seq<Message>, acc: string, id: string)
    ensures CountId(SetAiText(messages, acc), id) == CountId(messages, id)
  {
    if |messages| > 0 {
      assert SetAiText(messages, acc)[1..] == SetAiText(messages[1..], acc);
      SetAiTextKeepsCount(messages[1..], acc, id);
    }
  }

  /** Messages without the sentinel id are left as they are by the text rewrite. */
  lemma SetAiTextNoSentinel(messages: seq<Message>, acc: string)
    requires CountId(messages, AI_RESPONSE_ID) == 0
    ensures SetAiText(messages, acc) == messages
  {
    PageHasAiResponseIffCount(messages);
    assert !PageHasAiResponse(Page(messages, None));
  }

  /** The text rewrite keeps every message's id, so a page with a sentinel still has one. */
  lemma SetAiTextKeepsSentinel(messages: seq<Message>, acc: string)
    requires PageHasAiResponse(Page(messages, None))
    ensures PageHasAiResponse(Page(SetAiText(messages, acc), None))
  {
    var j :| 0 <= j < |messages| && messages[j].id == AI_RESPONSE_ID;
    assert SetAiText(messages, acc)[j].id == AI_RESPONSE_ID;
  }

  /** A second text rewrite overrides the first. */
  lemma SetAiTextTwice(messages: seq<Message>, a: string, b: string)
    ensures SetAiText(SetAiText(messages, a), b) == SetAiText(messages, b)
  {
  }

  /** Flattening a value whose first page was replaced. */
  lemma FlatReplaceFirst(pages: seq<Page>, p: Page)
    requires pages != []
    ensures Flat(pages[0 := p]) == p.messages + Flat(pages[1..])
  {
    assert pages[0 := p][1..] == pages[1..];
  }

  /**
   * One stream write leaves at most one placeholder if there was at most one:
   * it inserts one only when there was none, and otherwise only rewrites texts.
   */
  lemma StreamUpdateKeepsAtMostOne(d: InfiniteData, acc: string, createdAt: string)
    requires CountId(Flat(d.pages), AI_RESPONSE_ID) <= 1
    ensures var r := StreamUpdate(Some(d), acc, createdAt);
      && CountId(Flat(r.pages), AI_RESPONSE_ID) <= 1
      && (d.pages != [] ==> CountId(Flat(r.pages), AI_RESPONSE_ID) == 1)
  {
    var r := StreamUpdate(Some(d), acc, createdAt);
    if d.pages != [] {
      assert r.pages == d.pages[0 := r.pages[0]];
      FlatReplaceFirst(d.pages, r.pages[0]);
      CountIdAppend(r.pages[0].messages, Flat(d.pages[1..]), AI_RESPONSE_ID);
      CountIdAppend(d.pages[0].messages, Flat(d.pages[1..]), AI_RESPONSE_ID);
      assert Flat(d.pages) == d.pages[0].messages + Flat(d.pages[1..]);
      HasAiResponseIffCount(d.pages);
      if HasAiResponse(d.pages) {
        SetAiTextKeepsCount(d.pages[0].messages, acc, AI_RESPONSE_ID);
      } else {
        assert r.pages[0].messages == [Placeholder(acc, createdAt)] + d.pages[0].messages;
        CountIdAppend([Placeholder(acc, createdAt)], d.pages[0].messages, AI_RESPONSE_ID);
      }
    } else {
      assert r.pages == [];
    }
  }
}
