/**
 * The chat context provider: the input text, the loading flag and the backup
 * of the last question, and the callbacks of the send-message mutation that
 * reconcile the cached conversation with the streamed answer.
 */
module ChatContext {
  import opened Wrappers
  import opened ChatCache

  /** The answer stream, already decoded: its chunks, and whether reading fails after the last of them. */
  datatype Body = Body(chunks: seq<string>, aborted: bool)

  /** What `fetch` gives: a network failure, or a response with its status and possibly null body. */
  datatype FetchResult = NetworkError | Responded(ok: bool, body: Option<Body>)

  /** What `onMutate` hands to the later callbacks. */
  datatype MutateContext = MutateContext(previousMessages: seq<Message>)

  /** The key `getInfiniteData()` reads at the start of a send: it is called without an input. */
  const UNKEYED: CacheKey := CacheKey(Infinite, NoInput)

  /** `mutationFn`: a failed request or a non-ok status throws; otherwise the body (which may be null) is returned. */
  function SendRequest(fetched: FetchResult): (r: Result<Option<Body>>)
    ensures r.Ok? <==> fetched.Responded? && fetched.ok
    ensures r.Ok? ==> r.value == fetched.body
    ensures fetched.Responded? && !fetched.ok ==> r == Err("Failed to send message")
  {
    match fetched
    case NetworkError => Err("TypeError")
    case Responded(ok, body) => if ok then Ok(body) else Err("Failed to send message")
  }

  /** The context `onMutate` returns: every message of the value read under the input-less key. */
  function PreviousMessages(cache: Cache): seq<Message> {
    match GetInfiniteData(cache, UNKEYED)
    case None => []
    case Some(d) => Flat(d.pages)
  }

  /**
   * The capture sees only the input-less entry: a write under any other key,
   * the paged one included, leaves it as it was, and with no such entry it is empty.
   */
  lemma CaptureReadsOnlyUnkeyed(cache: Cache, key: CacheKey, v: CacheValue)
    requires key != UNKEYED
    ensures PreviousMessages(cache[key := v]) == PreviousMessages(cache)
    ensures UNKEYED !in cache ==> PreviousMessages(cache) == []
  {
    assert GetInfiniteData(cache[key := v], UNKEYED) == GetInfiniteData(cache, UNKEYED);
  }

  // ----- the read loop -----

  /**
   * The decoded values of the successive reads of a body: one per chunk, then
   * the empty string that decoding the final, done read gives.
   */
  function Reads(b: Body): seq<string> {
    b.chunks + [""]
  }

  /** How many reads run the cache updater: all of them, or all but the failing last one. */
  function ReadCount(b: Body): nat {
    if b.aborted then |b.chunks| else |b.chunks| + 1
  }

  /** The running answer: the reads so far, joined in order. */
  function Concat(s: seq<string>): string {
    if |s| == 0 then "" else Concat(s[..|s| - 1]) + s[|s| - 1]
  }

  /** `r` differs from `d` at most in the messages of page 0. */
  predicate SameButFirstMessages(r: InfiniteData, d: InfiniteData) {
    && r.pageParams == d.pageParams
    && |r.pages| == |d.pages|
    && (r.pages != [] ==> r.pages[0].nextCursor == d.pages[0].nextCursor)
    && (forall i :: 1 <= i < |r.pages| ==> r.pages[i] == d.pages[i])
  }

  /**
   * The paged value after the first `n` reads have each run the stream updater.
   * However many reads run, only the messages of page 0 ever change.
   */
  function Replay(d: Option<InfiniteData>, decoded: seq<string>, clock: seq<string>, n: nat): (r: Option<InfiniteData>)
    requires n <= |decoded| && n <= |clock|
    ensures n == 0 ==> r == d
    ensures n > 0 ==> r.Some?
    ensures d.None? && n > 0 ==> r.value == InfiniteData([], [])
    ensures d.Some? ==> SameButFirstMessages(r.value, d.value)
  {
    if n == 0 then d
    else Some(StreamUpdate(Replay(d, decoded, clock, n - 1), Concat(decoded[..n]), clock[n - 1]))
  }

  /** The whole cache after the first `n` reads: only the entry under `key` is written. */
  function AfterReads(cache: Cache, key: CacheKey, decoded: seq<string>, clock: seq<string>, n: nat): (r: Cache)
    requires n <= |decoded| && n <= |clock|
    ensures n == 0 ==> r == cache
    ensures forall k :: k != key ==> (k in r <==> k in cache)
    ensures forall k :: k != key && k in cache ==> r[k] == cache[k]
    ensures n > 0 ==> key in r && r[key].InfiniteValue?
    ensures n > 0 && GetInfiniteData(cache, key).Some? ==>
      SameButFirstMessages(r[key].data, GetInfiniteData(cache, key).value)
  {
    if n == 0 then cache
    else cache[key := InfiniteValue(Replay(GetInfiniteData(cache, key), decoded, clock, n).value)]
  }

  /** One more read extends `AfterReads` by one write of the stream updater. */
  lemma AfterReadsStep(cache: Cache, key: CacheKey, decoded: seq<string>, clock: seq<string>, n: nat)
    requires n < |decoded| && n < |clock|
    ensures var before := AfterReads(cache, key, decoded, clock, n);
      AfterReads(cache, key, decoded, clock, n + 1)
        == before[key := InfiniteValue(StreamUpdate(GetInfiniteData(before, key), Concat(decoded[..n + 1]), clock[n]))]
  {
    var before := AfterReads(cache, key, decoded, clock, n);
    assert GetInfiniteData(before, key) == Replay(GetInfiniteData(cache, key), decoded, clock, n);
  }

  /**
   * After the k-th read the running answer is the concatenation of the first k
   * chunks, and the final done read adds nothing to it.
   */
  lemma {:induction false} AccumulatedIsConcatenation(b: Body, k: nat)
    requires k <= |b.chunks| + 1
    ensures k <= |b.chunks| ==> Concat(Reads(b)[..k]) == Concat(b.chunks[..k])
    ensures k == |b.chunks| + 1 ==> Concat(Reads(b)[..k]) == Concat(b.chunks)
  {
    if k <= |b.chunks| {
      assert Reads(b)[..k] == b.chunks[..k];
    } else {
      assert Reads(b)[..k] == b.chunks + [""];
      assert (b.chunks + [""])[..|b.chunks|] == b.chunks;
      assert b.chunks[..|b.chunks|] == b.chunks;
    }
  }

  /** Concat of the reads up to `n+1` extends the reads up to `n` by read `n`. */
  lemma ConcatStep(s: seq<string>, n: nat)
    requires n < |s|
    ensures Concat(s[..n + 1]) == Concat(s[..n]) + s[n]
  {
    assert s[..n + 1][..n] == s[..n];
  }

  /** The optimistic value followed by the stream: page 0 starts with the answer, then the question. */
  predicate StartsWithPlaceholder(d: InfiniteData, first: InfiniteData, acc: string, createdAt: string) {
    && first.pages != []
    && d.pageParams == first.pageParams
    && |d.pages| == |first.pages|
    && (forall i :: 1 <= i < |d.pages| ==> d.pages[i] == first.pages[i])
    && d.pages[0] == first.pages[0].(messages := [Placeholder(acc, createdAt)] + first.pages[0].messages)
  }

  /**
   * From a value with a first page and no placeholder, every number n >= 1 of
   * reads leaves one placeholder at the head of page 0, created at the first
   * write and holding the running answer of the n-th; nothing else changes.
   */
  lemma {:induction false} ReplayKeepsPlaceholderAtHead(d: InfiniteData, decoded: seq<string>, clock: seq<string>, n: nat)
    requires 1 <= n <= |decoded| && n <= |clock|
    requires d.pages != [] && !HasAiResponse(d.pages)
    ensures StartsWithPlaceholder(Replay(Some(d), decoded, clock, n).value, d, Concat(decoded[..n]), clock[0])
  {
    if n > 1 {
      ReplayKeepsPlaceholderAtHead(d, decoded, clock, n - 1);
      var prev := Replay(Some(d), decoded, clock, n - 1).value;
      var acc := Concat(decoded[..n]);
      assert PageHasAiResponse(prev.pages[0]) by {
        assert prev.pages[0].messages[0].id == AI_RESPONSE_ID;
      }
      assert HasAiResponse(prev.pages);
      var r := Replay(Some(d), decoded, clock, n).value;
      assert r == StreamUpdate(Some(prev), acc, clock[n - 1]);
      var old0 := d.pages[0].messages;
      assert forall j :: 0 <= j < |old0| ==> old0[j].id != AI_RESPONSE_ID by {
        assert !PageHasAiResponse(d.pages[0]);
      }
      calc {
        r.pages[0].messages;
        SetAiText([Placeholder(Concat(decoded[..n - 1]), clock[0])] + old0, acc);
        { assert SetAiText(old0, acc) == old0; }
        [Placeholder(acc, clock[0])] + old0;
      }
    }
  }

  /** At most one placeholder in the value read. */
  predicate AtMostOnePlaceholder(d: Option<InfiniteData>) {
    d.Some? ==> CountId(Flat(d.value.pages), AI_RESPONSE_ID) <= 1
  }

  /** However many chunks arrive, the stream writes never leave two placeholders. */
  lemma {:induction false} ReplayAtMostOnePlaceholder(d: Option<InfiniteData>, decoded: seq<string>, clock: seq<string>, n: nat)
    requires n <= |decoded| && n <= |clock|
    requires AtMostOnePlaceholder(d)
    ensures AtMostOnePlaceholder(Replay(d, decoded, clock, n))
  {
    if n > 0 {
      ReplayAtMostOnePlaceholder(d, decoded, clock, n - 1);
      var prev := Replay(d, decoded, clock, n - 1);
      if prev.Some? {
        StreamUpdateKeepsAtMostOne(prev.value, Concat(decoded[..n]), clock[n - 1]);
      } else {
        assert Replay(d, decoded, clock, n).value == InfiniteData([], []);
      }
    }
  }

  /**
   * The newest item comes first: after the optimistic insert of a question and
   * at least one read, page 0 begins with the answer and then the question.
   */
  lemma AnswerPrecedesQuestion(d: InfiniteData, user: Message, decoded: seq<string>, clock: seq<string>, n: nat)
    requires 1 <= n <= |decoded| && n <= |clock|
    requires d.pages != [] && !HasAiResponse(d.pages) && user.id != AI_RESPONSE_ID
    ensures var first := AddOptimistic(Some(d), user).value;
      var r := Replay(Some(first), decoded, clock, n).value;
      && |r.pages| == |d.pages|
      && r.pages[0].messages == [Placeholder(Concat(decoded[..n]), clock[0]), user] + d.pages[0].messages
      && r.pageParams == d.pageParams
      && (forall i :: 1 <= i < |r.pages| ==> r.pages[i] == d.pages[i])
  {
    var first := AddOptimistic(Some(d), user).value;
    AddOptimisticAddsNoPlaceholder(d, user);
    ReplayKeepsPlaceholderAtHead(first, decoded, clock, n);
    var r := Replay(Some(first), decoded, clock, n).value;
    var p := Placeholder(Concat(decoded[..n]), clock[0]);
    assert StartsWithPlaceholder(r, first, Concat(decoded[..n]), clock[0]);
    assert r.pages[0].messages == [p] + first.pages[0].messages;
    assert first.pages[0].messages == [user] + d.pages[0].messages;
    assert [p] + ([user] + d.pages[0].messages) == [p, user] + d.pages[0].messages;
    forall i | 1 <= i < |r.pages| ensures r.pages[i] == d.pages[i] {
      assert r.pages[i] == first.pages[i];
    }
  }

  /** The answer a completed stream leaves in the placeholder is the concatenation of its chunks. */
  lemma CompletedAnswerIsConcatenation(d: InfiniteData, b: Body, clock: seq<string>)
    requires !b.aborted && |clock| >= |Reads(b)|
    requires d.pages != [] && !HasAiResponse(d.pages)
    ensures var r := Replay(Some(d), Reads(b), clock, ReadCount(b)).value;
      && |r.pages| == |d.pages|
      && r.pages[0].messages == [Placeholder(Concat(b.chunks), clock[0])] + d.pages[0].messages
  {
    ReplayKeepsPlaceholderAtHead(d, Reads(b), clock, ReadCount(b));
    AccumulatedIsConcatenation(b, ReadCount(b));
  }

  /**
   * From a value that already holds a sentinel, on any page, no read inserts a
   * placeholder: after n >= 1 reads, page 0 is its old messages with every
   * sentinel text replaced by the n-th running answer.
   */
  lemma {:induction false} ReplayOverStaleSentinel(d: InfiniteData, decoded: seq<string>, clock: seq<string>, n: nat)
    requires 1 <= n <= |decoded| && n <= |clock|
    requires HasAiResponse(d.pages)
    ensures var r := Replay(Some(d), decoded, clock, n).value;
      && HasAiResponse(r.pages)
      && r.pages[0].messages == SetAiText(d.pages[0].messages, Concat(decoded[..n]))
  {
    var r := Replay(Some(d), decoded, clock, n).value;
    if n > 1 {
      ReplayOverStaleSentinel(d, decoded, clock, n - 1);
      SetAiTextTwice(d.pages[0].messages, Concat(decoded[..n - 1]), Concat(decoded[..n]));
    }
    var i :| 0 <= i < |d.pages| && PageHasAiResponse(d.pages[i]);
    if i == 0 {
      SetAiTextKeepsSentinel(d.pages[0].messages, Concat(decoded[..n]));
      assert PageHasAiResponse(r.pages[0]);
    } else {
      assert r.pages[i] == d.pages[i];
    }
  }

  /**
   * A sentinel left on a later page by an earlier exchange swallows the new
   * answer: page 0 keeps the question on top with no placeholder, and the
   * stale message keeps its old text.
   */
  lemma StaleSentinelOnLaterPage(d: InfiniteData, user: Message, decoded: seq<string>, clock: seq<string>, n: nat, i: nat)
    requires 1 <= n <= |decoded| && n <= |clock|
    requires 1 <= i < |d.pages| && PageHasAiResponse(d.pages[i])
    requires !PageHasAiResponse(d.pages[0]) && user.id != AI_RESPONSE_ID
    ensures var r := Replay(Some(AddOptimistic(Some(d), user).value), decoded, clock, n).value;
      && r.pages[0].messages == [user] + d.pages[0].messages
      && r.pages[i] == d.pages[i]
  {
    var first := AddOptimistic(Some(d), user).value;
    var m := first.pages[0].messages;
    assert PageHasAiResponse(first.pages[i]);
    ReplayOverStaleSentinel(first, decoded, clock, n);
    assert !PageHasAiResponse(Page(m, None)) by {
      forall j | 0 <= j < |m| ensures m[j].id != AI_RESPONSE_ID {
        if j > 0 {
          assert m[j] == d.pages[0].messages[j - 1];
        }
      }
    }
    PageHasAiResponseIffCount(m);
    SetAiTextNoSentinel(m, Concat(decoded[..n]));
  }

  /**
   * A sentinel heading page 0, as every completed exchange leaves it, takes the
   * new answer: the new question stays on top, and the old assistant message
   * below it is overwritten with the new running answer.
   */
  lemma StaleSentinelOnFirstPage(d: InfiniteData, user: Message, decoded: seq<string>, clock: seq<string>, n: nat, stale: Message, rest: seq<Message>)
    requires 1 <= n <= |decoded| && n <= |clock|
    requires d.pages != [] && d.pages[0].messages == [stale] + rest
    requires stale.id == AI_RESPONSE_ID && CountId(rest, AI_RESPONSE_ID) == 0 && user.id != AI_RESPONSE_ID
    ensures var r := Replay(Some(AddOptimistic(Some(d), user).value), decoded, clock, n).value;
      r.pages[0].messages == [user, stale.(text := Concat(decoded[..n]))] + rest
  {
    var first := AddOptimistic(Some(d), user).value;
    var m := first.pages[0].messages;
    var acc := Concat(decoded[..n]);
    assert m == [user, stale] + rest;
    assert m[1].id == AI_RESPONSE_ID;
    assert PageHasAiResponse(first.pages[0]);
    ReplayOverStaleSentinel(first, decoded, clock, n);
    SetAiTextNoSentinel(rest, acc);
    assert SetAiText(m, acc) == [user, stale.(text := acc)] + rest by {
      forall j | 2 <= j < |m| ensures SetAiText(m, acc)[j] == rest[j - 2] {
        assert m[j] == rest[j - 2];
        assert SetAiText(rest, acc)[j - 2] == rest[j - 2];
      }
    }
  }

  /** The provider's state and its mutation callbacks. */
  class ChatProvider {
    const fileId: string
    /** The page-size limit of the paged conversation query (`INFINITE_QUERY_LIMIT`). */
    const limit: int
    var message: string
    var isLoading: bool
    var backupMessage: string
    var cache: Cache
    /** Destructive notifications shown so far. */
    var toasts: nat
    /** The file ids whose conversation queries were invalidated, in order. */
    var invalidated: seq<string>
    /** The loading flag as each stream write to the cache found it, in order. */
    ghost var loadingAtStreamWrites: seq<bool>

    constructor (fileId: string, limit: int, cache: Cache)
      ensures this.fileId == fileId && this.limit == limit && this.cache == cache
      ensures message == "" && !isLoading && backupMessage == ""
      ensures toasts == 0 && invalidated == [] && loadingAtStreamWrites == []
    {
      this.fileId := fileId;
      this.limit := limit;
      this.cache := cache;
      message := "";
      isLoading := false;
      backupMessage := "";
      toasts := 0;
      invalidated := [];
      loadingAtStreamWrites := [];
    }

    /** The key of the paged conversation query the updaters write. */
    function PagedKey(): CacheKey {
      CacheKey(Infinite, PagedInput(fileId, limit))
    }

    /** The key the rollback writes: the plain query called with the file id alone. */
    function FileKey(): CacheKey {
      CacheKey(Plain, FileInput(fileId))
    }

    /** `handleInputChange` */
    method HandleInputChange(value: string)
      modifies this`message
      ensures message == value
    {
      message := value;
    }

    /** `onMutate`: back up and clear the input, insert the question optimistically, start loading. */
    method OnMutate(variables: string, uuid: string, now: string) returns (context: Option<MutateContext>)
      modifies this`backupMessage, this`message, this`cache, this`isLoading
      ensures backupMessage == variables && message == ""
      ensures var optimistic := AddOptimistic(GetInfiniteData(old(cache), PagedKey()), Message(uuid, variables, true, now));
        && (optimistic.Ok? ==>
              && cache == old(cache)[PagedKey() := InfiniteValue(optimistic.value)]
              && isLoading
              && context == Some(MutateContext(PreviousMessages(old(cache)))))
        && (optimistic.Err? ==> cache == old(cache) && isLoading == old(isLoading) && context == None)
    {
      backupMessage := variables;
      message := "";
      var prevMessages := GetInfiniteData(cache, UNKEYED);
      var optimistic := AddOptimistic(GetInfiniteData(cache, PagedKey()), Message(uuid, variables, true, now));
      if optimistic.Err? {
        return None;
      }
      cache := cache[PagedKey() := InfiniteValue(optimistic.value)];
      isLoading := true;
      context := Some(MutateContext(if prevMessages.Some? then Flat(prevMessages.value.pages) else []));
      assert context.value.previousMessages == PreviousMessages(old(cache));
    }

    /** `onError`: restore the input and write the captured messages under the file-id key. */
    method OnError(context: Option<MutateContext>)
      modifies this`message, this`cache
      ensures message == old(backupMessage)
      ensures cache == old(cache)[FileKey() := PlainValue(if context.Some? then context.value.previousMessages else [])]
      ensures PagedKey() in old(cache) ==> PagedKey() in cache && cache[PagedKey()] == old(cache)[PagedKey()]
    {
      message := backupMessage;
      cache := cache[FileKey() := PlainValue(if context.Some? then context.value.previousMessages else [])];
    }

    /**
     * `onSuccess`: stop loading, then either report a missing body or read the
     * stream to its end, writing the running answer into the cache after every read.
     * Returns whether a read threw. Loading has stopped before the first write.
     */
    method OnSuccess(body: Option<Body>, clock: seq<string>) returns (threw: bool)
      requires body.Some? ==> |clock| >= |Reads(body.value)|
      modifies this`isLoading, this`cache, this`toasts, this`loadingAtStreamWrites
      ensures !isLoading
      ensures body.None? ==>
        !threw && cache == old(cache) && toasts == old(toasts) + 1 && loadingAtStreamWrites == old(loadingAtStreamWrites)
      ensures body.Some? ==>
        && toasts == old(toasts)
        && threw == body.value.aborted
        && cache == AfterReads(old(cache), PagedKey(), Reads(body.value), clock, ReadCount(body.value))
        && |loadingAtStreamWrites| == |old(loadingAtStreamWrites)| + ReadCount(body.value)
      ensures old(loadingAtStreamWrites) <= loadingAtStreamWrites
      ensures forall i :: |old(loadingAtStreamWrites)| <= i < |loadingAtStreamWrites| ==> !loadingAtStreamWrites[i]
    {
      isLoading := false;
      if body.None? {
        toasts := toasts + 1;
        return false;
      }
      var b := body.value;
      var decoded := Reads(b);
      var done := false;
      var acc := "";
      var k := 0;
      while !done
        invariant 0 <= k <= |decoded|
        invariant done <==> k == |decoded|
        invariant k > |b.chunks| ==> !b.aborted
        invariant acc == Concat(decoded[..k])
        invariant cache == AfterReads(old(cache), PagedKey(), decoded, clock, k)
        invariant !isLoading
        invariant old(loadingAtStreamWrites) <= loadingAtStreamWrites
        invariant |loadingAtStreamWrites| == |old(loadingAtStreamWrites)| + k
        invariant forall i :: |old(loadingAtStreamWrites)| <= i < |loadingAtStreamWrites| ==> !loadingAtStreamWrites[i]
        modifies this`cache, this`loadingAtStreamWrites
        decreases |decoded| - k
      {
        var chunkValue: string;
        if k < |b.chunks| {
          chunkValue := b.chunks[k];
        } else {
          if b.aborted {
            return true;
          }
          done := true;
          chunkValue := "";
        }
        assert chunkValue == decoded[k];
        ConcatStep(decoded, k);
        AfterReadsStep(old(cache), PagedKey(), decoded, clock, k);
        acc := acc + chunkValue;
        cache := cache[PagedKey() := InfiniteValue(StreamUpdate(GetInfiniteData(cache, PagedKey()), acc, clock[k]))];
        loadingAtStreamWrites := loadingAtStreamWrites + [isLoading];
        k := k + 1;
      }
      return false;
    }

    /** `onSettled`: stop loading and invalidate the file's conversation queries. */
    method OnSettled()
      modifies this`isLoading, this`invalidated
      ensures !isLoading && invalidated == old(invalidated) + [fileId]
    {
      isLoading := false;
      invalidated := invalidated + [fileId];
    }

    /**
     * `addMessage`: send the current input through the mutation, whose callbacks
     * run in this order: `onMutate`; if it did not throw, the request and then
     * `onSuccess`; `onError` when any of these threw; `onSettled` in every case.
     */
    method AddMessage(uuid: string, now: string, fetched: FetchResult, clock: seq<string>)
      requires fetched.Responded? && fetched.body.Some? ==> |clock| >= |Reads(fetched.body.value)|
      modifies this`backupMessage, this`message, this`cache, this`isLoading, this`toasts, this`invalidated
      modifies this`loadingAtStreamWrites
      ensures backupMessage == old(message) && !isLoading && invalidated == old(invalidated) + [fileId]
      ensures old(loadingAtStreamWrites) <= loadingAtStreamWrites
      ensures forall i :: |old(loadingAtStreamWrites)| <= i < |loadingAtStreamWrites| ==> !loadingAtStreamWrites[i]
      ensures var optimistic := AddOptimistic(GetInfiniteData(old(cache), PagedKey()), Message(uuid, old(message), true, now));
        var sent := SendRequest(fetched);
        |loadingAtStreamWrites| == |old(loadingAtStreamWrites)| +
          if optimistic.Ok? && sent.Ok? && sent.value.Some? then ReadCount(sent.value.value) else 0
      ensures var optimistic := AddOptimistic(GetInfiniteData(old(cache), PagedKey()), Message(uuid, old(message), true, now));
        var sent := SendRequest(fetched);
        var rollback := PlainValue(PreviousMessages(old(cache)));
        && (optimistic.Err? ==>
              message == old(message) && toasts == old(toasts) && cache == old(cache)[FileKey() := PlainValue([])])
        && (optimistic.Ok? && sent.Err? ==>
              && message == old(message) && toasts == old(toasts)
              && cache == old(cache)[PagedKey() := InfiniteValue(optimistic.value)][FileKey() := rollback]
              && cache[PagedKey()] == InfiniteValue(optimistic.value))
        && (optimistic.Ok? && sent.Ok? && sent.value.None? ==>
              message == "" && toasts == old(toasts) + 1
              && cache == old(cache)[PagedKey() := InfiniteValue(optimistic.value)])
        && (optimistic.Ok? && sent.Ok? && sent.value.Some? ==>
              var b := sent.value.value;
              var streamed := AfterReads(old(cache)[PagedKey() := InfiniteValue(optimistic.value)],
                                         PagedKey(), Reads(b), clock, ReadCount(b));
              && toasts == old(toasts)
              && message == (if b.aborted then old(message) else "")
              && cache == (if b.aborted then streamed[FileKey() := rollback] else streamed))
    {
      ghost var optimistic := AddOptimistic(GetInfiniteData(cache, PagedKey()), Message(uuid, message, true, now));
      ghost var rollback := PlainValue(PreviousMessages(cache));
      assert PagedKey() != FileKey();
      var context := OnMutate(message, uuid, now);
      if context.None? {
        OnError(context);
        OnSettled();
        return;
      }
      assert context.value.previousMessages == rollback.messages;
      ghost var optimisticCache := cache;
      var sent := SendRequest(fetched);
      if sent.Err? {
        OnError(context);
        assert cache == optimisticCache[FileKey() := rollback];
        OnSettled();
        return;
      }
      var threw := OnSuccess(sent.value, clock);
      if threw {
        OnError(context);
      }
      OnSettled();
    }
  }
}
