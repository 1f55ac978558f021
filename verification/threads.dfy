/**
 * The message store as the chat route uses it (lib/storage/threadsRepo.ts):
 * a map from thread id to the thread's records in creation order. The
 * database itself is not modelled.
 */
module Threads {
  import opened Options
  import opened Types
  import opened JsonValues

  type ThreadId = string

  /** A stored message row; optional columns are `None` for SQL `NULL`. */
  datatype StoredMessage = StoredMessage(
    role: string,
    content: string,
    gptResponse: Option<string>,
    claudeResponse: Option<string>,
    mergeResult: Option<string>,
    arbiterReview: Option<string>,
    mode: string,
    tokensUsed: int,
    estimatedCost: real)

  type Store = map<ThreadId, seq<StoredMessage>>

  /** The records of a thread, oldest first; none for an unknown thread. */
  function Messages(store: Store, id: ThreadId): seq<StoredMessage> {
    if id in store then store[id] else []
  }

  /** The history entry a record contributes: its role and stored content only. */
  function HistoryEntry(m: StoredMessage): seq<HistoryMessage> {
    if m.role == "user" then [HistoryMessage(User, m.content)]
    else if m.role == "assistant" then [HistoryMessage(Assistant, m.content)]
    else []
  }

  /** The history of a sequence of records, in order. */
  function Project(ms: seq<StoredMessage>): seq<HistoryMessage> {
    if |ms| == 0 then [] else Project(ms[..|ms| - 1]) + HistoryEntry(ms[|ms| - 1])
  }

  /** The history `getThreadHistory` returns for a thread. */
  function ThreadHistory(store: Store, id: ThreadId): seq<HistoryMessage> {
    if id !in store then [] else Project(store[id])
  }

  /** Projection distributes over concatenation: history preserves stored order. */
  lemma {:induction false} ProjectAppend(a: seq<StoredMessage>, b: seq<StoredMessage>)
    ensures Project(a + b) == Project(a) + Project(b)
    decreases |b|
  {
    if |b| == 0 {
      assert a + b == a;
    } else {
      var b' := b[..|b| - 1];
      assert (a + b)[..|a + b| - 1] == a + b';
      assert (a + b)[|a + b| - 1] == b[|b| - 1];
      ProjectAppend(a, b');
    }
  }

  /**
   * A user or assistant record yields exactly one entry with its role and
   * content; any other role yields none.
   */
  lemma ProjectOne(m: StoredMessage)
    ensures Project([m]) == HistoryEntry(m)
    ensures m.role == "user" ==> Project([m]) == [HistoryMessage(User, m.content)]
    ensures m.role == "assistant" ==> Project([m]) == [HistoryMessage(Assistant, m.content)]
    ensures m.role != "user" && m.role != "assistant" ==> Project([m]) == []
  {
    assert [m][..0] == [];
  }

  /** Records that agree on role and content, pairwise. */
  predicate SameVisible(a: seq<StoredMessage>, b: seq<StoredMessage>) {
    |a| == |b| && forall k :: 0 <= k < |a| ==> a[k].role == b[k].role && a[k].content == b[k].content
  }

  /**
   * Blind independence across turns: the history never depends on the raw
   * advisor texts, the stored artifact, the arbiter text, mode or cost.
   */
  lemma {:induction false} ProjectIgnoresRawFields(a: seq<StoredMessage>, b: seq<StoredMessage>)
    requires SameVisible(a, b)
    ensures Project(a) == Project(b)
    decreases |a|
  {
    if |a| > 0 {
      var n := |a| - 1;
      assert SameVisible(a[..n], b[..n]);
      ProjectIgnoresRawFields(a[..n], b[..n]);
      assert HistoryEntry(a[n]) == HistoryEntry(b[n]);
    }
  }

  /** Every history entry's content is the stored content of some record. */
  lemma {:induction false} ProjectContents(ms: seq<StoredMessage>, k: nat)
    requires k < |Project(ms)|
    ensures exists j :: 0 <= j < |ms| && ms[j].content == Project(ms)[k].content
                        && ms[j].role == RoleName(Project(ms)[k].role)
  {
    var n := |ms| - 1;
    var init := Project(ms[..n]);
    if k < |init| {
      ProjectContents(ms[..n], k);
      var j :| 0 <= j < n && ms[..n][j].content == init[k].content && ms[..n][j].role == RoleName(init[k].role);
      assert ms[j] == ms[..n][j];
    } else {
      assert Project(ms)[k] == HistoryEntry(ms[n])[k - |init|];
    }
  }

  /** `getThreadHistory`: the loop over the thread's records. */
  method GetThreadHistory(store: Store, id: ThreadId) returns (history: seq<HistoryMessage>)
    ensures history == ThreadHistory(store, id)
    ensures id !in store ==> history == []
  {
    if id !in store {
      return [];
    }
    var msgs := store[id];
    history := [];
    var i := 0;
    while i < |msgs|
      invariant 0 <= i <= |msgs|
      invariant history == Project(msgs[..i])
    {
      var msg := msgs[i];
      assert msgs[..i + 1][..i] == msgs[..i];
      if msg.role == "user" {
        history := history + [HistoryMessage(User, msg.content)];
      } else if msg.role == "assistant" {
        history := history + [HistoryMessage(Assistant, msg.content)];
      }
      i := i + 1;
    }
    assert msgs[..i] == msgs;
  }

  /** The fields `addMessage` receives; absent optional fields are `None`. */
  datatype AddMessageData = AddMessageData(
    role: Role,
    content: string,
    gptResponse: Option<string>,
    claudeResponse: Option<string>,
    mergeResult: Option<Json>,
    arbiterReview: Option<string>,
    mode: string,
    tokensUsed: int,
    estimatedCost: real)

  /**
   * The row `addMessage` writes: the artifact serialised when present and
   * `NULL` otherwise, absent optional texts stored as `NULL`.
   */
  function StoredRecord(data: AddMessageData, stringify: Printer): (m: StoredMessage)
    ensures m.role == RoleName(data.role) && m.content == data.content
    ensures m.mergeResult.Some? <==> data.mergeResult.Some?
    ensures data.mergeResult.Some? ==> m.mergeResult.value == stringify(data.mergeResult.value)
    ensures m.gptResponse == data.gptResponse && m.claudeResponse == data.claudeResponse
    ensures m.arbiterReview == data.arbiterReview && m.mode == data.mode
    ensures m.tokensUsed == data.tokensUsed && m.estimatedCost == data.estimatedCost
  {
    StoredMessage(
      RoleName(data.role),
      data.content,
      data.gptResponse,
      data.claudeResponse,
      match data.mergeResult case Some(j) => Some(stringify(j)) case None => None,
      data.arbiterReview,
      data.mode,
      data.tokensUsed,
      data.estimatedCost)
  }

  /**
   * `addMessage`. The row's `threadId` is the key of its thread, so the
   * write fails (`None`) when no such thread exists; otherwise the record is
   * appended to its thread and no other thread changes.
   */
  function AddMessage(store: Store, id: ThreadId, data: AddMessageData, stringify: Printer): (r: Option<Store>)
    ensures r.Some? <==> id in store
    ensures r.Some? ==> r.value.Keys == store.Keys
    ensures r.Some? ==> r.value[id] == store[id] + [StoredRecord(data, stringify)]
    ensures r.Some? ==> forall other :: other != id ==> Messages(r.value, other) == Messages(store, other)
  {
    if id in store then Some(store[id := store[id] + [StoredRecord(data, stringify)]]) else None
  }

  /** Adding a message extends its thread's history by its role and content, nothing else. */
  lemma AddMessageHistory(store: Store, id: ThreadId, data: AddMessageData, stringify: Printer)
    ensures AddMessage(store, id, data, stringify).Some? ==>
      ThreadHistory(AddMessage(store, id, data, stringify).value, id)
        == ThreadHistory(store, id) + [HistoryMessage(data.role, data.content)]
  {
    var rec := StoredRecord(data, stringify);
    ProjectAppend(Messages(store, id), [rec]);
    ProjectOne(rec);
  }
}
