/**
 * The conversation log kept in the `conversations` collection: one document
 * per message, and the read that returns the most recent `limit` messages in
 * chronological order as `{role, content}` turns.
 */
module Conversations {
  import opened Common
  import opened PyValues
  import opened DocStore

  datatype MessageDoc = MessageDoc(
    conversationId: string,
    role: string,
    content: string,
    timestamp: int,
    metadata: map<string, PyValue>)

  /** A message as the prompt builders see it. */
  datatype Turn = Turn(role: string, content: string)

  function Timestamp(m: MessageDoc): int { m.timestamp }

  function InConversation(conversationId: string): Stored<MessageDoc> -> bool
  {
    (s: Stored<MessageDoc>) => s.doc.conversationId == conversationId
  }

  /** `[{"role": m["role"], "content": m["content"]} for m in history]`. */
  function Project(history: seq<Stored<MessageDoc>>): (r: seq<Turn>)
    ensures |r| == |history|
    ensures forall i :: 0 <= i < |r| ==> r[i] == Turn(history[i].doc.role, history[i].doc.content)
  {
    seq(|history|, i requires 0 <= i < |history| => Turn(history[i].doc.role, history[i].doc.content))
  }

  /**
   * The newest `limit` messages of the conversation, oldest first. The
   * cursor reads a zero limit as no limit, but `to_list(length=0)` then
   * returns nothing, so the window for 0 is empty.
   */
  function RecentWindow(docs: seq<Stored<MessageDoc>>, conversationId: string, limit: nat): seq<Stored<MessageDoc>>
  {
    Reversed(ToList(Query(docs, InConversation(conversationId), Some(Timestamp), Some(limit)), Some(limit)))
  }

  /**
   * The window holds at most `limit` of the conversation's messages, in
   * non-decreasing time, and every message of the conversation it leaves
   * out is no newer than any it keeps.
   */
  lemma RecentWindowMeaning(docs: seq<Stored<MessageDoc>>, conversationId: string, limit: nat)
    ensures var w := RecentWindow(docs, conversationId, limit);
            && |w| == Min(limit, |Filter(docs, InConversation(conversationId))|)
            && (forall i :: 0 <= i < |w| ==> w[i] in docs && w[i].doc.conversationId == conversationId)
            && (forall i, j :: 0 <= i < j < |w| ==> w[i].doc.timestamp <= w[j].doc.timestamp)
            && NoNewerLeftOut(w, multiset(Filter(docs, InConversation(conversationId))))
  {
    if limit == 0 {
      assert ToList(Query(docs, InConversation(conversationId), Some(Timestamp), Some(0)), Some(0)) == [];
    } else {
      PositiveWindow(docs, conversationId, limit);
    }
  }

  /** The window for a positive limit: the server's answer, whole, in reverse. */
  lemma PositiveWindow(docs: seq<Stored<MessageDoc>>, conversationId: string, limit: nat)
    requires limit > 0
    ensures var w := RecentWindow(docs, conversationId, limit);
            && |w| == Min(limit, |Filter(docs, InConversation(conversationId))|)
            && (forall i :: 0 <= i < |w| ==> w[i] in docs && w[i].doc.conversationId == conversationId)
            && (forall i, j :: 0 <= i < j < |w| ==> w[i].doc.timestamp <= w[j].doc.timestamp)
            && NoNewerLeftOut(w, multiset(Filter(docs, InConversation(conversationId))))
  {
    var m := InConversation(conversationId);
    var q := Query(docs, m, Some(Timestamp), Some(limit));
    CursorToList(docs, m, Some(Timestamp), Some(limit));
    NewestFirst(docs, conversationId, limit);
    assert ToList(q, Some(limit)) == q;
    ReversedWindow(q, multiset(Filter(docs, m)), docs, conversationId);
  }

  /** The server's answer reversed is the window, and it never holds more than `limit` messages. */
  lemma ReversedIsWindow(docs: seq<Stored<MessageDoc>>, conversationId: string, limit: nat,
                         newestFirst: seq<Stored<MessageDoc>>, window: seq<Stored<MessageDoc>>)
    requires newestFirst == ToList(Query(docs, InConversation(conversationId), Some(Timestamp), Some(limit)), Some(limit))
    requires window == Reversed(newestFirst)
    ensures window == RecentWindow(docs, conversationId, limit)
    ensures |window| <= limit
  {
    RecentWindowMeaning(docs, conversationId, limit);
  }

  /** The server's side of the read: the conversation's newest `limit` messages, newest first. */
  lemma NewestFirst(docs: seq<Stored<MessageDoc>>, conversationId: string, limit: nat)
    ensures var m := InConversation(conversationId);
            var q := Query(docs, m, Some(Timestamp), Some(limit));
            && (limit > 0 ==> |q| <= limit)
            && (forall i :: 0 <= i < |q| ==> m(q[i]) && q[i] in docs)
            && SortedDesc(q, Timestamp)
            && (forall i, x :: 0 <= i < |q| && x in multiset(Filter(docs, m)) - multiset(q) ==>
                  Timestamp(x.doc) <= Timestamp(q[i].doc))
  {
    QueryMeaning(docs, InConversation(conversationId), Some(Timestamp), Some(limit));
  }

  /** No message of `pool` outside `w` is newer than a message in `w`. */
  predicate NoNewerLeftOut(w: seq<Stored<MessageDoc>>, pool: multiset<Stored<MessageDoc>>)
  {
    forall i, x :: 0 <= i < |w| && x in pool - multiset(w) ==> x.doc.timestamp <= w[i].doc.timestamp
  }

  /** Reversing a newest-first top slice gives an oldest-first one with the same members. */
  lemma ReversedWindow(q: seq<Stored<MessageDoc>>, pool: multiset<Stored<MessageDoc>>,
                       docs: seq<Stored<MessageDoc>>, conversationId: string)
    requires SortedDesc(q, Timestamp)
    requires forall i :: 0 <= i < |q| ==> InConversation(conversationId)(q[i]) && q[i] in docs
    requires forall i, x :: 0 <= i < |q| && x in pool - multiset(q) ==> Timestamp(x.doc) <= Timestamp(q[i].doc)
    ensures var w := Reversed(q);
            && (forall i, j :: 0 <= i < j < |w| ==> w[i].doc.timestamp <= w[j].doc.timestamp)
            && NoNewerLeftOut(w, pool)
            && (forall i :: 0 <= i < |w| ==> w[i] in docs && w[i].doc.conversationId == conversationId)
  {
    var w := Reversed(q);
    forall i | 0 <= i < |w|
      ensures w[i] in docs && w[i].doc.conversationId == conversationId
    {
      assert w[i] == q[|q| - 1 - i];
      assert InConversation(conversationId)(q[|q| - 1 - i]);
    }
    ReversedPermutes(q);
    forall i, j | 0 <= i < j < |w|
      ensures w[i].doc.timestamp <= w[j].doc.timestamp
    {
      assert w[i] == q[|q| - 1 - i] && w[j] == q[|q| - 1 - j];
    }
    forall i, x | 0 <= i < |w| && x in pool - multiset(w)
      ensures x.doc.timestamp <= w[i].doc.timestamp
    {
      assert w[i] == q[|q| - 1 - i];
    }
  }

  lemma {:induction false} ReversedPermutes<T>(s: seq<T>)
    ensures multiset(Reversed(s)) == multiset(s)
    decreases |s|
  {
    if |s| > 0 {
      ReversedPermutes(s[1..]);
      assert s == [s[0]] + s[1..];
    }
  }

  /** `history.reverse()`: swaps the ends inwards. */
  method ReverseInPlace<T>(a: array<T>)
    modifies a
    ensures a[..] == Reversed(old(a[..]))
  {
    var lo, hi := 0, a.Length - 1;
    while lo < hi
      invariant 0 <= lo <= a.Length && hi == a.Length - 1 - lo
      invariant forall k :: 0 <= k < lo ==> a[k] == old(a[a.Length - 1 - k]) && a[a.Length - 1 - k] == old(a[k])
      invariant forall k :: lo <= k <= hi ==> a[k] == old(a[k])
    {
      a[lo], a[hi] := a[hi], a[lo];
      lo, hi := lo + 1, hi - 1;
    }
  }

  /** The server's list copied into a buffer and reversed there. */
  method ReversedCopy<T>(s: seq<T>) returns (w: seq<T>)
    ensures w == Reversed(s)
  {
    var buffer := new T[|s|](i requires 0 <= i < |s| => s[i]);
    assert buffer[..] == s;
    ReverseInPlace(buffer);
    w := buffer[..];
  }

  class MongoService {
    const conversations: Collection<MessageDoc>

    constructor(conversations: Collection<MessageDoc>)
      ensures this.conversations == conversations
    {
      this.conversations := conversations;
    }

    /**
     * `get_conversation_history(conversation_id, limit)`: newest first from
     * the server, cut to `limit` by the cursor and by `to_list`, then
     * reversed and projected. Nothing here catches a server failure, so it
     * propagates.
     */
    method GetConversationHistory(conversationId: string, limit: nat) returns (history: Outcome<seq<Turn>>)
      ensures !conversations.up ==> history == Raised(ServerUnavailable)
      ensures conversations.up ==> history == Ok(Project(RecentWindow(conversations.docs, conversationId, limit)))
      ensures history.Ok? ==> |history.value| <= limit
    {
      if !conversations.up {
        return Raised(ServerUnavailable);
      }
      var newestFirst := ToList(Query(conversations.docs, InConversation(conversationId), Some(Timestamp), Some(limit)), Some(limit));
      var window := ReversedCopy(newestFirst);
      ReversedIsWindow(conversations.docs, conversationId, limit, newestFirst, window);
      history := Ok(Project(window));
    }

    /**
     * `save_message`: inserts one message stamped `now` with empty metadata
     * and returns its id; a failure is logged and gives None.
     */
    method SaveMessage(conversationId: string, role: string, content: string, now: int, generatedId: string)
      returns (id: Option<string>)
      modifies conversations`docs
      ensures id.Some? <==> conversations.up && !old(conversations.HasId(generatedId))
      ensures id.Some? ==> id.value == generatedId
      ensures id.Some? ==>
                conversations.docs == old(conversations.docs) + [Stored(generatedId, MessageDoc(conversationId, role, content, now, map[]))]
      ensures id.None? ==> conversations.docs == old(conversations.docs)
    {
      id := conversations.InsertOne(MessageDoc(conversationId, role, content, now, map[]), None, generatedId);
    }
  }

  const ServerUnavailable: string := "ServerSelectionTimeoutError"

  /** In a descending sequence, an element strictly newer than all others comes first. */
  lemma StrictMaximumFirst(s: seq<Stored<MessageDoc>>, x: Stored<MessageDoc>)
    requires SortedDesc(s, Timestamp)
    requires x in s
    requires forall i :: 0 <= i < |s| && s[i] != x ==> s[i].doc.timestamp < x.doc.timestamp
    ensures s[0] == x
  {
    var j :| 0 <= j < |s| && s[j] == x;
    assert Timestamp(s[j].doc) <= Timestamp(s[0].doc);
  }

  /**
   * A message saved later than every other message of its conversation is
   * the last turn of the next history read of at least one message.
   */
  lemma SavedMessageComesLast(docs: seq<Stored<MessageDoc>>, saved: Stored<MessageDoc>, limit: nat)
    requires limit > 0
    requires forall i :: 0 <= i < |docs| && docs[i].doc.conversationId == saved.doc.conversationId ==>
               docs[i].doc.timestamp < saved.doc.timestamp
    ensures var w := RecentWindow(docs + [saved], saved.doc.conversationId, limit);
            |w| > 0 && w[|w| - 1] == saved
  {
    var all := docs + [saved];
    var m := InConversation(saved.doc.conversationId);
    var found := Filter(all, m);
    assert all[|all| - 1] == saved;
    FilterCounts(all, m, saved);
    var sorted := SortDesc(found, Timestamp);
    assert saved in multiset(sorted);
    PermutedMembers(found, sorted, m, all);
    forall i | 0 <= i < |sorted| && sorted[i] != saved
      ensures sorted[i].doc.timestamp < saved.doc.timestamp
    {
      assert sorted[i] in all && m(sorted[i]);
    }
    StrictMaximumFirst(sorted, saved);
    var q := Query(all, m, Some(Timestamp), Some(limit));
    assert q == Take(sorted, limit);
    assert q[0] == saved;
    assert ToList(q, Some(limit)) == q;
  }

  /**
   * In a descending sequence where `a` occurs once and is the newest, and
   * every element besides `a` and `u` is older than `u`, `a` comes first
   * and `u` second.
   */
  lemma TopTwo<T>(s: seq<Stored<T>>, key: T -> int, u: Stored<T>, a: Stored<T>)
    requires SortedDesc(s, key)
    requires multiset(s)[a] == 1 && u in multiset(s)
    requires key(u.doc) < key(a.doc)
    requires forall x :: x in multiset(s) && x != a && x != u ==> key(x.doc) < key(u.doc)
    ensures |s| >= 2 && s[0] == a && s[1] == u
  {
    assert a in s;
    var j :| 0 <= j < |s| && s[j] == a;
    assert key(s[j].doc) <= key(s[0].doc);
    assert s[0] in multiset(s);
    assert s[0] == a;
    var k :| 0 <= k < |s| && s[k] == u;
    assert k >= 1;
    assert s == [s[0]] + s[1..];
    assert multiset(s[1..])[a] == 0;
    assert s[1] in s[1..];
    assert s[1] != a;
    assert s[1] in multiset(s);
    assert key(s[k].doc) <= key(s[1].doc);
  }

  /**
   * Two messages saved one after the other, the second later than the
   * first and the first later than every earlier message of the
   * conversation, are the last two turns of any later read of two or more
   * messages, in the order they were saved.
   */
  lemma PairComesLast(docs: seq<Stored<MessageDoc>>, u: Stored<MessageDoc>, a: Stored<MessageDoc>, limit: nat)
    requires limit >= 2
    requires u.doc.conversationId == a.doc.conversationId
    requires u.doc.timestamp < a.doc.timestamp
    requires forall i :: 0 <= i < |docs| && docs[i].doc.conversationId == u.doc.conversationId ==>
               docs[i].doc.timestamp < u.doc.timestamp
    ensures var w := RecentWindow(docs + [u, a], u.doc.conversationId, limit);
            |w| >= 2 && w[|w| - 2] == u && w[|w| - 1] == a
  {
    var all := docs + [u, a];
    var m := InConversation(u.doc.conversationId);
    PairPool(docs, u, a);
    PairOnTop(Filter(all, m), Timestamp, u, a, limit);
    SortedCut(all, m, limit);
    TakeTwice(SortDesc(Filter(all, m), Timestamp), limit);
  }

  /** Sorting such a pool and cutting it to two or more puts `a` first and `u` second. */
  lemma PairOnTop<T>(found: seq<Stored<T>>, key: T -> int, u: Stored<T>, a: Stored<T>, limit: nat)
    requires limit >= 2
    requires multiset(found)[a] == 1 && u in multiset(found)
    requires key(u.doc) < key(a.doc)
    requires forall x :: x in multiset(found) && x != a && x != u ==> key(x.doc) < key(u.doc)
    ensures var q := Take(SortDesc(found, key), limit);
            |q| >= 2 && q[0] == a && q[1] == u
  {
    var s := SortDesc(found, key);
    assert multiset(s) == multiset(found);
    TopTwo(s, key, u, a);
    assert Take(s, limit)[0] == s[0] && Take(s, limit)[1] == s[1];
  }

  /** A read with a positive limit is the sorted matches cut to the limit, once by the cursor and once by `to_list`. */
  lemma SortedCut(docs: seq<Stored<MessageDoc>>, m: Stored<MessageDoc> -> bool, limit: nat)
    requires limit > 0
    ensures ToList(Query(docs, m, Some(Timestamp), Some(limit)), Some(limit))
            == Take(Take(SortDesc(Filter(docs, m), Timestamp), limit), limit)
  {
  }

  lemma TakeTwice<T>(s: seq<T>, n: nat)
    ensures Take(Take(s, n), n) == Take(s, n)
  {
  }

  lemma InFront<T>(d: seq<T>, u: T, a: T, x: T)
    requires x in d + [u, a] && x != u && x != a
    ensures x in d
  {
    var k :| 0 <= k < |d + [u, a]| && (d + [u, a])[k] == x;
    assert k < |d|;
    assert d[k] == x;
  }

  /** The conversation's messages after the pair: `a` once, `u` among them, and every other one older than `u`. */
  lemma PairPool(docs: seq<Stored<MessageDoc>>, u: Stored<MessageDoc>, a: Stored<MessageDoc>)
    requires u.doc.conversationId == a.doc.conversationId
    requires u.doc.timestamp < a.doc.timestamp
    requires forall i :: 0 <= i < |docs| && docs[i].doc.conversationId == u.doc.conversationId ==>
               docs[i].doc.timestamp < u.doc.timestamp
    ensures var found := multiset(Filter(docs + [u, a], InConversation(u.doc.conversationId)));
            && found[a] == 1 && u in found
            && forall x :: x in found && x != a && x != u ==> Timestamp(x.doc) < Timestamp(u.doc)
  {
    var all := docs + [u, a];
    var m := InConversation(u.doc.conversationId);
    forall i | 0 <= i < |docs|
      ensures docs[i] != a
    {
      if docs[i].doc.conversationId == u.doc.conversationId {
        assert docs[i].doc.timestamp < a.doc.timestamp;
      }
    }
    assert a !in docs;
    assert multiset(all) == multiset(docs) + multiset([u, a]);
    FilterCounts(all, m, a);
    FilterCounts(all, m, u);
    var found := Filter(all, m);
    forall x | x in multiset(found) && x != a && x != u
      ensures x.doc.timestamp < u.doc.timestamp
    {
      assert x in found;
      assert x in all && m(x);
      InFront(docs, u, a, x);
    }
  }
}
