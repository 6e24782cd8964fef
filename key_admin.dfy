/**
 * The operator's key manager: lists every key newest first, revokes,
 * re-activates, deletes and resets the counters of one key by id, and
 * deletes every revoked key in one sweep.
 */
module KeyAdmin {
  import opened Common
  import opened DocStore
  import opened Credentials
  import opened ApiKeys

  function AnyKey(): Stored<ApiKey> -> bool
  {
    (s: Stored<ApiKey>) => true
  }

  function IsRevoked(): Stored<ApiKey> -> bool
  {
    (s: Stored<ApiKey>) => s.doc.status == Revoked
  }

  function NotRevoked(): Stored<ApiKey> -> bool
  {
    (s: Stored<ApiKey>) => s.doc.status != Revoked
  }

  /** `reset_usage_stats`' update: the three counters back to 0, stamped `now`. */
  function ResetCounters(now: int): ApiKey -> ApiKey
  {
    (k: ApiKey) => k.(totalTokensUsed := 0, monthlyTokensUsed := 0, dailyTokensUsed := 0, updatedAt := now)
  }

  /** A later status write overrides an earlier one; nothing else of the key is touched. */
  lemma StatusWritesOverride(k: ApiKey, s1: KeyStatus, t1: int, s2: KeyStatus, t2: int)
    ensures SetStatus(s2, t2)(SetStatus(s1, t1)(k)) == SetStatus(s2, t2)(k)
    ensures SetStatus(s1, t1)(k).(status := k.status, updatedAt := k.updatedAt) == k
  {
  }

  /** Resetting zeroes the counters, keeps everything else, and a second reset changes nothing more. */
  lemma ResetMeaning(k: ApiKey, now: int)
    ensures var r := ResetCounters(now)(k);
            && r.totalTokensUsed == 0 && r.monthlyTokensUsed == 0 && r.dailyTokensUsed == 0
            && r.(totalTokensUsed := k.totalTokensUsed, monthlyTokensUsed := k.monthlyTokensUsed,
                  dailyTokensUsed := k.dailyTokensUsed, updatedAt := k.updatedAt) == k
            && ResetCounters(now)(r) == r
  {
  }

  /** After tokens are counted, a reset forgets them. */
  lemma ResetForgetsUsage(k: ApiKey, tokens: int, t1: int, t2: int)
    ensures ResetCounters(t2)(AddTokens(tokens, t1)(k)) == ResetCounters(t2)(k).(lastUsedAt := Some(t1))
  {
  }

  /** The ids of the sequence grow by one id per appended document. */
  lemma IdsOfSnoc<T>(s: seq<Stored<T>>, x: Stored<T>)
    ensures IdsOf(s + [x]) == IdsOf(s) + {x.id}
  {
    var t := s + [x];
    forall y | y in IdsOf(t)
      ensures y in IdsOf(s) + {x.id}
    {
      var i :| 0 <= i < |t| && t[i].id == y;
      if i < |s| {
        assert t[i] == s[i];
      }
    }
    forall y | y in IdsOf(s) + {x.id}
      ensures y in IdsOf(t)
    {
      if y != x.id {
        var i :| 0 <= i < |s| && s[i].id == y;
        assert t[i] == s[i];
      } else {
        assert t[|s|] == x;
      }
    }
  }

  lemma IdsOfPrefix<T>(s: seq<Stored<T>>, i: nat)
    requires i < |s|
    ensures IdsOf(s[..i + 1]) == IdsOf(s[..i]) + {s[i].id}
  {
    assert s[..i + 1] == s[..i] + [s[i]];
    IdsOfSnoc(s[..i], s[i]);
  }

  /**
   * In a unique-id collection, the ids of the revoked documents found are
   * exactly the ids of the stored documents that are revoked.
   */
  lemma RevokedIdsExact(docs: seq<Stored<ApiKey>>, revoked: seq<Stored<ApiKey>>)
    requires UniqueIds(docs)
    requires multiset(revoked) == multiset(Filter(docs, IsRevoked()))
    ensures forall k :: 0 <= k < |docs| ==> (docs[k].id in IdsOf(revoked) <==> !NotRevoked()(docs[k]))
  {
    forall k | 0 <= k < |docs|
      ensures docs[k].id in IdsOf(revoked) <==> !NotRevoked()(docs[k])
    {
      if docs[k].id in IdsOf(revoked) {
        FoundIdIsRevoked(docs, revoked, k);
      }
      if !NotRevoked()(docs[k]) {
        RevokedIsFound(docs, revoked, k);
      }
    }
  }

  lemma FoundIdIsRevoked(docs: seq<Stored<ApiKey>>, revoked: seq<Stored<ApiKey>>, k: nat)
    requires UniqueIds(docs) && k < |docs|
    requires multiset(revoked) == multiset(Filter(docs, IsRevoked()))
    requires docs[k].id in IdsOf(revoked)
    ensures docs[k].doc.status == Revoked
  {
    var j :| 0 <= j < |revoked| && revoked[j].id == docs[k].id;
    var x := revoked[j];
    assert x in multiset(revoked);
    FilteredIsRevoked(docs, x);
    var n :| 0 <= n < |docs| && docs[n] == x;
    assert n == k;
  }

  /** A key the revoked filter returns is a stored, revoked key. */
  lemma FilteredIsRevoked(docs: seq<Stored<ApiKey>>, x: Stored<ApiKey>)
    requires x in multiset(Filter(docs, IsRevoked()))
    ensures x.doc.status == Revoked && x in docs
  {
    var f := Filter(docs, IsRevoked());
    var m :| 0 <= m < |f| && f[m] == x;
    assert IsRevoked()(f[m]);
  }

  lemma RevokedIsFound(docs: seq<Stored<ApiKey>>, revoked: seq<Stored<ApiKey>>, k: nat)
    requires k < |docs| && docs[k].doc.status == Revoked
    requires multiset(revoked) == multiset(Filter(docs, IsRevoked()))
    ensures docs[k].id in IdsOf(revoked)
  {
    FilterCounts(docs, IsRevoked(), docs[k]);
    assert docs[k] in multiset(revoked);
    var j :| 0 <= j < |revoked| && revoked[j] == docs[k];
  }

  /** Once the ids in `ids` are gone, a unique-id sequence is `before` without them, and still unique. */
  predicate SweptSoFar(before: seq<Stored<ApiKey>>, ids: set<string>, docs: seq<Stored<ApiKey>>)
  {
    UniqueIds(before) ==> docs == WithoutIds(before, ids) && UniqueIds(docs)
  }

  lemma SweepResult(before: seq<Stored<ApiKey>>, revoked: seq<Stored<ApiKey>>, ids: set<string>, docs: seq<Stored<ApiKey>>)
    requires multiset(revoked) == multiset(Filter(before, IsRevoked()))
    requires ids == IdsOf(revoked) && SweptSoFar(before, ids, docs)
    ensures |revoked| == |Filter(before, IsRevoked())|
    ensures UniqueIds(before) ==> docs == Filter(before, NotRevoked()) && UniqueIds(docs)
  {
    assert |multiset(revoked)| == |multiset(Filter(before, IsRevoked()))|;
    if UniqueIds(before) {
      RevokedIdsExact(before, revoked);
      WithoutIdsIsFilter(before, IdsOf(revoked), NotRevoked());
    }
  }

  /** The sweep's outcome, whether or not the server was up. */
  lemma SweepDone(before: seq<Stored<ApiKey>>, revoked: seq<Stored<ApiKey>>, ids: set<string>,
                  docs: seq<Stored<ApiKey>>, up: bool, count: nat)
    requires up ==> multiset(revoked) == multiset(Filter(before, IsRevoked()))
    requires !up ==> revoked == [] && docs == before
    requires count == |revoked| && ids == IdsOf(revoked) && SweptSoFar(before, ids, docs)
    ensures count == if up then |Filter(before, IsRevoked())| else 0
    ensures UniqueIds(before) && up ==> docs == Filter(before, NotRevoked())
    ensures UniqueIds(before) ==> UniqueIds(docs)
  {
    if up {
      SweepResult(before, revoked, ids, docs);
    }
  }

  /** One deletion of the sweep: the removed id joins the ids already gone. */
  lemma SweepStep(before: seq<Stored<ApiKey>>, ids: set<string>, current: seq<Stored<ApiKey>>,
                  after: seq<Stored<ApiKey>>, x: string)
    requires UniqueIds(before) && current == WithoutIds(before, ids) && UniqueIds(current)
    requires after == RemovedFirst(current, x)
    ensures after == WithoutIds(before, ids + {x}) && UniqueIds(after)
  {
    RemoveById(current, x);
    WithoutTwice(before, ids, {x});
    WithoutIdsUnique(current, {x});
  }

  class ApiKeyManager {
    const keys: Collection<ApiKey>

    constructor(keys: Collection<ApiKey>)
      ensures this.keys == keys
    {
      this.keys := keys;
    }

    /** `list_all_api_keys`: every stored key read back, newest first. */
    function ListAllApiKeys(): (r: seq<ApiKey>)
      reads keys
      ensures forall i, j :: 0 <= i < j < |r| ==> r[j].createdAt <= r[i].createdAt
      ensures keys.up ==> |r| == |keys.docs|
      ensures keys.up ==> forall s :: s in keys.docs ==> Loaded(s) in r
      ensures !keys.up ==> r == []
    {
      var docs := keys.FindMany(AnyKey(), Some(CreatedAt), None);
      OwnedKeysSorted(docs);
      AllKeysListed(keys.docs, docs, keys.up);
      LoadAll(docs)
    }

    /** `revoke_api_key`: the key with that id is marked revoked; True iff its record changed. */
    method RevokeApiKey(keyId: string, now: int) returns (result: bool)
      modifies keys`docs
      ensures var i := FirstIndex(old(keys.docs), ById(keyId));
              result == (keys.up && i.Some? && old(keys.docs)[i.value].doc.(status := Revoked, updatedAt := now) != old(keys.docs)[i.value].doc)
      ensures keys.docs == if keys.up then UpdatedFirst(old(keys.docs), ById(keyId), SetStatus(Revoked, now)) else old(keys.docs)
    {
      result := keys.UpdateOne(ById(keyId), SetStatus(Revoked, now));
    }

    /** `activate_api_key`: the key with that id is marked active again; True iff its record changed. */
    method ActivateApiKey(keyId: string, now: int) returns (result: bool)
      modifies keys`docs
      ensures var i := FirstIndex(old(keys.docs), ById(keyId));
              result == (keys.up && i.Some? && old(keys.docs)[i.value].doc.(status := Active, updatedAt := now) != old(keys.docs)[i.value].doc)
      ensures keys.docs == if keys.up then UpdatedFirst(old(keys.docs), ById(keyId), SetStatus(Active, now)) else old(keys.docs)
    {
      result := keys.UpdateOne(ById(keyId), SetStatus(Active, now));
    }

    /** `delete_api_key`: the key with that id is gone and every other key stays, in order. */
    method DeleteApiKey(keyId: string) returns (result: bool)
      modifies keys`docs
      ensures result <==> keys.up && old(keys.HasId(keyId))
      ensures keys.docs == if keys.up then RemovedFirst(old(keys.docs), keyId) else old(keys.docs)
      ensures old(UniqueIds(keys.docs)) && keys.up ==> keys.docs == WithoutIds(old(keys.docs), {keyId})
    {
      ghost var before := keys.docs;
      result := keys.DeleteOne(ById(keyId));
      if FirstIndex(before, ById(keyId)).Some? {
        assert before[FirstIndex(before, ById(keyId)).value].id == keyId;
      } else {
        assert forall j :: 0 <= j < |before| ==> !ById<ApiKey>(keyId)(before[j]);
      }
      if UniqueIds(before) {
        RemoveById(before, keyId);
      }
    }

    /** `reset_usage_stats`: the key's three counters are zeroed. */
    method ResetUsageStats(keyId: string, now: int) returns (result: bool)
      modifies keys`docs
      ensures var i := FirstIndex(old(keys.docs), ById(keyId));
              result == (keys.up && i.Some? && ResetCounters(now)(old(keys.docs)[i.value].doc) != old(keys.docs)[i.value].doc)
      ensures keys.docs == if keys.up then UpdatedFirst(old(keys.docs), ById(keyId), ResetCounters(now)) else old(keys.docs)
    {
      result := keys.UpdateOne(ById(keyId), ResetCounters(now));
    }

    /** `find_many({"status": "revoked"})`: every revoked key, or none with the server down. */
    function FindRevoked(): (r: seq<Stored<ApiKey>>)
      reads keys
      ensures keys.up ==> multiset(r) == multiset(Filter(keys.docs, IsRevoked()))
      ensures !keys.up ==> r == []
    {
      keys.FindMany(IsRevoked(), None, None)
    }

    /**
     * `cleanup_revoked_keys`: every revoked key found is deleted by id and
     * counted. The count is the number of revoked keys; in a unique-id
     * collection what remains is exactly the keys that are not revoked.
     */
    method CleanupRevokedKeys() returns (deletedCount: nat)
      modifies keys`docs
      ensures deletedCount == if keys.up then |Filter(old(keys.docs), IsRevoked())| else 0
      ensures !keys.up ==> keys.docs == old(keys.docs)
      ensures old(UniqueIds(keys.docs)) && keys.up ==> keys.docs == Filter(old(keys.docs), NotRevoked())
      ensures old(UniqueIds(keys.docs)) ==> UniqueIds(keys.docs)
    {
      var revoked := FindRevoked();
      ghost var before := keys.docs;
      ghost var ids: set<string> := {};
      WithoutAbsent(before, ids);
      deletedCount := 0;
      var i := 0;
      while i < |revoked|
        invariant 0 <= i <= |revoked| && deletedCount == i
        invariant keys.up || revoked == []
        invariant ids == IdsOf(revoked[..i])
        invariant SweptSoFar(before, ids, keys.docs)
        invariant !keys.up ==> keys.docs == before
      {
        SweepDelete(revoked[i].id, before, ids);
        IdsOfPrefix(revoked, i);
        ids := ids + {revoked[i].id};
        deletedCount := deletedCount + 1;
        i := i + 1;
      }
      assert revoked[..i] == revoked;
      SweepDone(before, revoked, ids, keys.docs, keys.up, deletedCount);
    }

    /** One `delete_one({"_id": x})` of the sweep: the ids gone so far grow by `x`. */
    method SweepDelete(x: string, ghost before: seq<Stored<ApiKey>>, ghost ids: set<string>)
      modifies keys`docs
      requires keys.up
      requires SweptSoFar(before, ids, keys.docs)
      ensures SweptSoFar(before, ids + {x}, keys.docs)
    {
      ghost var current := keys.docs;
      var _ := keys.DeleteOne(ById(x));
      DeleteIsRemovedFirst(current, keys.docs, x, keys.up);
      if UniqueIds(before) {
        SweepStep(before, ids, current, keys.docs, x);
      }
    }
  }

  /** What `delete_one({"_id": x})` leaves is the splice at the first `x`, while the server is up. */
  lemma DeleteIsRemovedFirst(current: seq<Stored<ApiKey>>, after: seq<Stored<ApiKey>>, x: string, up: bool)
    requires var i := FirstIndex(current, ById(x));
             after == if up && i.Some? then current[..i.value] + current[i.value + 1..] else current
    requires up
    ensures after == RemovedFirst(current, x)
  {
  }

  /** Key documents sorted by creation time load to records sorted by creation time. */
  lemma OwnedKeysSorted(docs: seq<Stored<ApiKey>>)
    requires SortedDesc(docs, CreatedAt)
    ensures forall i, j :: 0 <= i < j < |LoadAll(docs)| ==> LoadAll(docs)[j].createdAt <= LoadAll(docs)[i].createdAt
  {
    forall i, j | 0 <= i < j < |docs|
      ensures LoadAll(docs)[j].createdAt <= LoadAll(docs)[i].createdAt
    {
      assert CreatedAt(docs[j].doc) <= CreatedAt(docs[i].doc);
    }
  }

  /** A complete read of the collection loads every stored key. */
  lemma AllKeysListed(all: seq<Stored<ApiKey>>, docs: seq<Stored<ApiKey>>, complete: bool)
    requires complete ==> multiset(docs) == multiset(Filter(all, AnyKey()))
    ensures complete ==> |LoadAll(docs)| == |all|
    ensures complete ==> forall s :: s in all ==> Loaded(s) in LoadAll(docs)
  {
    if complete {
      FilterAll(all);
      assert |multiset(docs)| == |multiset(all)|;
      forall s | s in all
        ensures Loaded(s) in LoadAll(docs)
      {
        assert s in multiset(docs);
        var i :| 0 <= i < |docs| && docs[i] == s;
        assert LoadAll(docs)[i] == Loaded(s);
      }
    }
  }

  lemma {:induction false} FilterAll(docs: seq<Stored<ApiKey>>)
    ensures Filter(docs, AnyKey()) == docs
    decreases |docs|
  {
    if |docs| > 0 {
      FilterAll(docs[1..]);
      assert docs == [docs[0]] + docs[1..];
    }
  }
}
