/**
 * The document store (`MongoService`) over one collection at a time. A
 * collection is an insertion-ordered sequence of documents, each with its
 * `_id`; filters are predicates on stored documents, and `sort` is by one
 * integer field, descending (the only order the callers ask for). `up ==
 * false` stands for a failing server: every wrapper then returns its
 * default (None, False, []) and nothing changes.
 */
module DocStore {
  import opened Common
  import opened PyValues

  datatype Stored<T> = Stored(id: string, doc: T)

  // ------------------------------------------------------------- filtering

  /** The position of the first stored document the filter matches. */
  function FirstIndex<T>(docs: seq<Stored<T>>, matches: Stored<T> -> bool): (r: Option<nat>)
    ensures r.Some? ==> r.value < |docs| && matches(docs[r.value])
    ensures r.Some? ==> forall j :: 0 <= j < r.value ==> !matches(docs[j])
    ensures r.None? ==> forall j :: 0 <= j < |docs| ==> !matches(docs[j])
    decreases |docs|
  {
    if |docs| == 0 then None
    else if matches(docs[0]) then Some(0)
    else match FirstIndex(docs[1..], matches)
      case None => None
      case Some(i) => Some(i + 1)
  }

  /** The documents the filter matches, in stored order. */
  function Filter<T>(docs: seq<Stored<T>>, matches: Stored<T> -> bool): (r: seq<Stored<T>>)
    ensures forall i :: 0 <= i < |r| ==> matches(r[i]) && r[i] in docs
    decreases |docs|
  {
    if |docs| == 0 then []
    else
      var rest := Filter(docs[1..], matches);
      if matches(docs[0]) then [docs[0]] + rest else rest
  }

  /** A filter keeps every copy of a matching document and no copy of any other. */
  lemma {:induction false} FilterCounts<T>(docs: seq<Stored<T>>, matches: Stored<T> -> bool, x: Stored<T>)
    ensures multiset(Filter(docs, matches))[x] == if matches(x) then multiset(docs)[x] else 0
    decreases |docs|
  {
    if |docs| > 0 {
      FilterCounts(docs[1..], matches, x);
      assert docs == [docs[0]] + docs[1..];
    }
  }

  /** The filter `{"_id": id}`. */
  function ById<T>(id: string): Stored<T> -> bool
  {
    (s: Stored<T>) => s.id == id
  }

  /** No two documents share an `_id` (the server refuses a duplicate at insertion). */
  predicate UniqueIds<T>(docs: seq<Stored<T>>)
  {
    forall i, j :: 0 <= i < j < |docs| ==> docs[i].id != docs[j].id
  }

  /** The ids of a sequence of documents. */
  function IdsOf<T>(docs: seq<Stored<T>>): (r: set<string>)
    ensures forall i :: 0 <= i < |docs| ==> docs[i].id in r
    ensures forall x :: x in r ==> exists i :: 0 <= i < |docs| && docs[i].id == x
    decreases |docs|
  {
    if |docs| == 0 then {} else {docs[0].id} + IdsOf(docs[1..])
  }

  /** The documents whose id is not in `ids`, in stored order. */
  function WithoutIds<T>(docs: seq<Stored<T>>, ids: set<string>): (r: seq<Stored<T>>)
    ensures forall i :: 0 <= i < |r| ==> r[i].id !in ids && r[i] in docs
    decreases |docs|
  {
    if |docs| == 0 then []
    else
      var rest := WithoutIds(docs[1..], ids);
      if docs[0].id in ids then rest else [docs[0]] + rest
  }

  lemma {:induction false} WithoutIdsUnique<T>(docs: seq<Stored<T>>, ids: set<string>)
    requires UniqueIds(docs)
    ensures UniqueIds(WithoutIds(docs, ids))
    ensures forall x :: x in WithoutIds(docs, ids) ==> x in docs
    decreases |docs|
  {
    if |docs| > 0 {
      WithoutIdsUnique(docs[1..], ids);
      var rest := WithoutIds(docs[1..], ids);
      forall j | 0 <= j < |rest|
        ensures rest[j].id != docs[0].id
      {
        var k :| 0 <= k < |docs[1..]| && docs[1..][k] == rest[j];
        assert docs[k + 1] == rest[j];
      }
    }
  }

  /** The splice `delete_one` performs at the first document with id `x`. */
  function RemovedFirst<T>(d: seq<Stored<T>>, x: string): seq<Stored<T>>
  {
    var i := FirstIndex(d, ById(x));
    if i.Some? then d[..i.value] + d[i.value + 1..] else d
  }

  /** Removing the first document with id `x` from a unique-id sequence drops every `x`. */
  lemma {:induction false} RemoveById<T>(d: seq<Stored<T>>, x: string)
    requires UniqueIds(d)
    ensures RemovedFirst(d, x) == WithoutIds(d, {x})
    decreases |d|
  {
    if |d| > 0 {
      if d[0].id == x {
        RemoveHeadById(d, x);
      } else {
        RemoveById(d[1..], x);
        RemovePastHead(d, x);
      }
    }
  }

  lemma RemoveHeadById<T>(d: seq<Stored<T>>, x: string)
    requires UniqueIds(d) && |d| > 0 && d[0].id == x
    ensures RemovedFirst(d, x) == WithoutIds(d, {x})
  {
    var tail := d[1..];
    assert FirstIndex(d, ById(x)) == Some(0);
    forall j | 0 <= j < |tail|
      ensures tail[j].id !in {x}
    {
      assert d[j + 1] == tail[j];
    }
    WithoutAbsent(tail, {x});
  }

  lemma RemovePastHead<T>(d: seq<Stored<T>>, x: string)
    requires |d| > 0 && d[0].id != x
    ensures RemovedFirst(d, x) == [d[0]] + RemovedFirst(d[1..], x)
  {
    var i := FirstIndex(d[1..], ById(x));
    if i.Some? {
      RemovedBehindHead(d, x, i.value);
    } else {
      NothingRemoved(d, x);
    }
  }

  /** The first `x` of the tail, at `k`, is the first of the whole sequence, at `k + 1`. */
  lemma RemovedBehindHead<T>(d: seq<Stored<T>>, x: string, k: nat)
    requires |d| > 0 && d[0].id != x && FirstIndex(d[1..], ById(x)) == Some(k)
    ensures RemovedFirst(d, x) == [d[0]] + RemovedFirst(d[1..], x)
  {
    assert FirstIndex(d, ById(x)) == Some(k + 1);
    SpliceBehindHead(d, k);
  }

  /** With no `x` past the head there is none at all, and nothing is removed. */
  lemma NothingRemoved<T>(d: seq<Stored<T>>, x: string)
    requires |d| > 0 && d[0].id != x && FirstIndex(d[1..], ById(x)).None?
    ensures RemovedFirst(d, x) == [d[0]] + RemovedFirst(d[1..], x)
  {
    assert FirstIndex(d, ById(x)).None?;
    assert d == [d[0]] + d[1..];
  }

  /** Cutting position `k + 1` out of `d` keeps its head and cuts position `k` out of its tail. */
  lemma SpliceBehindHead<S>(d: seq<S>, k: nat)
    requires k + 1 < |d|
    ensures d[..k + 1] + d[k + 2..] == [d[0]] + (d[1..][..k] + d[1..][k + 1..])
  {
    assert d[..k + 1] == [d[0]] + d[1..][..k];
    assert d[k + 2..] == d[1..][k + 1..];
  }

  lemma {:induction false} WithoutAbsent<T>(d: seq<Stored<T>>, ids: set<string>)
    requires forall j :: 0 <= j < |d| ==> d[j].id !in ids
    ensures WithoutIds(d, ids) == d
    decreases |d|
  {
    if |d| > 0 {
      WithoutAbsent(d[1..], ids);
    }
  }

  lemma {:induction false} WithoutTwice<T>(d: seq<Stored<T>>, a: set<string>, b: set<string>)
    ensures WithoutIds(WithoutIds(d, a), b) == WithoutIds(d, a + b)
    decreases |d|
  {
    if |d| > 0 {
      WithoutTwice(d[1..], a, b);
    }
  }

  /** Dropping the ids of exactly the documents a filter rejects is that filter. */
  lemma {:induction false} WithoutIdsIsFilter<T>(docs: seq<Stored<T>>, ids: set<string>, keep: Stored<T> -> bool)
    requires forall i :: 0 <= i < |docs| ==> (docs[i].id in ids <==> !keep(docs[i]))
    ensures WithoutIds(docs, ids) == Filter(docs, keep)
    decreases |docs|
  {
    if |docs| > 0 {
      WithoutIdsIsFilter(docs[1..], ids, keep);
    }
  }

  /** `update_one`'s effect on the stored sequence: the first match replaced by its update. */
  function UpdatedFirst<T>(docs: seq<Stored<T>>, matches: Stored<T> -> bool, update: T -> T): (r: seq<Stored<T>>)
    ensures |r| == |docs|
    ensures forall j :: 0 <= j < |r| ==> r[j].id == docs[j].id
    ensures FirstIndex(docs, matches).None? ==> r == docs
    ensures var i := FirstIndex(docs, matches);
            i.Some? ==> r[i.value].doc == update(docs[i.value].doc)
                        && forall j :: 0 <= j < |r| && j != i.value ==> r[j] == docs[j]
  {
    match FirstIndex(docs, matches)
    case None => docs
    case Some(i) => docs[i := docs[i].(doc := update(docs[i].doc))]
  }

  /** When no stored document matches, an appended matching one is the first match. */
  lemma AppendedIsFirst<T>(before: seq<Stored<T>>, s: Stored<T>, matches: Stored<T> -> bool)
    requires forall i :: 0 <= i < |before| ==> !matches(before[i])
    requires matches(s)
    ensures FirstIndex(before + [s], matches) == Some(|before|)
  {
    var after := before + [s];
    assert matches(after[|before|]);
    forall j | 0 <= j < |before|
      ensures !matches(after[j])
    {
      assert after[j] == before[j];
    }
  }

  // --------------------------------------------------------------- sorting

  /** Keys never increase along the sequence. */
  predicate SortedDesc<T>(s: seq<Stored<T>>, key: T -> int)
  {
    forall i, j :: 0 <= i < j < |s| ==> key(s[j].doc) <= key(s[i].doc)
  }

  /** Places `x` before the first element whose key is not greater than its own. */
  function InsertDesc<T>(x: Stored<T>, s: seq<Stored<T>>, key: T -> int): (r: seq<Stored<T>>)
    requires SortedDesc(s, key)
    ensures SortedDesc(r, key)
    ensures multiset(r) == multiset(s) + multiset{x}
    ensures forall i :: 0 <= i < |r| ==> r[i] == x || r[i] in s
    decreases |s|
  {
    if |s| == 0 || key(s[0].doc) <= key(x.doc) then [x] + s
    else
      var rest := InsertDesc(x, s[1..], key);
      InsertBehindHead(x, s, key, rest);
      [s[0]] + rest
  }

  /** Keeping the head in front of the insertion into the tail keeps both the order and the members. */
  lemma InsertBehindHead<T>(x: Stored<T>, s: seq<Stored<T>>, key: T -> int, rest: seq<Stored<T>>)
    requires |s| > 0 && SortedDesc(s, key) && key(x.doc) < key(s[0].doc)
    requires SortedDesc(rest, key) && multiset(rest) == multiset(s[1..]) + multiset{x}
    requires forall i :: 0 <= i < |rest| ==> rest[i] == x || rest[i] in s[1..]
    ensures SortedDesc([s[0]] + rest, key)
    ensures multiset([s[0]] + rest) == multiset(s) + multiset{x}
    ensures forall i :: 0 <= i < |[s[0]] + rest| ==> ([s[0]] + rest)[i] == x || ([s[0]] + rest)[i] in s
  {
    var r := [s[0]] + rest;
    assert s == [s[0]] + s[1..];
    forall i | 0 <= i < |rest|
      ensures key(rest[i].doc) <= key(s[0].doc)
    {
      if rest[i] != x {
        var j :| 0 <= j < |s[1..]| && s[1..][j] == rest[i];
        assert s[j + 1] == rest[i];
      }
    }
    forall i, j | 0 <= i < j < |r|
      ensures key(r[j].doc) <= key(r[i].doc)
    {
      assert r[j] == rest[j - 1];
      if i > 0 {
        assert r[i] == rest[i - 1];
      }
    }
    forall i | 0 <= i < |r|
      ensures r[i] == x || r[i] in s
    {
      if i > 0 {
        assert r[i] == rest[i - 1];
      }
    }
  }

  /** `sort(field, -1)`: a permutation with descending keys; equal keys keep their stored order. */
  function SortDesc<T>(s: seq<Stored<T>>, key: T -> int): (r: seq<Stored<T>>)
    ensures SortedDesc(r, key)
    ensures multiset(r) == multiset(s)
    ensures |r| == |s|
    decreases |s|
  {
    if |s| == 0 then []
    else
      assert s == [s[0]] + s[1..];
      InsertDesc(s[0], SortDesc(s[1..], key), key)
  }

  /**
   * The first `n` of a descending sequence are its top `n`: anything left
   * out has a key no greater than anything kept.
   */
  lemma TakeIsTop<T>(s: seq<Stored<T>>, key: T -> int, n: nat)
    requires SortedDesc(s, key)
    ensures forall i, x :: 0 <= i < |Take(s, n)| && x in multiset(s) - multiset(Take(s, n)) ==>
              key(x.doc) <= key(Take(s, n)[i].doc)
  {
    var t := Take(s, n);
    var rest := s[|t|..];
    assert s == t + rest;
    assert multiset(s) - multiset(t) == multiset(rest);
    forall i, x | 0 <= i < |t| && x in multiset(s) - multiset(t)
      ensures key(x.doc) <= key(t[i].doc)
    {
      RestBelowTop(s, key, |t|, i, x);
    }
  }

  /** In a sorted sequence everything past position `m` is at most what comes before. */
  lemma RestBelowTop<T>(s: seq<Stored<T>>, key: T -> int, m: nat, i: nat, x: Stored<T>)
    requires SortedDesc(s, key) && i < m <= |s| && x in multiset(s[m..])
    ensures key(x.doc) <= key(s[..m][i].doc)
  {
    var j :| 0 <= j < |s[m..]| && s[m..][j] == x;
    assert s[m + j] == x && s[..m][i] == s[i];
  }

  /**
   * `find(filter).sort(...).limit(n)`: the matches, ordered when an order is
   * given, and cut to `n` only when `n` is positive (`if limit:`).
   */
  function Query<T>(docs: seq<Stored<T>>, matches: Stored<T> -> bool, order: Option<T -> int>, limit: Option<nat>)
    : seq<Stored<T>>
  {
    var found := Filter(docs, matches);
    var ordered := if order.Some? then SortDesc(found, order.value) else found;
    if limit.Some? && limit.value > 0 then Take(ordered, limit.value) else ordered
  }

  /** `cursor.to_list(length)`: at most `length` documents when a length is given. */
  function ToList<T>(s: seq<T>, length: Option<nat>): seq<T>
  {
    if length.Some? then Take(s, length.value) else s
  }

  /**
   * A query read with `to_list(length=limit)`: the query's answer, except
   * that a zero limit, which the cursor ignores, makes the read return nothing.
   */
  lemma CursorToList<T>(docs: seq<Stored<T>>, matches: Stored<T> -> bool, order: Option<T -> int>, limit: Option<nat>)
    ensures var r := ToList(Query(docs, matches, order, limit), limit);
            && (forall i :: 0 <= i < |r| ==> matches(r[i]) && r[i] in docs)
            && (limit.None? ==> multiset(r) == multiset(Filter(docs, matches)))
            && (limit.Some? ==> |r| == Min(limit.value, |Filter(docs, matches)|))
            && (order.Some? ==> SortedDesc(r, order.value))
  {
    var q := Query(docs, matches, order, limit);
    QueryMeaning(docs, matches, order, limit);
    var r := ToList(q, limit);
    if limit.Some? && limit.value == 0 {
      assert r == [];
    } else if limit.Some? {
      assert r == q;
    }
  }

  /** What a query returns: matching documents only, all of them without a limit, sorted before the cut. */
  lemma QueryMeaning<T>(docs: seq<Stored<T>>, matches: Stored<T> -> bool, order: Option<T -> int>, limit: Option<nat>)
    ensures var r, found := Query(docs, matches, order, limit), Filter(docs, matches);
            && (forall i :: 0 <= i < |r| ==> matches(r[i]) && r[i] in docs)
            && (limit.None? || limit.value == 0 ==> multiset(r) == multiset(found))
            && (limit.Some? && limit.value > 0 ==> |r| == Min(limit.value, |found|))
            && (order.Some? ==> SortedDesc(r, order.value))
            && (order.Some? ==>
                  forall i, x :: 0 <= i < |r| && x in multiset(found) - multiset(r) ==>
                    order.value(x.doc) <= order.value(r[i].doc))
  {
    var found := Filter(docs, matches);
    var ordered := if order.Some? then SortDesc(found, order.value) else found;
    var n: nat := if limit.Some? && limit.value > 0 then limit.value else |found|;
    QueryIsCut(docs, matches, order, limit, found, ordered, n);
    CutMeaning(docs, matches, found, ordered, order, n, Query(docs, matches, order, limit));
  }

  /** A query is its ordered matches cut to the limit, or to their own number when there is none. */
  lemma QueryIsCut<T>(docs: seq<Stored<T>>, matches: Stored<T> -> bool, order: Option<T -> int>, limit: Option<nat>,
                      found: seq<Stored<T>>, ordered: seq<Stored<T>>, n: nat)
    requires found == Filter(docs, matches)
    requires ordered == if order.Some? then SortDesc(found, order.value) else found
    requires n == if limit.Some? && limit.value > 0 then limit.value else |found|
    ensures Query(docs, matches, order, limit) == Take(ordered, n)
    ensures multiset(ordered) == multiset(found) && |ordered| == |found|
    ensures order.Some? ==> SortedDesc(ordered, order.value)
  {
  }

  /** Cutting an ordering of the matches to its first `n` keeps matches only, and the top ones. */
  lemma CutMeaning<T>(docs: seq<Stored<T>>, matches: Stored<T> -> bool, found: seq<Stored<T>>,
                      ordered: seq<Stored<T>>, order: Option<T -> int>, n: nat, r: seq<Stored<T>>)
    requires found == Filter(docs, matches)
    requires multiset(ordered) == multiset(found) && |ordered| == |found|
    requires order.Some? ==> SortedDesc(ordered, order.value)
    requires r == Take(ordered, n)
    ensures forall i :: 0 <= i < |r| ==> matches(r[i]) && r[i] in docs
    ensures n >= |found| ==> multiset(r) == multiset(found)
    ensures |r| == Min(n, |found|)
    ensures order.Some? ==> SortedDesc(r, order.value)
    ensures order.Some? ==>
              forall i, x :: 0 <= i < |r| && x in multiset(found) - multiset(r) ==>
                order.value(x.doc) <= order.value(r[i].doc)
  {
    PermutedMembers(found, ordered, matches, docs);
    TakeMembers(ordered, n);
    if n >= |found| {
      assert r == ordered;
    }
    if order.Some? {
      TakeSorted(ordered, order.value, n);
      TakeIsTop(ordered, order.value, n);
    }
  }

  /** A permutation of the matches holds matching stored documents only. */
  lemma PermutedMembers<T>(found: seq<Stored<T>>, ordered: seq<Stored<T>>, matches: Stored<T> -> bool, docs: seq<Stored<T>>)
    requires forall i :: 0 <= i < |found| ==> matches(found[i]) && found[i] in docs
    requires multiset(ordered) == multiset(found)
    ensures forall i :: 0 <= i < |ordered| ==> matches(ordered[i]) && ordered[i] in docs
  {
    forall i | 0 <= i < |ordered|
      ensures matches(ordered[i]) && ordered[i] in docs
    {
      assert ordered[i] in multiset(found);
      var j :| 0 <= j < |found| && found[j] == ordered[i];
    }
  }

  lemma TakeMembers<T>(s: seq<Stored<T>>, n: nat)
    ensures forall i :: 0 <= i < |Take(s, n)| ==> Take(s, n)[i] == s[i]
  {
  }

  lemma TakeSorted<T>(s: seq<Stored<T>>, key: T -> int, n: nat)
    requires SortedDesc(s, key)
    ensures SortedDesc(Take(s, n), key)
  {
  }

  // ------------------------------------------------------------ collections

  class Collection<T(==)> {
    var docs: seq<Stored<T>>
    var up: bool

    constructor(reachable: bool)
      ensures docs == [] && up == reachable
    {
      docs := [];
      up := reachable;
    }

    predicate HasId(id: string)
      reads this
    {
      exists i :: 0 <= i < |docs| && docs[i].id == id
    }

    /** `find_one(filter)`: the first match, or None on no match or a failing server. */
    function FindOne(matches: Stored<T> -> bool): (r: Option<Stored<T>>)
      reads this
      ensures r.Some? <==> up && exists i :: 0 <= i < |docs| && matches(docs[i])
      ensures r.Some? ==> matches(r.value) && r.value in docs
      ensures r.Some? ==> exists i :: 0 <= i < |docs| && docs[i] == r.value && forall j :: 0 <= j < i ==> !matches(docs[j])
    {
      if !up then None
      else match FirstIndex(docs, matches)
        case None => None
        case Some(i) => Some(docs[i])
    }

    /**
     * `insert_one(document)`: the document's own `_id` when it has one, else
     * the id the server generates; a duplicate id raises, shown as None.
     */
    method InsertOne(doc: T, explicitId: Option<string>, generatedId: string) returns (id: Option<string>)
      modifies this`docs
      ensures var chosen := if explicitId.Some? then explicitId.value else generatedId;
              id == if up && !old(HasId(chosen)) then Some(chosen) else None
      ensures id.Some? ==> docs == old(docs) + [Stored(id.value, doc)]
      ensures id.None? ==> docs == old(docs)
      ensures id.Some? ==> FindOne(ById(id.value)) == Some(Stored(id.value, doc))
      ensures old(UniqueIds(docs)) ==> UniqueIds(docs)
    {
      var chosen := if explicitId.Some? then explicitId.value else generatedId;
      if up && !HasId(chosen) {
        ghost var before := docs;
        docs := docs + [Stored(chosen, doc)];
        id := Some(chosen);
        ghost var m := ById<T>(chosen);
        assert m(docs[|docs| - 1]);
        assert forall j :: 0 <= j < |before| ==> docs[j] == before[j];
      } else {
        id := None;
      }
    }

    /**
     * `find_many(filter, sort, limit)`: the cursor, cut again by
     * `to_list(length=limit)`, so a zero limit reads nothing; [] on a
     * failing server.
     */
    function FindMany(matches: Stored<T> -> bool, order: Option<T -> int>, limit: Option<nat>): (r: seq<Stored<T>>)
      reads this
      ensures !up ==> r == []
      ensures forall i :: 0 <= i < |r| ==> matches(r[i]) && r[i] in docs
      ensures up && limit.None? ==> multiset(r) == multiset(Filter(docs, matches))
      ensures up && limit.Some? ==> |r| == Min(limit.value, |Filter(docs, matches)|)
      ensures order.Some? ==> SortedDesc(r, order.value)
    {
      CursorToList(docs, matches, order, limit);
      if up then ToList(Query(docs, matches, order, limit), limit) else []
    }

    /**
     * `update_one(filter, update)`: applies the update to the first match;
     * True iff that document actually changed (`modified_count > 0`).
     */
    method UpdateOne(matches: Stored<T> -> bool, update: T -> T) returns (modified: bool)
      modifies this`docs
      ensures var i := FirstIndex(old(docs), matches);
              modified == (up && i.Some? && update(old(docs)[i.value].doc) != old(docs)[i.value].doc)
      ensures docs == if up then UpdatedFirst(old(docs), matches, update) else old(docs)
      ensures !modified ==> docs == old(docs)
      ensures old(UniqueIds(docs)) ==> UniqueIds(docs)
    {
      var i := FirstIndex(docs, matches);
      if up && i.Some? {
        var before := docs[i.value];
        docs := docs[i.value := before.(doc := update(before.doc))];
        modified := update(before.doc) != before.doc;
      } else {
        modified := false;
      }
    }

    /** `delete_one(filter)`: removes the first match; True iff one was removed. */
    method DeleteOne(matches: Stored<T> -> bool) returns (deleted: bool)
      modifies this`docs
      ensures var i := FirstIndex(old(docs), matches);
              && deleted == (up && i.Some?)
              && docs == if deleted then old(docs)[..i.value] + old(docs)[i.value + 1..] else old(docs)
      ensures |docs| == if deleted then |old(docs)| - 1 else |old(docs)|
      ensures old(UniqueIds(docs)) ==> UniqueIds(docs)
    {
      var i := FirstIndex(docs, matches);
      deleted := up && i.Some?;
      if deleted {
        docs := docs[..i.value] + docs[i.value + 1..];
      }
    }
  }

  // ------------------------------------------------- update operator wrapping

  /** A document or an update specification as the driver sees it. */
  type Document = map<string, PyValue>

  /** Some top-level key is an update operator (starts with `$`). */
  predicate HasOperator(u: Document)
  {
    exists k :: k in u && StartsWith(k, "$")
  }

  /** `update_one`'s rule: an update with an operator goes through as is, a plain one is wrapped in `$set`. */
  function WrapUpdate(u: Document): Document
  {
    if HasOperator(u) then u else map["$set" := PyDict(u)]
  }

  /** `$inc` of one field: a missing field starts from 0; a non-integer is an error. */
  function IncField(doc: Document, k: string, step: PyValue): Option<PyValue>
  {
    if !step.PyInt? then None
    else if k !in doc then Some(step)
    else if doc[k].PyInt? then Some(PyInt(doc[k].i + step.i))
    else None
  }

  predicate IncApplies(doc: Document, inc: map<string, PyValue>)
  {
    forall k :: k in inc ==> IncField(doc, k, inc[k]).Some?
  }

  /** The fields an operator of the update names (none when it is absent). */
  function OperatorFields(u: Document, op: string): map<string, PyValue>
  {
    if op in u && u[op].PyDict? then u[op].fields else map[]
  }

  /** The update uses only `$set` and `$inc`, each with a mapping, on disjoint fields. */
  predicate WellFormedUpdate(u: Document)
  {
    && (forall k :: k in u ==> k == "$set" || k == "$inc")
    && (forall k :: k in u ==> u[k].PyDict?)
    && (forall k :: k in OperatorFields(u, "$set") ==> k !in OperatorFields(u, "$inc"))
  }

  /**
   * The server's reading of an update made of `$set` and `$inc`: fields of
   * `$set` are overwritten, fields of `$inc` are added to; anything else
   * (another operator, a field named by both, a non-integer increment) fails.
   */
  function ApplyUpdate(doc: Document, u: Document): (r: Option<Document>)
    ensures r.Some? <==> WellFormedUpdate(u) && IncApplies(doc, OperatorFields(u, "$inc"))
  {
    var setFields := OperatorFields(u, "$set");
    var incFields := OperatorFields(u, "$inc");
    if !WellFormedUpdate(u) || !IncApplies(doc, incFields) then None
    else Some(doc + setFields + Incremented(doc, incFields))
  }

  /** The new values of the `$inc` fields. */
  function Incremented(doc: Document, inc: map<string, PyValue>): (r: map<string, PyValue>)
    requires IncApplies(doc, inc)
    ensures r.Keys == inc.Keys
    ensures forall k :: k in inc ==> r[k] == IncField(doc, k, inc[k]).value
  {
    map k | k in inc :: IncField(doc, k, inc[k]).value
  }

  /** A successful update: `$set` fields read back, `$inc` fields grow by their step, the rest is kept. */
  lemma ApplyUpdateMeaning(doc: Document, u: Document, k: string)
    requires ApplyUpdate(doc, u).Some?
    ensures var r := ApplyUpdate(doc, u).value;
            && (k in OperatorFields(u, "$set") ==> k in r && r[k] == OperatorFields(u, "$set")[k])
            && (k in OperatorFields(u, "$inc") ==> k in r && r[k] == IncField(doc, k, OperatorFields(u, "$inc")[k]).value)
            && (k !in OperatorFields(u, "$set") && k !in OperatorFields(u, "$inc") ==> (k in r <==> k in doc))
            && (k !in OperatorFields(u, "$set") && k !in OperatorFields(u, "$inc") && k in doc ==> r[k] == doc[k])
  {
  }

  /** A plain update overwrites exactly its own fields and keeps every other one. */
  lemma PlainUpdateOverwrites(doc: Document, u: Document)
    requires !HasOperator(u)
    ensures ApplyUpdate(doc, WrapUpdate(u)) == Some(doc + u)
    ensures forall k :: k in doc && k !in u ==> ApplyUpdate(doc, WrapUpdate(u)).value[k] == doc[k]
  {
    var w := WrapUpdate(u);
    assert w == map["$set" := PyDict(u)];
    assert OperatorFields(w, "$set") == u && OperatorFields(w, "$inc") == map[];
    assert WellFormedUpdate(w);
    assert Incremented(doc, map[]) == map[];
    assert doc + u + map[] == doc + u;
  }

  /** An update that already names an operator reaches the server unchanged. */
  lemma OperatorUpdatePassesThrough(doc: Document, u: Document, k: string)
    requires k in u && StartsWith(k, "$")
    ensures WrapUpdate(u) == u
    ensures ApplyUpdate(doc, WrapUpdate(u)) == ApplyUpdate(doc, u)
  {
  }
}
