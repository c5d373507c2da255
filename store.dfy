/** The shared key-value table (primary key `PK`/`SK`, secondary index
    `GSI1` on `GSI1PK`/`GSI1SK`), the audit archive bucket and the event bus,
    as in-memory state. */
module Store {
  import opened Values
  import opened Ordering

  datatype Key = Key(pk: string, sk: string)

  /** The attributes that hold an item's own key. */
  function KeyAttributes(k: Key): Record {
    map["PK" := Str(k.pk), "SK" := Str(k.sk)]
  }

  /** An item that carries string `PK` and `SK` attributes, as every item
      written by the handlers does. */
  predicate HasKey(item: Record) {
    "PK" in item && item["PK"].Str? && "SK" in item && item["SK"].Str?
  }

  function KeyOf(item: Record): Key
    requires HasKey(item)
  {
    Key(item["PK"].s, item["SK"].s)
  }

  /** The item an `update_item` with `SET` clauses leaves behind: the stored
      item (or, when none is stored, a fresh item holding only the key) with
      each set attribute replaced. */
  function Merged(items: map<Key, Record>, k: Key, updates: Record): Record {
    (if k in items then items[k] else KeyAttributes(k)) + updates
  }

  /** A key condition of a query: the primary index (partition `pk`, sort key
      starting with `skPrefix`) or `GSI1` (`GSI1PK == gsiPk`, `GSI1SK` starting
      with `gsiSkPrefix`). */
  datatype KeyCondition =
    | TablePrefix(pk: string, skPrefix: string)
    | IndexPrefix(gsiPk: string, gsiSkPrefix: string)

  /** Where the item stored at `k` sits in the queried index, when it is in
      that index and satisfies the condition. `GSI1` is sparse: an item without
      string `GSI1PK`/`GSI1SK` attributes is not in it. */
  function Placed(c: KeyCondition, k: Key, item: Record): (p: Option<Position>)
    ensures p.Some? ==> p.value.pk == k.pk && p.value.sk == k.sk
  {
    match c
    case TablePrefix(pk, prefix) =>
      if k.pk == pk && StartsWith(k.sk, prefix) then Some(Position(k.sk, k.pk, k.sk)) else None
    case IndexPrefix(gsiPk, prefix) =>
      if && "GSI1PK" in item && item["GSI1PK"] == Str(gsiPk)
         && "GSI1SK" in item && item["GSI1SK"].Str? && StartsWith(item["GSI1SK"].s, prefix)
      then Some(Position(item["GSI1SK"].s, k.pk, k.sk))
      else None
  }

  /** A descending query resumes strictly below its exclusive start key. */
  predicate After(start: Option<Position>, p: Position) {
    start.None? || PosBelow(p, start.value)
  }

  /** The positions a query with this condition and start key may return. */
  function Candidates(items: map<Key, Record>, c: KeyCondition, start: Option<Position>): set<Position> {
    set k | k in items && Placed(c, k, items[k]).Some? && After(start, Placed(c, k, items[k]).value)
      :: Placed(c, k, items[k]).value
  }

  lemma CandidateKey(items: map<Key, Record>, c: KeyCondition, start: Option<Position>, p: Position)
    requires p in Candidates(items, c, start)
    ensures Key(p.pk, p.sk) in items
    ensures Placed(c, Key(p.pk, p.sk), items[Key(p.pk, p.sk)]) == Some(p)
    ensures After(start, p)
  {
  }

  /** One returned item and its position in the queried index. */
  datatype Hit = Hit(pos: Position, item: Record)

  /** `page` and `last` are what a descending query with `Limit = limit`
      returns: candidates only, each with its stored item, in strictly
      descending order, every candidate left out lying below the whole page
      (which is then full), and a last evaluated key exactly when the page
      reached the limit. */
  ghost predicate IsPage(items: map<Key, Record>, c: KeyCondition, start: Option<Position>, limit: nat,
                         page: seq<Hit>, last: Option<Position>)
  {
    && |page| <= limit
    && (forall i :: 0 <= i < |page| ==>
          && page[i].pos in Candidates(items, c, start)
          && Key(page[i].pos.pk, page[i].pos.sk) in items
          && page[i].item == items[Key(page[i].pos.pk, page[i].pos.sk)])
    && (forall i, j :: 0 <= i < j < |page| ==> PosBelow(page[j].pos, page[i].pos))
    && (forall p :: p in Candidates(items, c, start) ==>
          (exists i :: 0 <= i < |page| && page[i].pos == p) ||
          (|page| == limit && 0 < limit && PosBelow(p, page[limit - 1].pos)))
    && last == (if |page| == limit && 0 < limit then Some(page[limit - 1].pos) else None)
  }

  /** Following the last evaluated key: the next page lies wholly below the
      current one (no item is returned twice), and every candidate of the
      first query is either on the first page or a candidate of the next
      query (no item is skipped). */
  lemma NextPageContinues(items: map<Key, Record>, c: KeyCondition, start: Option<Position>, limit: nat,
                          page1: seq<Hit>, p: Position, page2: seq<Hit>, last2: Option<Position>)
    requires IsPage(items, c, start, limit, page1, Some(p))
    requires IsPage(items, c, Some(p), limit, page2, last2)
    ensures forall i, j :: 0 <= i < |page1| && 0 <= j < |page2| ==> PosBelow(page2[j].pos, page1[i].pos)
    ensures forall q :: q in Candidates(items, c, start) ==>
              (exists i :: 0 <= i < |page1| && page1[i].pos == q) || q in Candidates(items, c, Some(p))
  {
    forall i, j | 0 <= i < |page1| && 0 <= j < |page2|
      ensures PosBelow(page2[j].pos, page1[i].pos)
    {
      var q := page2[j].pos;
      CandidateKey(items, c, Some(p), q);
      if i < limit - 1 {
        PosBelowTransitive(q, p, page1[i].pos);
      }
    }
    forall q | q in Candidates(items, c, start) && !(exists i :: 0 <= i < |page1| && page1[i].pos == q)
      ensures q in Candidates(items, c, Some(p))
    {
      CandidateKey(items, c, start, q);
      var k := Key(q.pk, q.sk);
      assert k in items && Placed(c, k, items[k]) == Some(q) && After(Some(p), q);
    }
  }

  /** The order part of a page, over a fixed set of candidates: at most
      `limit` candidates, strictly descending, and every other candidate
      below a full page. */
  ghost predicate Ranked(cands: set<Position>, limit: nat, page: seq<Hit>) {
    && |page| <= limit
    && (forall i :: 0 <= i < |page| ==> page[i].pos in cands)
    && (forall i, j :: 0 <= i < j < |page| ==> PosBelow(page[j].pos, page[i].pos))
    && (forall p :: p in cands ==>
          (exists i :: 0 <= i < |page| && page[i].pos == p) ||
          (|page| == limit && 0 < limit && PosBelow(p, page[limit - 1].pos)))
  }

  lemma PageIsRanked(items: map<Key, Record>, c: KeyCondition, start: Option<Position>, limit: nat,
                     page: seq<Hit>, last: Option<Position>)
    requires IsPage(items, c, start, limit, page, last)
    ensures Ranked(Candidates(items, c, start), limit, page)
  {
  }

  /** Where two rankings agree before index `i`, the first one's entry at `i`
      is not below the second's. */
  lemma RankedEntryNotBelow(cands: set<Position>, limit: nat, page1: seq<Hit>, page2: seq<Hit>, i: nat)
    requires Ranked(cands, limit, page1) && Ranked(cands, limit, page2)
    requires i < |page1| && i < |page2|
    requires forall j :: 0 <= j < i ==> page1[j].pos == page2[j].pos
    ensures !PosBelow(page1[i].pos, page2[i].pos)
  {
    PosBelowStrictTotalOrder();
    assert page2[i].pos in cands;
  }

  lemma {:induction false} RankedAgreeUpTo(cands: set<Position>, limit: nat, page1: seq<Hit>, page2: seq<Hit>, n: nat)
    requires Ranked(cands, limit, page1) && Ranked(cands, limit, page2)
    requires n <= |page1| && n <= |page2|
    ensures forall j :: 0 <= j < n ==> page1[j].pos == page2[j].pos
    decreases n
  {
    if n > 0 {
      RankedAgreeUpTo(cands, limit, page1, page2, n - 1);
      RankedEntryNotBelow(cands, limit, page1, page2, n - 1);
      RankedEntryNotBelow(cands, limit, page2, page1, n - 1);
      PosNeitherBelow(page1[n - 1].pos, page2[n - 1].pos);
    }
  }

  /** Two rankings of the same candidates list the same positions. */
  lemma RankedUnique(cands: set<Position>, limit: nat, page1: seq<Hit>, page2: seq<Hit>)
    requires Ranked(cands, limit, page1) && Ranked(cands, limit, page2)
    ensures |page1| == |page2|
    ensures forall j :: 0 <= j < |page1| ==> page1[j].pos == page2[j].pos
  {
    var n := if |page1| < |page2| then |page1| else |page2|;
    RankedAgreeUpTo(cands, limit, page1, page2, n);
    if |page1| < |page2| {
      // page2's next entry is a candidate that page1 neither lists nor puts below a full page
      assert page2[n].pos in cands;
      PosBelowStrictTotalOrder();
      assert false;
    }
    if |page2| < |page1| {
      assert page1[n].pos in cands;
      PosBelowStrictTotalOrder();
      assert false;
    }
  }

  /** A query's answer is determined by the store, the condition, the start
      key and the limit: reading the same page twice gives the same items
      and the same last evaluated key. */
  lemma PageUnique(items: map<Key, Record>, c: KeyCondition, start: Option<Position>, limit: nat,
                   page1: seq<Hit>, last1: Option<Position>, page2: seq<Hit>, last2: Option<Position>)
    requires IsPage(items, c, start, limit, page1, last1) && IsPage(items, c, start, limit, page2, last2)
    ensures page1 == page2 && last1 == last2
  {
    PageIsRanked(items, c, start, limit, page1, last1);
    PageIsRanked(items, c, start, limit, page2, last2);
    RankedUnique(Candidates(items, c, start), limit, page1, page2);
    assert forall j :: 0 <= j < |page1| ==> page1[j] == page2[j];
  }

  /** A query part-way through: `page` holds, highest first, the candidates no
      longer `remaining`, each with its stored item, and every remaining
      candidate lies below the whole page. */
  ghost predicate Scanned(items: map<Key, Record>, c: KeyCondition, start: Option<Position>,
                          remaining: set<Position>, page: seq<Hit>)
  {
    && remaining <= Candidates(items, c, start)
    && (forall i :: 0 <= i < |page| ==>
          && page[i].pos in Candidates(items, c, start) && page[i].pos !in remaining
          && Key(page[i].pos.pk, page[i].pos.sk) in items
          && page[i].item == items[Key(page[i].pos.pk, page[i].pos.sk)])
    && (forall i, j :: 0 <= i < j < |page| ==> PosBelow(page[j].pos, page[i].pos))
    && (forall p, i :: p in remaining && 0 <= i < |page| ==> PosBelow(p, page[i].pos))
    && (forall p :: p in Candidates(items, c, start) ==>
          p in remaining || exists i :: 0 <= i < |page| && page[i].pos == p)
  }

  /** Moving the greatest remaining candidate to the end of the page keeps
      the scan consistent. */
  lemma ScanStep(items: map<Key, Record>, c: KeyCondition, start: Option<Position>,
                 remaining: set<Position>, page: seq<Hit>, m: Position)
    requires Scanned(items, c, start, remaining, page) && IsMax(m, remaining)
    ensures Key(m.pk, m.sk) in items
    ensures Scanned(items, c, start, remaining - {m}, page + [Hit(m, items[Key(m.pk, m.sk)])])
  {
    CandidateKey(items, c, start, m);
    var next := page + [Hit(m, items[Key(m.pk, m.sk)])];
    forall p | p in Candidates(items, c, start)
      ensures p in remaining - {m} || exists i :: 0 <= i < |next| && next[i].pos == p
    {
      if p == m {
        assert next[|page|].pos == p;
      } else if p !in remaining {
        var i :| 0 <= i < |page| && page[i].pos == p;
        assert next[i].pos == p;
      }
    }
  }

  /** A scan stopped by a full page or by running out of candidates is a page. */
  lemma ScanDone(items: map<Key, Record>, c: KeyCondition, start: Option<Position>, limit: nat,
                 remaining: set<Position>, page: seq<Hit>)
    requires Scanned(items, c, start, remaining, page)
    requires 1 <= limit && |page| <= limit && (|page| == limit || remaining == {})
    ensures IsPage(items, c, start, limit, page, if |page| == limit then Some(page[limit - 1].pos) else None)
  {
  }

  /** Every item is stored under the key its own `PK`/`SK` attributes name,
      and an item that `GSI1` files under a tenant partition (`GSI1PK` starting
      with `TENANT#`) lives in that same partition of the table. */
  ghost predicate Partitioned(items: map<Key, Record>) {
    forall k :: k in items ==>
      && HasKey(items[k]) && KeyOf(items[k]) == k
      && ("GSI1PK" in items[k] && items[k]["GSI1PK"].Str? && StartsWith(items[k]["GSI1PK"].s, "TENANT#") ==>
            items[k]["GSI1PK"].s == k.pk)
  }

  /** An update that names none of `PK`, `SK` and `GSI1PK` keeps the store
      partitioned. */
  lemma MergeKeepsPartitioned(items: map<Key, Record>, k: Key, updates: Record)
    requires Partitioned(items)
    requires "PK" !in updates && "SK" !in updates && "GSI1PK" !in updates
    ensures Partitioned(items[k := Merged(items, k, updates)])
  {
    var merged := Merged(items, k, updates);
    assert HasKey(merged) && KeyOf(merged) == k;
    assert "GSI1PK" in merged ==> "GSI1PK" in items[k] && merged["GSI1PK"] == items[k]["GSI1PK"];
  }

  /** An item that may join a partitioned store: it carries its key, and a
      `GSI1PK` naming a tenant partition names its own. */
  predicate FitsPartition(item: Record) {
    && HasKey(item)
    && ("GSI1PK" in item && item["GSI1PK"].Str? && StartsWith(item["GSI1PK"].s, "TENANT#") ==>
          item["GSI1PK"].s == KeyOf(item).pk)
  }

  lemma PutKeepsPartitioned(items: map<Key, Record>, item: Record)
    requires Partitioned(items) && FitsPartition(item)
    ensures Partitioned(items[KeyOf(item) := item])
  {
  }

  class Table {
    var items: map<Key, Record>

    constructor (initial: map<Key, Record>)
      ensures items == initial
    {
      items := initial;
    }

    /** `get_item`. */
    function Get(k: Key): Option<Record>
      reads this
    {
      if k in items then Some(items[k]) else None
    }

    /** `put_item`: stores the item under its own key, replacing any item there. */
    method PutItem(item: Record)
      requires HasKey(item)
      modifies this
      ensures items == old(items)[KeyOf(item) := item]
    {
      items := items[KeyOf(item) := item];
    }

    /** `delete_item`: removes the key; a missing key is not an error. */
    method DeleteItem(k: Key)
      modifies this
      ensures items == old(items) - {k}
    {
      items := items - {k};
    }

    /** `update_item` with `SET` clauses and `ReturnValues='ALL_NEW'`. The key
        attributes themselves cannot be set. */
    method UpdateItem(k: Key, updates: Record) returns (updated: Record)
      requires "PK" !in updates && "SK" !in updates
      modifies this
      ensures updated == Merged(old(items), k, updates)
      ensures items == old(items)[k := updated]
    {
      updated := Merged(items, k, updates);
      items := items[k := updated];
    }

    /** `query` with `ScanIndexForward=False`, `Limit` and an optional
        `ExclusiveStartKey`. A limit below 1 is rejected by the store before
        the query runs, so callers pass at least 1. */
    method Query(c: KeyCondition, start: Option<Position>, limit: nat) returns (page: seq<Hit>, last: Option<Position>)
      requires 1 <= limit
      ensures IsPage(items, c, start, limit, page, last)
    {
      var remaining := Candidates(items, c, start);
      page := [];
      while |page| < limit && remaining != {}
        invariant |page| <= limit
        invariant Scanned(items, c, start, remaining, page)
        decreases remaining
      {
        MaxExists(remaining);
        var m :| IsMax(m, remaining);
        ScanStep(items, c, start, remaining, page, m);
        page := page + [Hit(m, items[Key(m.pk, m.sk)])];
        remaining := remaining - {m};
      }
      ScanDone(items, c, start, limit, remaining, page);
      last := if |page| == limit then Some(page[limit - 1].pos) else None;
    }
  }

  /** The audit archive bucket: object key to archived record. */
  class Bucket {
    var objects: map<string, Record>

    constructor (initial: map<string, Record>)
      ensures objects == initial
    {
      objects := initial;
    }

    /** `put_object`: writes (or overwrites) one object. */
    method PutObject(key: string, body: Record)
      modifies this
      ensures objects == old(objects)[key := body]
    {
      objects := objects[key := body];
    }
  }

  /** One entry handed to `put_events`. */
  datatype BusEntry = BusEntry(source: string, detailType: string, detail: Record)

  /** What the bus does with an entry handed to `put_events`: it accepts it,
      rejects it in the response (`FailedEntryCount` 1, no exception), or the
      call raises. */
  datatype Delivery = Accepted | Rejected | Raises

  /** The event bus, as the log of accepted entries. */
  class EventBus {
    var entries: seq<BusEntry>

    constructor ()
      ensures entries == []
    {
      entries := [];
    }

    /** `put_events` with one entry that does not raise: the entry is logged
        when the bus accepts it, and the failed-entry count says whether it
        was rejected. */
    method PutEvent(e: BusEntry, accepted: bool) returns (failedEntryCount: nat)
      modifies this
      ensures entries == if accepted then old(entries) + [e] else old(entries)
      ensures failedEntryCount == if accepted then 0 else 1
    {
      if accepted {
        entries := entries + [e];
        failedEntryCount := 0;
      } else {
        failedEntryCount := 1;
      }
    }
  }
}
