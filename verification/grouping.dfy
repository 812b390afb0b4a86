/** The grouping loop of the consolidator, independent of what a page and a group are: pages
    are visited in arrival order; a page whose key is "" gets a bucket of its own (the source
    stores it under its PRO and a random number, a key no other page can hit), the first page
    for a key starts a group in a new bucket, and a later page for that key is merged into the
    group already stored. The buckets are kept in the order their first page arrived. */
module Grouping {
  import opened Wrappers

  /** A stored group: under its address key, or, for `None`, under a key of its own. */
  datatype Bucket<G> = Bucket(key: Option<string>, group: G)

  /** `grouped[groupKey]`: the position of the bucket stored under an address key, if any. */
  function FindKey<G>(buckets: seq<Bucket<G>>, key: string): (r: Option<nat>)
    ensures r.Some? ==> r.value < |buckets| && buckets[r.value].key == Some(key)
    ensures r.None? ==> forall i :: 0 <= i < |buckets| ==> buckets[i].key != Some(key)
    decreases |buckets|
  {
    if buckets == [] then None
    else if buckets[0].key == Some(key) then Some(0)
    else match FindKey(buckets[1..], key)
      case None =>
        assert forall i :: 1 <= i < |buckets| ==> buckets[i] == buckets[1..][i - 1];
        None
      case Some(i) => Some(i + 1)
  }

  /** One step of the `forEach`: a page without a key gets a bucket of its own, the first page
      for a key starts its group, and a later one is merged into it. */
  function Insert<P, G>(keyOf: P -> string, start: P -> G, add: (G, P) -> G, buckets: seq<Bucket<G>>, page: P)
    : seq<Bucket<G>>
  {
    var key := keyOf(page);
    if key == "" then buckets + [Bucket(None, start(page))]
    else match FindKey(buckets, key)
      case None => buckets + [Bucket(Some(key), start(page))]
      case Some(i) => buckets[i := Bucket(Some(key), add(buckets[i].group, page))]
  }

  /** The buckets after every page has been seen. */
  function GroupPages<P, G>(keyOf: P -> string, start: P -> G, add: (G, P) -> G, pages: seq<P>): seq<Bucket<G>>
    decreases |pages|
  {
    if pages == [] then []
    else Insert(keyOf, start, add, GroupPages(keyOf, start, add, pages[..|pages| - 1]), pages[|pages| - 1])
  }

  /** The group built from pages that all share a key: the first starts it, the rest are added
      in order. */
  function Fold<P, G>(start: P -> G, add: (G, P) -> G, pages: seq<P>): G
    requires pages != []
    decreases |pages|
  {
    if |pages| == 1 then start(pages[0])
    else add(Fold(start, add, pages[..|pages| - 1]), pages[|pages| - 1])
  }

  /** The pages with a given key, in arrival order. */
  function PagesWithKey<P>(keyOf: P -> string, pages: seq<P>, key: string): seq<P>
    decreases |pages|
  {
    if pages == [] then []
    else
      var last := pages[|pages| - 1];
      PagesWithKey(keyOf, pages[..|pages| - 1], key) + if keyOf(last) == key then [last] else []
  }

  /** The distinct non-empty keys of the pages. */
  function Keys<P>(keyOf: P -> string, pages: seq<P>): set<string>
    decreases |pages|
  {
    if pages == [] then {}
    else
      var key := keyOf(pages[|pages| - 1]);
      Keys(keyOf, pages[..|pages| - 1]) + if key != "" then {key} else {}
  }

  /** The groups of the buckets without an address key, in bucket order. */
  function UnkeyedGroups<G>(buckets: seq<Bucket<G>>): seq<G>
    decreases |buckets|
  {
    if buckets == [] then []
    else
      var last := buckets[|buckets| - 1];
      UnkeyedGroups(buckets[..|buckets| - 1]) + if last.key.None? then [last.group] else []
  }

  /** A one-page group for each page. */
  function Singletons<P, G>(start: P -> G, pages: seq<P>): (r: seq<G>)
    ensures |r| == |pages| && forall i :: 0 <= i < |pages| ==> r[i] == start(pages[i])
  {
    seq(|pages|, i requires 0 <= i < |pages| => start(pages[i]))
  }

  function BucketKeys<G>(buckets: seq<Bucket<G>>): set<string> {
    set i | 0 <= i < |buckets| && buckets[i].key.Some? :: buckets[i].key.value
  }

  predicate DistinctKeys<G>(buckets: seq<Bucket<G>>) {
    forall i, j :: 0 <= i < j < |buckets| && buckets[i].key.Some? ==> buckets[i].key != buckets[j].key
  }

  /** Every bucket stored under an address key holds the group of exactly the pages with that
      key. */
  ghost predicate KeyedBucketsHold<P, G>(
    keyOf: P -> string, start: P -> G, add: (G, P) -> G, buckets: seq<Bucket<G>>, pages: seq<P>)
  {
    forall i :: 0 <= i < |buckets| && buckets[i].key.Some? ==>
      && buckets[i].key.value != ""
      && PagesWithKey(keyOf, pages, buckets[i].key.value) != []
      && buckets[i].group == Fold(start, add, PagesWithKey(keyOf, pages, buckets[i].key.value))
  }

  /** What the buckets hold after `pages`: one bucket per non-empty key holding the group of
      exactly the pages with that key, one single-page bucket per page without a key, in
      arrival order, and nothing else. */
  ghost predicate GroupedBy<P, G>(
    keyOf: P -> string, start: P -> G, add: (G, P) -> G, buckets: seq<Bucket<G>>, pages: seq<P>)
  {
    && DistinctKeys(buckets)
    && BucketKeys(buckets) == Keys(keyOf, pages)
    && KeyedBucketsHold(keyOf, start, add, buckets, pages)
    && UnkeyedGroups(buckets) == Singletons(start, PagesWithKey(keyOf, pages, ""))
    && |buckets| == |Keys(keyOf, pages)| + |PagesWithKey(keyOf, pages, "")|
  }

  lemma {:induction false} KeysHoldPages<P>(keyOf: P -> string, pages: seq<P>, key: string)
    ensures key in Keys(keyOf, pages) <==> key != "" && PagesWithKey(keyOf, pages, key) != []
    decreases |pages|
  {
    if pages != [] {
      KeysHoldPages(keyOf, pages[..|pages| - 1], key);
    }
  }

  /** A page adds itself to the pages of its own key and to no other. */
  lemma PagesWithKeyAppend<P>(keyOf: P -> string, pages: seq<P>, page: P)
    ensures PagesWithKey(keyOf, pages + [page], keyOf(page)) == PagesWithKey(keyOf, pages, keyOf(page)) + [page]
    ensures forall k :: k != keyOf(page) ==> PagesWithKey(keyOf, pages + [page], k) == PagesWithKey(keyOf, pages, k)
    ensures Keys(keyOf, pages + [page]) == Keys(keyOf, pages) + if keyOf(page) != "" then {keyOf(page)} else {}
  {
    var ps := pages + [page];
    assert ps[..|ps| - 1] == pages;
  }

  lemma BucketKeysAppend<G>(buckets: seq<Bucket<G>>, b: Bucket<G>)
    ensures BucketKeys(buckets + [b]) == BucketKeys(buckets) + if b.key.Some? then {b.key.value} else {}
  {
    var bs := buckets + [b];
    assert forall i :: 0 <= i < |buckets| ==> bs[i] == buckets[i];
    assert bs[|buckets|] == b;
    forall k | k in BucketKeys(bs) ensures k in BucketKeys(buckets) || (b.key.Some? && k == b.key.value) {
      var i :| 0 <= i < |bs| && bs[i].key.Some? && bs[i].key.value == k;
      if i < |buckets| {
        assert buckets[i].key.value == k;
      }
    }
  }

  lemma BucketKeysUpdate<G>(buckets: seq<Bucket<G>>, i: int, b: Bucket<G>)
    requires 0 <= i < |buckets| && buckets[i].key == b.key
    ensures BucketKeys(buckets[i := b]) == BucketKeys(buckets)
  {
    var bs := buckets[i := b];
    forall k | k in BucketKeys(bs) ensures k in BucketKeys(buckets) {
      var j :| 0 <= j < |bs| && bs[j].key.Some? && bs[j].key.value == k;
      assert buckets[j].key == bs[j].key;
    }
    forall k | k in BucketKeys(buckets) ensures k in BucketKeys(bs) {
      var j :| 0 <= j < |buckets| && buckets[j].key.Some? && buckets[j].key.value == k;
      assert buckets[j].key == bs[j].key;
    }
  }

  lemma UnkeyedGroupsAppend<G>(buckets: seq<Bucket<G>>, b: Bucket<G>)
    ensures UnkeyedGroups(buckets + [b]) == UnkeyedGroups(buckets) + if b.key.None? then [b.group] else []
  {
    var bs := buckets + [b];
    assert bs[..|bs| - 1] == buckets;
  }

  lemma {:induction false} UnkeyedGroupsUpdate<G>(buckets: seq<Bucket<G>>, i: int, b: Bucket<G>)
    requires 0 <= i < |buckets| && buckets[i].key.Some? && b.key.Some?
    ensures UnkeyedGroups(buckets[i := b]) == UnkeyedGroups(buckets)
    decreases |buckets|
  {
    var bs := buckets[i := b];
    var n := |buckets| - 1;
    if i < n {
      assert bs[..n] == buckets[..n][i := b];
      UnkeyedGroupsUpdate(buckets[..n], i, b);
    } else {
      assert bs[..n] == buckets[..n];
    }
  }

  lemma SingletonsAppend<P, G>(start: P -> G, pages: seq<P>, page: P)
    ensures Singletons(start, pages + [page]) == Singletons(start, pages) + [start(page)]
  {
  }

  /** Appending a bucket for a key no bucket holds keeps the keys distinct. */
  lemma DistinctAfterAppend<G>(buckets: seq<Bucket<G>>, b: Bucket<G>)
    requires DistinctKeys(buckets)
    requires forall i :: 0 <= i < |buckets| ==> buckets[i].key.None? || buckets[i].key != b.key
    ensures DistinctKeys(buckets + [b])
  {
    var bs := buckets + [b];
    assert forall i :: 0 <= i < |buckets| ==> bs[i] == buckets[i];
  }

  /** A new last bucket that is either unkeyed or the single-page group of a key no bucket
      holds leaves every keyed bucket holding its pages. */
  lemma KeyedAfterAppend<P, G>(keyOf: P -> string, start: P -> G, add: (G, P) -> G, buckets: seq<Bucket<G>>, pages: seq<P>, page: P, b: Bucket<G>)
    requires KeyedBucketsHold(keyOf, start, add, buckets, pages)
    requires forall i :: 0 <= i < |buckets| ==> buckets[i].key != Some(keyOf(page))
    requires b.key.Some? ==>
               b.key == Some(keyOf(page)) && keyOf(page) != "" && b.group == start(page)
               && PagesWithKey(keyOf, pages, keyOf(page)) == []
    ensures KeyedBucketsHold(keyOf, start, add, buckets + [b], pages + [page])
  {
    var bs := buckets + [b];
    PagesWithKeyAppend(keyOf, pages, page);
    assert forall i :: 0 <= i < |buckets| ==> bs[i] == buckets[i];
    if b.key.Some? {
      assert PagesWithKey(keyOf, pages + [page], keyOf(page)) == [page];
    }
  }

  /** A page without a key is appended as a bucket of its own. */
  lemma InsertUnkeyed<P, G>(keyOf: P -> string, start: P -> G, add: (G, P) -> G, buckets: seq<Bucket<G>>, pages: seq<P>, page: P)
    requires GroupedBy(keyOf, start, add, buckets, pages) && keyOf(page) == ""
    ensures GroupedBy(keyOf, start, add, Insert(keyOf, start, add, buckets, page), pages + [page])
  {
    var ps := pages + [page];
    var b := Bucket(None, start(page));
    var bs := buckets + [b];
    assert Insert(keyOf, start, add, buckets, page) == bs;
    PagesWithKeyAppend(keyOf, pages, page);
    assert DistinctKeys(bs) by {
      DistinctAfterAppend(buckets, b);
    }
    assert BucketKeys(bs) == Keys(keyOf, ps) by {
      BucketKeysAppend(buckets, b);
    }
    assert KeyedBucketsHold(keyOf, start, add, bs, ps) by {
      KeyedAfterAppend(keyOf, start, add, buckets, pages, page, b);
    }
    assert UnkeyedGroups(bs) == Singletons(start, PagesWithKey(keyOf, ps, "")) by {
      UnkeyedGroupsAppend(buckets, b);
      SingletonsAppend(start, PagesWithKey(keyOf, pages, ""), page);
    }
  }

  /** The first page for a key starts a new bucket at the end. */
  lemma InsertFirstOfKey<P, G>(keyOf: P -> string, start: P -> G, add: (G, P) -> G, buckets: seq<Bucket<G>>, pages: seq<P>, page: P)
    requires GroupedBy(keyOf, start, add, buckets, pages) && keyOf(page) != "" && FindKey(buckets, keyOf(page)).None?
    ensures GroupedBy(keyOf, start, add, Insert(keyOf, start, add, buckets, page), pages + [page])
  {
    var key := keyOf(page);
    var ps := pages + [page];
    var b := Bucket(Some(key), start(page));
    var bs := buckets + [b];
    assert Insert(keyOf, start, add, buckets, page) == bs;
    PagesWithKeyAppend(keyOf, pages, page);
    assert key !in Keys(keyOf, pages) by {
      assert key !in BucketKeys(buckets);
    }
    assert DistinctKeys(bs) by {
      DistinctAfterAppend(buckets, b);
    }
    assert BucketKeys(bs) == Keys(keyOf, ps) by {
      BucketKeysAppend(buckets, b);
    }
    assert KeyedBucketsHold(keyOf, start, add, bs, ps) by {
      KeysHoldPages(keyOf, pages, key);
      KeyedAfterAppend(keyOf, start, add, buckets, pages, page, b);
    }
    assert UnkeyedGroups(bs) == Singletons(start, PagesWithKey(keyOf, ps, "")) by {
      UnkeyedGroupsAppend(buckets, b);
    }
  }

  /** A later page for a key is merged into its bucket, which stays where it was. */
  lemma InsertIntoKey<P, G>(keyOf: P -> string, start: P -> G, add: (G, P) -> G, buckets: seq<Bucket<G>>, pages: seq<P>, page: P, i: nat)
    requires GroupedBy(keyOf, start, add, buckets, pages) && keyOf(page) != "" && FindKey(buckets, keyOf(page)) == Some(i)
    ensures GroupedBy(keyOf, start, add, Insert(keyOf, start, add, buckets, page), pages + [page])
  {
    assert Insert(keyOf, start, add, buckets, page) == buckets[i := Bucket(Some(keyOf(page)), add(buckets[i].group, page))];
    MergeIntoBucket(keyOf, start, add, buckets, pages, page, i);
  }

  lemma MergeIntoBucket<P, G>(keyOf: P -> string, start: P -> G, add: (G, P) -> G, buckets: seq<Bucket<G>>, pages: seq<P>, page: P, i: nat)
    requires GroupedBy(keyOf, start, add, buckets, pages) && keyOf(page) != ""
    requires i < |buckets| && buckets[i].key == Some(keyOf(page))
    ensures GroupedBy(keyOf, start, add, buckets[i := Bucket(Some(keyOf(page)), add(buckets[i].group, page))], pages + [page])
  {
    var key := keyOf(page);
    var ps := pages + [page];
    var b := Bucket(Some(key), add(buckets[i].group, page));
    var bs := buckets[i := b];
    assert key in Keys(keyOf, pages) by {
      assert key in BucketKeys(buckets);
    }
    PagesWithKeyAppend(keyOf, pages, page);
    DistinctAfterUpdate(buckets, i, b);
    assert BucketKeys(bs) == Keys(keyOf, ps) by {
      BucketKeysUpdate(buckets, i, b);
    }
    assert KeyedBucketsHold(keyOf, start, add, bs, ps) by {
      MergedBucketHolds(keyOf, start, add, buckets, pages, page, i);
    }
    assert UnkeyedGroups(bs) == Singletons(start, PagesWithKey(keyOf, ps, "")) by {
      UnkeyedGroupsUpdate(buckets, i, b);
    }
    assert Keys(keyOf, ps) == Keys(keyOf, pages);
    assert PagesWithKey(keyOf, ps, "") == PagesWithKey(keyOf, pages, "");
  }

  lemma DistinctAfterUpdate<G>(buckets: seq<Bucket<G>>, i: int, b: Bucket<G>)
    requires DistinctKeys(buckets) && 0 <= i < |buckets| && buckets[i].key == b.key
    ensures DistinctKeys(buckets[i := b])
  {
    var bs := buckets[i := b];
    forall j, l | 0 <= j < l < |bs| && bs[j].key.Some? ensures bs[j].key != bs[l].key {
      assert bs[j].key == buckets[j].key && bs[l].key == buckets[l].key;
    }
  }

  lemma MergedBucketHolds<P, G>(keyOf: P -> string, start: P -> G, add: (G, P) -> G, buckets: seq<Bucket<G>>, pages: seq<P>, page: P, i: nat)
    requires KeyedBucketsHold(keyOf, start, add, buckets, pages)
    requires i < |buckets| && buckets[i].key == Some(keyOf(page))
    ensures add(buckets[i].group, page) == Fold(start, add, PagesWithKey(keyOf, pages + [page], keyOf(page)))
  {
    var before := PagesWithKey(keyOf, pages, keyOf(page));
    PagesWithKeyAppend(keyOf, pages, page);
    assert (before + [page])[..|before|] == before;
  }

  lemma InsertGrouped<P, G>(keyOf: P -> string, start: P -> G, add: (G, P) -> G, buckets: seq<Bucket<G>>, pages: seq<P>, page: P)
    requires GroupedBy(keyOf, start, add, buckets, pages)
    ensures GroupedBy(keyOf, start, add, Insert(keyOf, start, add, buckets, page), pages + [page])
  {
    var key := keyOf(page);
    if key == "" {
      InsertUnkeyed(keyOf, start, add, buckets, pages, page);
    } else {
      match FindKey(buckets, key)
      case None => InsertFirstOfKey(keyOf, start, add, buckets, pages, page);
      case Some(i) => InsertIntoKey(keyOf, start, add, buckets, pages, page, i);
    }
  }

  /** The fold over all pages leaves the buckets grouped by key. */
  lemma {:induction false} GroupPagesGrouped<P, G>(keyOf: P -> string, start: P -> G, add: (G, P) -> G, pages: seq<P>)
    ensures GroupedBy(keyOf, start, add, GroupPages(keyOf, start, add, pages), pages)
    decreases |pages|
  {
    if pages != [] {
      var init := pages[..|pages| - 1];
      var last := pages[|pages| - 1];
      assert init + [last] == pages;
      GroupPagesGrouped(keyOf, start, add, init);
      InsertGrouped(keyOf, start, add, GroupPages(keyOf, start, add, init), init, last);
    }
  }

  /** A group sits in an unkeyed bucket exactly when it is one of the unkeyed groups. */
  lemma {:induction false} UnkeyedGroupsMember<G>(buckets: seq<Bucket<G>>, g: G)
    ensures g in UnkeyedGroups(buckets) <==>
              exists i :: 0 <= i < |buckets| && buckets[i].key.None? && buckets[i].group == g
    decreases |buckets|
  {
    if buckets != [] {
      var n := |buckets| - 1;
      UnkeyedGroupsMember(buckets[..n], g);
      assert forall i :: 0 <= i < n ==> buckets[..n][i] == buckets[i];
    }
  }

  /** The grouping in terms of the pages alone: every non-empty key has exactly one bucket,
      holding the fold of exactly its pages; the pages without a key have one single-page
      bucket each, in page order; every bucket is one of these, and there are as many buckets
      as non-empty keys plus pages without a key. */
  lemma GroupPagesSpec<P, G>(keyOf: P -> string, start: P -> G, add: (G, P) -> G, pages: seq<P>)
    ensures forall k :: k in Keys(keyOf, pages) <==> k != "" && PagesWithKey(keyOf, pages, k) != []
    ensures |GroupPages(keyOf, start, add, pages)| == |Keys(keyOf, pages)| + |PagesWithKey(keyOf, pages, "")|
    // No key has two buckets, and the unkeyed buckets are one per unkeyed page, in page order.
    ensures DistinctKeys(GroupPages(keyOf, start, add, pages))
    ensures UnkeyedGroups(GroupPages(keyOf, start, add, pages)) == Singletons(start, PagesWithKey(keyOf, pages, ""))
    ensures forall k :: k in Keys(keyOf, pages) ==>
              exists i :: 0 <= i < |GroupPages(keyOf, start, add, pages)| &&
                GroupPages(keyOf, start, add, pages)[i] == Bucket(Some(k), Fold(start, add, PagesWithKey(keyOf, pages, k)))
    ensures forall p :: p in PagesWithKey(keyOf, pages, "") ==>
              exists i :: 0 <= i < |GroupPages(keyOf, start, add, pages)| &&
                GroupPages(keyOf, start, add, pages)[i] == Bucket(None, start(p))
    ensures forall i :: 0 <= i < |GroupPages(keyOf, start, add, pages)| ==>
              var b := GroupPages(keyOf, start, add, pages)[i];
              || (b.key.Some? && b.key.value in Keys(keyOf, pages) &&
                    b.group == Fold(start, add, PagesWithKey(keyOf, pages, b.key.value)))
              || (b.key.None? && exists p :: p in PagesWithKey(keyOf, pages, "") && b.group == start(p))
  {
    forall k {
      KeysHoldPages(keyOf, pages, k);
    }
    GroupPagesGrouped(keyOf, start, add, pages);
    forall k | k in Keys(keyOf, pages)
      ensures exists i :: 0 <= i < |GroupPages(keyOf, start, add, pages)| &&
                GroupPages(keyOf, start, add, pages)[i] == Bucket(Some(k), Fold(start, add, PagesWithKey(keyOf, pages, k)))
    {
      KeyHasBucket(keyOf, start, add, pages, k);
    }
    forall p | p in PagesWithKey(keyOf, pages, "")
      ensures exists i :: 0 <= i < |GroupPages(keyOf, start, add, pages)| &&
                GroupPages(keyOf, start, add, pages)[i] == Bucket(None, start(p))
    {
      UnkeyedPageHasBucket(keyOf, start, add, pages, p);
    }
    EveryBucketHasOrigin(keyOf, start, add, pages);
  }

  lemma KeyHasBucket<P, G>(keyOf: P -> string, start: P -> G, add: (G, P) -> G, pages: seq<P>, k: string)
    requires k in Keys(keyOf, pages)
    ensures PagesWithKey(keyOf, pages, k) != []
    ensures exists i :: 0 <= i < |GroupPages(keyOf, start, add, pages)| &&
              GroupPages(keyOf, start, add, pages)[i] == Bucket(Some(k), Fold(start, add, PagesWithKey(keyOf, pages, k)))
  {
    var bs := GroupPages(keyOf, start, add, pages);
    GroupPagesGrouped(keyOf, start, add, pages);
    KeysHoldPages(keyOf, pages, k);
    assert k in BucketKeys(bs);
    var i :| 0 <= i < |bs| && bs[i].key.Some? && bs[i].key.value == k;
    assert bs[i] == Bucket(Some(k), Fold(start, add, PagesWithKey(keyOf, pages, k)));
  }

  lemma UnkeyedPageHasBucket<P, G>(keyOf: P -> string, start: P -> G, add: (G, P) -> G, pages: seq<P>, p: P)
    requires p in PagesWithKey(keyOf, pages, "")
    ensures exists i :: 0 <= i < |GroupPages(keyOf, start, add, pages)| &&
              GroupPages(keyOf, start, add, pages)[i] == Bucket(None, start(p))
  {
    var bs := GroupPages(keyOf, start, add, pages);
    var unkeyed := PagesWithKey(keyOf, pages, "");
    var j :| 0 <= j < |unkeyed| && unkeyed[j] == p;
    assert start(p) in UnkeyedGroups(bs) by {
      GroupPagesGrouped(keyOf, start, add, pages);
      assert Singletons(start, unkeyed)[j] == start(p);
    }
    UnkeyedGroupsMember(bs, start(p));
    var i :| 0 <= i < |bs| && bs[i].key.None? && bs[i].group == start(p);
    assert bs[i] == Bucket(None, start(p));
  }

  lemma EveryBucketHasOrigin<P, G>(keyOf: P -> string, start: P -> G, add: (G, P) -> G, pages: seq<P>)
    ensures forall k :: k in Keys(keyOf, pages) ==> PagesWithKey(keyOf, pages, k) != []
    ensures forall i :: 0 <= i < |GroupPages(keyOf, start, add, pages)| ==>
              var b := GroupPages(keyOf, start, add, pages)[i];
              || (b.key.Some? && b.key.value in Keys(keyOf, pages) &&
                    b.group == Fold(start, add, PagesWithKey(keyOf, pages, b.key.value)))
              || (b.key.None? && exists p :: p in PagesWithKey(keyOf, pages, "") && b.group == start(p))
  {
    forall k {
      KeysHoldPages(keyOf, pages, k);
    }
    var bs := GroupPages(keyOf, start, add, pages);
    var unkeyed := PagesWithKey(keyOf, pages, "");
    GroupPagesGrouped(keyOf, start, add, pages);
    forall i | 0 <= i < |bs| && bs[i].key.None?
      ensures exists p :: p in unkeyed && bs[i].group == start(p)
    {
      UnkeyedGroupsMember(bs, bs[i].group);
      var j :| 0 <= j < |unkeyed| && Singletons(start, unkeyed)[j] == bs[i].group;
      assert unkeyed[j] in unkeyed;
    }
    assert forall i :: 0 <= i < |bs| && bs[i].key.Some? ==> bs[i].key.value in BucketKeys(bs);
  }

  /** The `map` over the stored groups, in bucket order. */
  method MapGroups<G, R>(buckets: seq<Bucket<G>>, f: G -> R) returns (rs: seq<R>)
    ensures |rs| == |buckets|
    ensures forall m :: 0 <= m < |rs| ==> rs[m] == f(buckets[m].group)
  {
    rs := [];
    for j := 0 to |buckets|
      invariant |rs| == j
      invariant forall m :: 0 <= m < j ==> rs[m] == f(buckets[m].group)
    {
      rs := rs + [f(buckets[j].group)];
    }
  }
}
