/** The mentions service (src/services/mentions.ts): the query `getMentions`
    sends and what it returns. The query is a sequence of `(key, value)`
    pairs in nine blocks, one per key, in a fixed order; each block holds
    only pairs with its key. The HTTP answer is a parameter. */
module MentionsService {
  import opened Common
  import opened MentionTypes

  /* ---------- blocks of pairs ---------- */

  /** The pairs of the blocks, block after block. */
  function Flatten(blocks: seq<seq<Param>>): seq<Param>
  {
    if blocks == [] then [] else Flatten(blocks[..|blocks| - 1]) + blocks[|blocks| - 1]
  }

  /** Appending block `k` to the first `k` blocks. */
  lemma FlattenStep(blocks: seq<seq<Param>>, k: int)
    requires 0 <= k < |blocks|
    ensures Flatten(blocks[..k + 1]) == Flatten(blocks[..k]) + blocks[k]
  {
    assert blocks[..k + 1][..k] == blocks[..k];
  }

  /** Appending one more block. */
  lemma FlattenSnoc(blocks: seq<seq<Param>>, b: seq<Param>)
    ensures Flatten(blocks + [b]) == Flatten(blocks) + b
  {
    assert (blocks + [b])[..|blocks|] == blocks;
  }

  /** Block `b` holds only pairs whose key is `keys[b]`; there may be fewer
      blocks than keys. */
  predicate Keyed(blocks: seq<seq<Param>>, keys: seq<string>)
  {
    |blocks| <= |keys| && forall b, x :: 0 <= b < |blocks| && x in blocks[b] ==> x.key == keys[b]
  }

  predicate Distinct(keys: seq<string>)
  {
    forall i, j :: 0 <= i < j < |keys| ==> keys[i] != keys[j]
  }

  /** The position of `k` in `keys`, or `|keys|` when it is not there. */
  function Rank(keys: seq<string>, k: string): (r: nat)
    ensures r <= |keys|
    ensures r < |keys| ==> keys[r] == k
    ensures forall i :: 0 <= i < r ==> keys[i] != k
  {
    if keys == [] then 0
    else if keys[0] == k then 0
    else 1 + Rank(keys[1..], k)
  }

  lemma RankOfKey(keys: seq<string>, b: int)
    requires Distinct(keys) && 0 <= b < |keys|
    ensures Rank(keys, keys[b]) == b
  {
  }

  /** Every key of `q` is among the first `n` of `keys`. */
  predicate RanksBelow(q: seq<Param>, keys: seq<string>, n: int)
  {
    forall i :: 0 <= i < |q| ==> Rank(keys, q[i].key) < n
  }

  /** Along `q` the keys never go back in `keys`' order. */
  predicate InKeyOrder(q: seq<Param>, keys: seq<string>)
  {
    forall i, j :: 0 <= i < j < |q| ==> Rank(keys, q[i].key) <= Rank(keys, q[j].key)
  }

  /** The first `n` blocks are keyed like all of them. */
  lemma KeyedPrefix(blocks: seq<seq<Param>>, keys: seq<string>, n: int)
    requires Keyed(blocks, keys) && 0 <= n <= |blocks|
    ensures Keyed(blocks[..n], keys)
  {
    forall b, x | 0 <= b < n && x in blocks[..n][b]
      ensures x.key == keys[b]
    {
      assert x in blocks[b];
    }
  }

  /** The flattened blocks follow `keys`' order, and only the keys of the
      blocks present occur. */
  lemma {:induction false} FlattenOrdered(blocks: seq<seq<Param>>, keys: seq<string>)
    requires Keyed(blocks, keys) && Distinct(keys)
    ensures RanksBelow(Flatten(blocks), keys, |blocks|)
    ensures InKeyOrder(Flatten(blocks), keys)
    decreases |blocks|
  {
    if blocks != [] {
      var n := |blocks| - 1;
      var init := Flatten(blocks[..n]);
      var last := blocks[n];
      KeyedPrefix(blocks, keys, n);
      FlattenOrdered(blocks[..n], keys);
      assert RanksBelow(init, keys, n);
      RankOfKey(keys, n);
      var q := init + last;
      assert q == Flatten(blocks);
      forall i | 0 <= i < |q|
        ensures i < |init| ==> Rank(keys, q[i].key) < n
        ensures i >= |init| ==> Rank(keys, q[i].key) == n
      {
        if i >= |init| {
          assert q[i] == last[i - |init|];
          assert q[i] in last;
        } else {
          assert q[i] == init[i];
        }
      }
      forall i, j | 0 <= i < j < |q|
        ensures Rank(keys, q[i].key) <= Rank(keys, q[j].key)
      {
        if j < |init| {
          assert q[i] == init[i] && q[j] == init[j];
        }
      }
    }
  }

  /** The pairs of key `keys[j]` in the flattened blocks are block `j`. */
  lemma {:induction false} WithKeyFlatten(blocks: seq<seq<Param>>, keys: seq<string>, j: int)
    requires Keyed(blocks, keys) && Distinct(keys) && 0 <= j < |keys|
    ensures WithKey(Flatten(blocks), keys[j]) == if j < |blocks| then blocks[j] else []
    decreases |blocks|
  {
    if blocks != [] {
      var n := |blocks| - 1;
      var init := Flatten(blocks[..n]);
      var last := blocks[n];
      KeyedPrefix(blocks, keys, n);
      WithKeyConcat(init, last, keys[j]);
      if j == n {
        WithKeyAll(last, keys[j]);
        EarlierBlocksLackKey(blocks[..n], keys, n);
      } else {
        assert keys[n] != keys[j];
        WithKeyNone(last, keys[j]);
        WithKeyFlatten(blocks[..n], keys, j);
      }
    }
  }

  /** No pair of the blocks before block `n` has key `keys[n]`. */
  lemma EarlierBlocksLackKey(init: seq<seq<Param>>, keys: seq<string>, n: int)
    requires Keyed(init, keys) && Distinct(keys) && |init| == n < |keys|
    ensures WithKey(Flatten(init), keys[n]) == []
  {
    var q := Flatten(init);
    FlattenOrdered(init, keys);
    RankOfKey(keys, n);
    forall x | x in q
      ensures x.key != keys[n]
    {
      var i :| 0 <= i < |q| && q[i] == x;
      assert Rank(keys, q[i].key) < n;
    }
    WithKeyNone(q, keys[n]);
  }

  /* ---------- the query of getMentions ---------- */

  /** The keys of the query, in the order they are appended. */
  const QueryKeys: seq<string> :=
    ["product_id", "platform", "sentiment", "intent", "priority", "from_date", "to_date", "page", "page_size"]

  lemma QueryKeysDistinct()
    ensures Distinct(QueryKeys)
  {
  }

  /** `if (v) params.append(key, v)` */
  function OptionalPair(key: string, v: Option<string>): (r: seq<Param>)
    ensures Truthy(v) ==> r == [Param(key, v.value)]
    ensures !Truthy(v) ==> r == []
  {
    if Truthy(v) then [Param(key, v.value)] else []
  }

  /** `if (filter.product_id) params.append('product_id', …)`: 0 is falsy. */
  function ProductIdPair(id: Option<int>): (r: seq<Param>)
    ensures id.Some? && id.value != 0 ==> r == [Param("product_id", IntToString(id.value))]
    ensures id.None? || id.value == 0 ==> r == []
  {
    if id.Some? && id.value != 0 then [Param("product_id", IntToString(id.value))] else []
  }

  /** One pair per value, in order. */
  function EachPair(key: string, vs: seq<string>): (r: seq<Param>)
    ensures |r| == |vs|
    ensures forall i :: 0 <= i < |vs| ==> r[i] == Param(key, vs[i])
  {
    seq(|vs|, i requires 0 <= i < |vs| => Param(key, vs[i]))
  }

  /** Whether the filter carries a non-empty `platforms` list. */
  predicate HasPlatforms(filter: MentionFilter)
  {
    filter.platforms.Some? && |filter.platforms.value| > 0
  }

  /** The platform pairs: one per element of a non-empty `platforms`, else
      the single `platform` when it is truthy. */
  function PlatformPairs(filter: MentionFilter): (r: seq<Param>)
    ensures HasPlatforms(filter) ==> r == EachPair("platform", filter.platforms.value)
    ensures !HasPlatforms(filter) ==> r == OptionalPair("platform", filter.platform)
  {
    if HasPlatforms(filter) then EachPair("platform", filter.platforms.value)
    else OptionalPair("platform", filter.platform)
  }

  /** The query's blocks; block `b` carries key `QueryKeys[b]`. */
  function QueryBlocks(filter: MentionFilter, page: int, pageSize: int): (blocks: seq<seq<Param>>)
    ensures |blocks| == |QueryKeys|
  {
    [ProductIdPair(filter.product_id),
     PlatformPairs(filter),
     OptionalPair("sentiment", filter.sentiment),
     OptionalPair("intent", filter.intent),
     OptionalPair("priority", filter.priority),
     OptionalPair("from_date", filter.from_date),
     OptionalPair("to_date", filter.to_date),
     [Param("page", IntToString(page))],
     [Param("page_size", IntToString(pageSize))]]
  }

  /** Every pair of `block` has key `key`. */
  predicate AllKeyed(block: seq<Param>, key: string)
  {
    forall x :: x in block ==> x.key == key
  }

  /** Nine blocks, each keyed by the key at its position. */
  lemma KeyedNine(b0: seq<Param>, b1: seq<Param>, b2: seq<Param>, b3: seq<Param>, b4: seq<Param>,
                  b5: seq<Param>, b6: seq<Param>, b7: seq<Param>, b8: seq<Param>,
                  k0: string, k1: string, k2: string, k3: string, k4: string,
                  k5: string, k6: string, k7: string, k8: string)
    requires AllKeyed(b0, k0) && AllKeyed(b1, k1) && AllKeyed(b2, k2)
    requires AllKeyed(b3, k3) && AllKeyed(b4, k4) && AllKeyed(b5, k5)
    requires AllKeyed(b6, k6) && AllKeyed(b7, k7) && AllKeyed(b8, k8)
    ensures Keyed([b0, b1, b2, b3, b4, b5, b6, b7, b8], [k0, k1, k2, k3, k4, k5, k6, k7, k8])
  {
    var bs := [b0, b1, b2, b3, b4, b5, b6, b7, b8];
    var keys := [k0, k1, k2, k3, k4, k5, k6, k7, k8];
    forall b: int, x: Param | 0 <= b < |bs| && x in bs[b]
      ensures x.key == keys[b]
    {
      assert AllKeyed(bs[b], keys[b]);
    }
  }

  /** Each builder's pairs carry its key. */
  lemma PairsKeyed(filter: MentionFilter, key: string, v: Option<string>)
    ensures AllKeyed(ProductIdPair(filter.product_id), "product_id")
    ensures AllKeyed(PlatformPairs(filter), "platform")
    ensures AllKeyed(OptionalPair(key, v), key)
  {
    if HasPlatforms(filter) {
      var r := PlatformPairs(filter);
      forall x | x in r
        ensures x.key == "platform"
      {
        var i :| 0 <= i < |r| && r[i] == x;
      }
    }
  }

  /** Block `b` of the query carries only key `QueryKeys[b]`. */
  lemma QueryBlocksKeyed(filter: MentionFilter, page: int, pageSize: int)
    ensures Keyed(QueryBlocks(filter, page, pageSize), QueryKeys)
  {
    PairsKeyed(filter, "sentiment", filter.sentiment);
    PairsKeyed(filter, "intent", filter.intent);
    PairsKeyed(filter, "priority", filter.priority);
    PairsKeyed(filter, "from_date", filter.from_date);
    PairsKeyed(filter, "to_date", filter.to_date);
    KeyedNine(ProductIdPair(filter.product_id),
      PlatformPairs(filter),
      OptionalPair("sentiment", filter.sentiment),
      OptionalPair("intent", filter.intent),
      OptionalPair("priority", filter.priority),
      OptionalPair("from_date", filter.from_date),
      OptionalPair("to_date", filter.to_date),
      [Param("page", IntToString(page))],
      [Param("page_size", IntToString(pageSize))],
      "product_id", "platform", "sentiment", "intent", "priority", "from_date", "to_date", "page", "page_size");
  }

  /** The pairs `getMentions(filter, page, pageSize)` appends. */
  function MentionsQueryOf(filter: MentionFilter, page: int, pageSize: int): seq<Param>
  {
    Flatten(QueryBlocks(filter, page, pageSize))
  }

  /** `if (v) params.append(key, v)` on the list built so far. */
  method AppendIfTruthy(params: seq<Param>, key: string, v: Option<string>) returns (r: seq<Param>)
    ensures r == params + OptionalPair(key, v)
  {
    r := params;
    if v.Some? && v.value != "" {
      r := r + [Param(key, v.value)];
    }
  }

  /** The platform appends: the `forEach` over a non-empty `platforms`, else
      the single `platform`. */
  method AppendPlatforms(params: seq<Param>, filter: MentionFilter) returns (r: seq<Param>)
    ensures r == params + PlatformPairs(filter)
  {
    r := params;
    if filter.platforms.Some? && |filter.platforms.value| > 0 {
      var platforms := filter.platforms.value;
      var i := 0;
      while i < |platforms|
        invariant 0 <= i <= |platforms|
        invariant r == params + EachPair("platform", platforms[..i])
      {
        assert EachPair("platform", platforms[..i + 1])
          == EachPair("platform", platforms[..i]) + [Param("platform", platforms[i])];
        r := r + [Param("platform", platforms[i])];
        i := i + 1;
      }
      assert platforms[..i] == platforms;
    } else {
      r := AppendIfTruthy(r, "platform", filter.platform);
    }
  }

  /** `getMentions`'s query building, append after append. */
  method MentionsQuery(filter: MentionFilter, page: int := 1, pageSize: int := 10)
    returns (params: seq<Param>)
    ensures params == MentionsQueryOf(filter, page, pageSize)
  {
    params := ProductIdPair(filter.product_id);
    ghost var done := [params];
    assert done[..0] == [];
    assert params == Flatten(done);
    ghost var block := PlatformPairs(filter);
    params := AppendPlatforms(params, filter);
    FlattenSnoc(done, block);
    done := done + [block];
    assert params == Flatten(done);
    block := OptionalPair("sentiment", filter.sentiment);
    params := AppendIfTruthy(params, "sentiment", filter.sentiment);
    FlattenSnoc(done, block);
    done := done + [block];
    assert params == Flatten(done);
    block := OptionalPair("intent", filter.intent);
    params := AppendIfTruthy(params, "intent", filter.intent);
    FlattenSnoc(done, block);
    done := done + [block];
    assert params == Flatten(done);
    block := OptionalPair("priority", filter.priority);
    params := AppendIfTruthy(params, "priority", filter.priority);
    FlattenSnoc(done, block);
    done := done + [block];
    assert params == Flatten(done);
    block := OptionalPair("from_date", filter.from_date);
    params := AppendIfTruthy(params, "from_date", filter.from_date);
    FlattenSnoc(done, block);
    done := done + [block];
    assert params == Flatten(done);
    block := OptionalPair("to_date", filter.to_date);
    params := AppendIfTruthy(params, "to_date", filter.to_date);
    FlattenSnoc(done, block);
    done := done + [block];
    assert params == Flatten(done);
    block := [Param("page", IntToString(page))];
    params := params + [Param("page", IntToString(page))];
    FlattenSnoc(done, block);
    done := done + [block];
    assert params == Flatten(done);
    block := [Param("page_size", IntToString(pageSize))];
    params := params + [Param("page_size", IntToString(pageSize))];
    FlattenSnoc(done, block);
    done := done + [block];
    assert params == Flatten(done);
    assert done == QueryBlocks(filter, page, pageSize);
  }

  /* ---------- what the query promises ---------- */

  /** The keys appear in the fixed order product_id, platform, sentiment,
      intent, priority, from_date, to_date, page, page_size. */
  lemma QueryOrder(filter: MentionFilter, page: int, pageSize: int)
    ensures InKeyOrder(MentionsQueryOf(filter, page, pageSize), QueryKeys)
  {
    QueryKeysDistinct();
    QueryBlocksKeyed(filter, page, pageSize);
    FlattenOrdered(QueryBlocks(filter, page, pageSize), QueryKeys);
  }

  /** The pairs of each key: an optional pair appears exactly when its value
      is truthy; a non-empty `platforms` gives one `platform` pair per element
      in order and hides `platform`; `page` and `page_size` appear once each. */
  lemma QueryPairsByKey(filter: MentionFilter, page: int, pageSize: int)
    ensures var q := MentionsQueryOf(filter, page, pageSize);
      && WithKey(q, "product_id") == ProductIdPair(filter.product_id)
      && WithKey(q, "platform") == PlatformPairs(filter)
      && WithKey(q, "sentiment") == OptionalPair("sentiment", filter.sentiment)
      && WithKey(q, "intent") == OptionalPair("intent", filter.intent)
      && WithKey(q, "priority") == OptionalPair("priority", filter.priority)
      && WithKey(q, "from_date") == OptionalPair("from_date", filter.from_date)
      && WithKey(q, "to_date") == OptionalPair("to_date", filter.to_date)
      && WithKey(q, "page") == [Param("page", IntToString(page))]
      && WithKey(q, "page_size") == [Param("page_size", IntToString(pageSize))]
  {
    var bs := QueryBlocks(filter, page, pageSize);
    QueryKeysDistinct();
    QueryBlocksKeyed(filter, page, pageSize);
    WithKeyFlatten(bs, QueryKeys, 0);
    WithKeyFlatten(bs, QueryKeys, 1);
    WithKeyFlatten(bs, QueryKeys, 2);
    WithKeyFlatten(bs, QueryKeys, 3);
    WithKeyFlatten(bs, QueryKeys, 4);
    WithKeyFlatten(bs, QueryKeys, 5);
    WithKeyFlatten(bs, QueryKeys, 6);
    WithKeyFlatten(bs, QueryKeys, 7);
    WithKeyFlatten(bs, QueryKeys, 8);
  }

  /** A non-empty `platforms` list is sent as one `platform` pair per
      element, in order, whatever `platform` says. */
  lemma PlatformsListed(filter: MentionFilter, page: int, pageSize: int)
    requires HasPlatforms(filter)
    ensures var w := WithKey(MentionsQueryOf(filter, page, pageSize), "platform");
      |w| == |filter.platforms.value|
      && forall i :: 0 <= i < |w| ==> w[i] == Param("platform", filter.platforms.value[i])
  {
    QueryPairsByKey(filter, page, pageSize);
  }

  /** `page` and `page_size` are the last two pairs. */
  lemma PaginationLast(filter: MentionFilter, page: int, pageSize: int)
    ensures var q := MentionsQueryOf(filter, page, pageSize);
      |q| >= 2 && q[|q| - 2] == Param("page", IntToString(page))
      && q[|q| - 1] == Param("page_size", IntToString(pageSize))
  {
    var bs := QueryBlocks(filter, page, pageSize);
    FlattenStep(bs, 7);
    FlattenStep(bs, 8);
    assert bs[..9] == bs;
  }

  /** A product id of 0 is falsy and sends no `product_id` pair. */
  lemma ProductIdZeroOmitted(filter: MentionFilter, page: int, pageSize: int)
    requires filter.product_id == Some(0)
    ensures forall x :: x in MentionsQueryOf(filter, page, pageSize) ==> x.key != "product_id"
  {
    QueryPairsByKey(filter, page, pageSize);
  }

  /* ---------- the answer ---------- */

  /** `{ mentions, total }` */
  datatype MentionsPage = MentionsPage(mentions: seq<Mention>, total: int)

  /** `getMentions(filter, page, pageSize)`: `response` is the answer of the
      GET of the query; any failure gives the empty page instead of an error. */
  method GetMentions(filter: MentionFilter, response: Result<MentionApiResponse>,
                     page: int := 1, pageSize: int := 10)
    returns (query: seq<Param>, r: MentionsPage)
    ensures query == MentionsQueryOf(filter, page, pageSize)
    ensures response.Ok? ==>
      r.mentions == response.value.mentions && r.total == response.value.pagination.total_items
    ensures response.Err? ==> r == MentionsPage([], 0)
  {
    query := MentionsQuery(filter, page, pageSize);
    if response.Err? {
      return query, MentionsPage([], 0);
    }
    return query, MentionsPage(response.value.mentions, response.value.pagination.total_items);
  }
}
