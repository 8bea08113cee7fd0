/** The browse list and exact index of the block catalog (src/app/block_catalog_service.cpp). */
module CatalogService {
  import opened Wrappers
  import opened BlockCatalog
  import opened Text

  // ---------------------------------------------------------------- orders

  /** The catalog's order: category, then name, then id. */
  predicate SortsBefore(left: BlockDescriptor, right: BlockDescriptor) {
    if left.category != right.category then Less(left.category, right.category)
    else if left.name != right.name then Less(left.name, right.name)
    else Less(left.id, right.id)
  }

  function CanonicalKey(block: BlockDescriptor): string {
    if block.canonicalType.Some? && block.canonicalType.value != "" then block.canonicalType.value else block.id
  }

  predicate IsImplementationEntry(block: BlockDescriptor) {
    block.canonicalType.Some? && block.canonicalType.value != "" && block.id == block.canonicalType.value
  }

  predicate BetterBrowseEntry(candidate: BlockDescriptor, current: BlockDescriptor) {
    if IsImplementationEntry(candidate) != IsImplementationEntry(current) then !IsImplementationEntry(candidate)
    else if |candidate.id| != |current.id| then |candidate.id| > |current.id|
    else SortsBefore(candidate, current)
  }

  /** The catalog's order is strict, and total on blocks with different ids. */
  lemma SortsBeforeIsStrictTotal(a: BlockDescriptor, b: BlockDescriptor)
    ensures a.id != b.id ==> SortsBefore(a, b) || SortsBefore(b, a)
    ensures !(SortsBefore(a, b) && SortsBefore(b, a))
    ensures !SortsBefore(a, a)
  {
    LessTrichotomy(a.category, b.category);
    LessTrichotomy(a.name, b.name);
    LessTrichotomy(a.id, b.id);
    LessTrichotomy(a.id, a.id);
  }

  lemma SortsBeforeTransitive(a: BlockDescriptor, b: BlockDescriptor, c: BlockDescriptor)
    ensures SortsBefore(a, b) && SortsBefore(b, c) ==> SortsBefore(a, c)
    ensures !SortsBefore(b, a) && !SortsBefore(c, b) ==> !SortsBefore(c, a)
  {
    TextOrder(a.category, b.category, c.category);
    TextOrder(a.name, b.name, c.name);
    TextOrder(a.id, b.id, c.id);
  }

  /** Everything the lexicographic comparisons need of three strings. */
  lemma TextOrder(a: string, b: string, c: string)
    ensures Less(a, b) && Less(b, c) ==> Less(a, c)
    ensures Less(b, a) && Less(c, b) ==> Less(c, a)
    ensures a != b ==> Less(a, b) != Less(b, a)
    ensures b != c ==> Less(b, c) != Less(c, b)
    ensures a != c ==> Less(a, c) != Less(c, a)
    ensures !Less(a, a) && !Less(b, b) && !Less(c, c)
  {
    if Less(a, b) && Less(b, c) {
      LessTransitive(a, b, c);
    }
    if Less(b, a) && Less(c, b) {
      LessTransitive(c, b, a);
    }
    LessTrichotomy(a, b);
    LessTrichotomy(b, c);
    LessTrichotomy(c, a);
  }

  /** Preference between browse entries is a strict total order on blocks with different ids. */
  lemma BetterIsStrictTotal(a: BlockDescriptor, b: BlockDescriptor)
    ensures a.id != b.id ==> BetterBrowseEntry(a, b) || BetterBrowseEntry(b, a)
    ensures !(BetterBrowseEntry(a, b) && BetterBrowseEntry(b, a))
    ensures !BetterBrowseEntry(a, a)
  {
    SortsBeforeIsStrictTotal(a, b);
  }

  lemma BetterTransitive(a: BlockDescriptor, b: BlockDescriptor, c: BlockDescriptor)
    ensures BetterBrowseEntry(a, b) && BetterBrowseEntry(b, c) ==> BetterBrowseEntry(a, c)
    ensures !BetterBrowseEntry(b, a) && !BetterBrowseEntry(c, b) ==> !BetterBrowseEntry(c, a)
  {
    SortsBeforeTransitive(a, b, c);
  }

  // ------------------------------------------------------------- the cache

  datatype CachedCatalog = CachedCatalog(browse: seq<BlockDescriptor>, exact: map<string, BlockDescriptor>)

  ghost predicate Ordered(blocks: seq<BlockDescriptor>) {
    forall i, j :: 0 <= i < j < |blocks| ==> !SortsBefore(blocks[j], blocks[i])
  }

  ghost predicate DistinctIds(blocks: seq<BlockDescriptor>) {
    forall i, j :: 0 <= i < j < |blocks| ==> blocks[i].id != blocks[j].id
  }

  /** Ascending by category, blocks of one category by name, and those of one name by id. */
  ghost predicate InBrowseOrder(blocks: seq<BlockDescriptor>) {
    forall i, j :: 0 <= i < j < |blocks| ==>
      && !Less(blocks[j].category, blocks[i].category)
      && (blocks[i].category == blocks[j].category ==>
            && !Less(blocks[j].name, blocks[i].name)
            && (blocks[i].name == blocks[j].name ==> !Less(blocks[j].id, blocks[i].id)))
  }

  /** The catalog's order is that one. */
  lemma OrderedIff(blocks: seq<BlockDescriptor>)
    ensures Ordered(blocks) <==> InBrowseOrder(blocks)
  {
    if Ordered(blocks) {
      forall i, j | 0 <= i < j < |blocks|
        ensures !Less(blocks[j].category, blocks[i].category)
        ensures blocks[i].category == blocks[j].category ==> !Less(blocks[j].name, blocks[i].name)
      {
        assert !SortsBefore(blocks[j], blocks[i]);
        Irreflexive(blocks[i].category);
        Irreflexive(blocks[i].name);
      }
    }
  }

  lemma Irreflexive(text: string)
    ensures !Less(text, text)
  {
    LessTrichotomy(text, text);
  }

  /** No block of the same canonical key is preferred to this one. */
  ghost predicate BestOfGroup(entry: BlockDescriptor, blocks: seq<BlockDescriptor>) {
    && entry in blocks
    && forall other :: other in blocks && CanonicalKey(other) == CanonicalKey(entry) ==>
         !BetterBrowseEntry(other, entry)
  }

  /** One entry per canonical key of `blocks`, each the best of its group. */
  ghost predicate Represents(browse: seq<BlockDescriptor>, blocks: seq<BlockDescriptor>) {
    && (forall i :: 0 <= i < |browse| ==> BestOfGroup(browse[i], blocks))
    && (forall i, j :: 0 <= i < j < |browse| ==> CanonicalKey(browse[i]) != CanonicalKey(browse[j]))
    && (forall block :: block in blocks ==> HasKey(browse, CanonicalKey(block)))
  }

  ghost predicate HasKey(browse: seq<BlockDescriptor>, key: string) {
    exists i :: 0 <= i < |browse| && CanonicalKey(browse[i]) == key
  }

  /** An index of every id; of several blocks with one id it holds the last in the catalog's order. */
  ghost predicate Indexes(exact: map<string, BlockDescriptor>, blocks: seq<BlockDescriptor>) {
    && (forall id :: id in exact ==> exact[id] in blocks && exact[id].id == id)
    && (forall block :: block in blocks ==> block.id in exact && !SortsBefore(exact[block.id], block))
  }

  ghost predicate IsCatalog(blocks: seq<BlockDescriptor>, catalog: CachedCatalog) {
    Ordered(catalog.browse) && Represents(catalog.browse, blocks) && Indexes(catalog.exact, blocks)
  }

  method InsertSorted(sorted: seq<BlockDescriptor>, block: BlockDescriptor) returns (result: seq<BlockDescriptor>)
    requires Ordered(sorted)
    ensures Ordered(result) && multiset(result) == multiset(sorted) + multiset{block}
  {
    var k := |sorted|;
    while k > 0 && SortsBefore(block, sorted[k - 1])
      invariant 0 <= k <= |sorted|
      invariant forall i :: k <= i < |sorted| ==> SortsBefore(block, sorted[i])
    {
      k := k - 1;
    }
    forall i | 0 <= i < k ensures !SortsBefore(block, sorted[i]) {
      SortsBeforeTransitive(sorted[i], sorted[k - 1], block);
      SortsBeforeIsStrictTotal(block, sorted[i]);
    }
    forall i | k <= i < |sorted| ensures !SortsBefore(sorted[i], block) {
      SortsBeforeIsStrictTotal(block, sorted[i]);
    }
    assert sorted == sorted[..k] + sorted[k..];
    result := sorted[..k] + [block] + sorted[k..];
  }

  /** `std::sort` with the catalog's order; any sort meets this contract. */
  method Sort(blocks: seq<BlockDescriptor>) returns (sorted: seq<BlockDescriptor>)
    ensures Ordered(sorted) && multiset(sorted) == multiset(blocks)
  {
    sorted := [];
    var i := 0;
    while i < |blocks|
      invariant 0 <= i <= |blocks|
      invariant Ordered(sorted) && multiset(sorted) == multiset(blocks[..i])
    {
      assert blocks[..i + 1] == blocks[..i] + [blocks[i]];
      sorted := InsertSorted(sorted, blocks[i]);
      i := i + 1;
    }
    assert blocks[..i] == blocks;
  }

  lemma SameElements(a: seq<BlockDescriptor>, b: seq<BlockDescriptor>)
    requires multiset(a) == multiset(b)
    ensures forall block :: block in a <==> block in b
  {
    forall block ensures block in a <==> block in b {
      assert block in a <==> block in multiset(a);
      assert block in b <==> block in multiset(b);
    }
  }

  lemma RepresentsNewKey(browse: seq<BlockDescriptor>, blocks: seq<BlockDescriptor>, block: BlockDescriptor)
    requires Represents(browse, blocks) && !HasKey(browse, CanonicalKey(block))
    ensures Represents(browse + [block], blocks + [block])
  {
    BetterIsStrictTotal(block, block);
    var longer := browse + [block];
    forall other | other in blocks + [block] ensures HasKey(longer, CanonicalKey(other)) {
      if other in blocks {
        var i :| 0 <= i < |browse| && CanonicalKey(browse[i]) == CanonicalKey(other);
        assert longer[i] == browse[i];
      } else {
        assert longer[|browse|] == block;
      }
    }
  }

  lemma BestSurvives(entry: BlockDescriptor, blocks: seq<BlockDescriptor>, block: BlockDescriptor)
    requires BestOfGroup(entry, blocks)
    requires CanonicalKey(block) == CanonicalKey(entry) ==> !BetterBrowseEntry(block, entry)
    ensures BestOfGroup(entry, blocks + [block])
  {
  }

  lemma BestReplaced(entry: BlockDescriptor, blocks: seq<BlockDescriptor>, block: BlockDescriptor)
    requires BestOfGroup(entry, blocks)
    requires CanonicalKey(block) == CanonicalKey(entry) && BetterBrowseEntry(block, entry)
    ensures BestOfGroup(block, blocks + [block])
  {
    BetterIsStrictTotal(block, block);
    BetterIsStrictTotal(block, entry);
    forall other | other in blocks && CanonicalKey(other) == CanonicalKey(block)
      ensures !BetterBrowseEntry(other, block)
    {
      BetterTransitive(block, entry, other);
    }
  }

  lemma RepresentsKnownKey(browse: seq<BlockDescriptor>, blocks: seq<BlockDescriptor>, block: BlockDescriptor, k: nat)
    requires Represents(browse, blocks) && k < |browse| && CanonicalKey(browse[k]) == CanonicalKey(block)
    ensures Represents(if BetterBrowseEntry(block, browse[k]) then browse[k := block] else browse, blocks + [block])
  {
    var result := if BetterBrowseEntry(block, browse[k]) then browse[k := block] else browse;
    SameKeys(browse, result, CanonicalKey(block));
    forall other | other in blocks + [block] ensures HasKey(result, CanonicalKey(other)) {
      if other in blocks {
        assert HasKey(browse, CanonicalKey(other));
      }
    }
    forall i | 0 <= i < |result| ensures BestOfGroup(result[i], blocks + [block]) {
      assert BestOfGroup(browse[i], blocks);
      if i == k && BetterBrowseEntry(block, browse[k]) {
        BestReplaced(browse[k], blocks, block);
      } else {
        BestSurvives(browse[i], blocks, block);
      }
    }
  }

  /** `std::find_if` for the entry with a given key. */
  method FindKey(browse: seq<BlockDescriptor>, key: string) returns (k: nat)
    requires HasKey(browse, key)
    ensures k < |browse| && CanonicalKey(browse[k]) == key
    ensures forall i :: 0 <= i < k ==> CanonicalKey(browse[i]) != key
  {
    k := 0;
    while CanonicalKey(browse[k]) != key
      invariant 0 <= k < |browse|
      invariant forall i :: 0 <= i < k ==> CanonicalKey(browse[i]) != key
      decreases |browse| - k
    {
      k := k + 1;
    }
  }

  lemma SameKeys(before: seq<BlockDescriptor>, after: seq<BlockDescriptor>, key: string)
    requires |before| <= |after| <= |before| + 1
    requires forall j :: 0 <= j < |before| ==> CanonicalKey(after[j]) == CanonicalKey(before[j])
    requires |after| > |before| ==> CanonicalKey(after[|before|]) == key
    requires |after| == |before| ==> HasKey(before, key)
    ensures forall other :: HasKey(after, other) <==> HasKey(before, other) || other == key
  {
    forall other ensures HasKey(after, other) <==> HasKey(before, other) || other == key {
      if HasKey(before, other) {
        var j :| 0 <= j < |before| && CanonicalKey(before[j]) == other;
        assert CanonicalKey(after[j]) == other;
      } else if other == key {
        assert CanonicalKey(after[|before|]) == other;
      }
    }
  }

  /** The duplicate handling of the indexing loop: append a new key, else replace a worse entry in place. */
  method AddBrowseEntry(browse: seq<BlockDescriptor>, browseKeys: set<string>, block: BlockDescriptor,
                        ghost blocks: seq<BlockDescriptor>)
    returns (browse': seq<BlockDescriptor>, browseKeys': set<string>)
    requires Represents(browse, blocks)
    requires forall key :: key in browseKeys <==> HasKey(browse, key)
    ensures Represents(browse', blocks + [block])
    ensures forall key :: key in browseKeys' <==> HasKey(browse', key)
  {
    var key := CanonicalKey(block);
    browse', browseKeys' := browse, browseKeys + {key};
    if key !in browseKeys {
      RepresentsNewKey(browse, blocks, block);
      browse' := browse + [block];
    } else {
      var k := FindKey(browse, key);
      RepresentsKnownKey(browse, blocks, block, k);
      if BetterBrowseEntry(block, browse[k]) {
        browse' := browse[k := block];
      }
    }
    SameKeys(browse, browse', key);
  }

  lemma KeyOnce(browse: seq<BlockDescriptor>, a: BlockDescriptor, b: BlockDescriptor)
    requires forall i, j :: 0 <= i < j < |browse| ==> CanonicalKey(browse[i]) != CanonicalKey(browse[j])
    requires a in browse && b in browse && CanonicalKey(a) == CanonicalKey(b)
    ensures a == b
  {
  }

  lemma TwiceInMultiset(blocks: seq<BlockDescriptor>, i: nat, j: nat)
    requires i < j < |blocks| && blocks[i] == blocks[j]
    ensures multiset(blocks)[blocks[i]] >= 2
  {
    assert blocks == blocks[..i] + [blocks[i]] + blocks[i + 1..j] + [blocks[j]] + blocks[j + 1..];
  }

  lemma {:induction false} OnceInMultiset(browse: seq<BlockDescriptor>, entry: BlockDescriptor)
    requires forall i, j :: 0 <= i < j < |browse| ==> CanonicalKey(browse[i]) != CanonicalKey(browse[j])
    ensures multiset(browse)[entry] <= 1
  {
    if browse != [] {
      var front, last := browse[..|browse| - 1], browse[|browse| - 1];
      assert browse == front + [last];
      OnceInMultiset(front, entry);
      if entry == last {
        assert entry !in front;
      }
    }
  }

  lemma RepresentsAnyOrder(browse: seq<BlockDescriptor>, sorted: seq<BlockDescriptor>, blocks: seq<BlockDescriptor>,
                           provider: seq<BlockDescriptor>)
    requires Represents(browse, blocks) && multiset(sorted) == multiset(browse)
    requires multiset(blocks) == multiset(provider)
    ensures Represents(sorted, provider)
  {
    SameElements(blocks, provider);
    SameElements(browse, sorted);
    forall block | block in provider ensures HasKey(sorted, CanonicalKey(block)) {
      var i :| 0 <= i < |browse| && CanonicalKey(browse[i]) == CanonicalKey(block);
      assert browse[i] in sorted;
    }
    forall i, j | 0 <= i < j < |sorted| ensures CanonicalKey(sorted[i]) != CanonicalKey(sorted[j]) {
      if CanonicalKey(sorted[i]) == CanonicalKey(sorted[j]) {
        KeyOnce(browse, sorted[i], sorted[j]);
        TwiceInMultiset(sorted, i, j);
        OnceInMultiset(browse, sorted[i]);
      }
    }
    forall i | 0 <= i < |sorted| ensures BestOfGroup(sorted[i], provider) {
      assert sorted[i] in browse;
      assert BestOfGroup(sorted[i], blocks);
    }
  }

  lemma IndexesAnyOrder(exact: map<string, BlockDescriptor>, a: seq<BlockDescriptor>, b: seq<BlockDescriptor>)
    requires Indexes(exact, a) && multiset(a) == multiset(b)
    ensures Indexes(exact, b)
  {
    SameElements(a, b);
  }

  lemma IndexesOneMore(exact: map<string, BlockDescriptor>, blocks: seq<BlockDescriptor>, block: BlockDescriptor)
    requires Indexes(exact, blocks)
    requires forall earlier :: earlier in blocks ==> !SortsBefore(block, earlier)
    ensures Indexes(exact[block.id := block], blocks + [block])
  {
    SortsBeforeIsStrictTotal(block, block);
  }

  lemma NothingYet()
    ensures Represents([], []) && Indexes(map[], []) && forall key :: !HasKey([], key)
  {
  }

  /**
   One pass over the sorted blocks: an index of every id, and one entry per canonical key,
   replaced in place by a better one.
   */
  method Collapse(blocks: seq<BlockDescriptor>)
    returns (browse: seq<BlockDescriptor>, exact: map<string, BlockDescriptor>)
    requires Ordered(blocks)
    ensures Represents(browse, blocks) && Indexes(exact, blocks)
  {
    hide Represents, Indexes, HasKey;
    browse, exact := [], map[];
    var browseKeys: set<string> := {};
    NothingYet();
    var i := 0;
    while i < |blocks|
      invariant 0 <= i <= |blocks|
      invariant Represents(browse, blocks[..i]) && Indexes(exact, blocks[..i])
      invariant forall key :: key in browseKeys <==> HasKey(browse, key)
    {
      assert blocks[..i + 1] == blocks[..i] + [blocks[i]];
      IndexesOneMore(exact, blocks[..i], blocks[i]);
      exact := exact[blocks[i].id := blocks[i]];
      browse, browseKeys := AddBrowseEntry(browse, browseKeys, blocks[i], blocks[..i]);
      i := i + 1;
    }
    assert blocks[..i] == blocks;
  }

  /** Of two blocks with one id, the first is not before the other in the browse order. */
  ghost predicate ComesLast(block: BlockDescriptor, other: BlockDescriptor) {
    && !Less(block.category, other.category)
    && (block.category == other.category ==> !Less(block.name, other.name))
  }

  lemma LastComesLast(block: BlockDescriptor, other: BlockDescriptor)
    requires !SortsBefore(block, other)
    ensures ComesLast(block, other)
  {
    Irreflexive(block.category);
    Irreflexive(block.name);
  }

  class BlockCatalogService {
    const provider: seq<BlockDescriptor>
    var cache: Option<CachedCatalog>

    ghost predicate Valid()
      reads this
    {
      cache.Some? ==> IsCatalog(provider, cache.value)
    }

    constructor (blocks: seq<BlockDescriptor>)
      ensures Valid() && provider == blocks && cache == None
    {
      provider, cache := blocks, None;
    }

    method Catalog() returns (catalog: CachedCatalog)
      requires Valid()
      modifies this
      ensures Valid() && cache == Some(catalog) && IsCatalog(provider, catalog)
      ensures old(cache).Some? ==> cache == old(cache)
    {
      hide Represents, Indexes, Ordered;
      if cache.None? {
        var blocks := Sort(provider);
        var browse, exact := Collapse(blocks);
        IndexesAnyOrder(exact, blocks, provider);
        var sorted := Sort(browse);
        RepresentsAnyOrder(browse, sorted, blocks, provider);
        cache := Some(CachedCatalog(sorted, exact));
      }
      catalog := cache.value;
    }

    method List() returns (blocks: seq<BlockDescriptor>)
      requires Valid()
      modifies this
      ensures Valid() && InBrowseOrder(blocks) && Represents(blocks, provider)
      ensures cache.Some? && blocks == cache.value.browse && (old(cache).Some? ==> cache == old(cache))
    {
      var catalog := Catalog();
      blocks := catalog.browse;
      OrderedIff(blocks);
    }

    method Get(id: string) returns (block: Option<BlockDescriptor>)
      requires Valid()
      modifies this
      ensures Valid()
      ensures block.Some? <==> exists b :: b in provider && b.id == id
      ensures block.Some? ==> block.value in provider && block.value.id == id
      ensures block.Some? ==> forall other :: other in provider && other.id == id ==> ComesLast(block.value, other)
    {
      var catalog := Catalog();
      block := if id in catalog.exact then Some(catalog.exact[id]) else None;
      if block.Some? {
        forall other | other in provider && other.id == id ensures ComesLast(block.value, other) {
          LastComesLast(block.value, other);
        }
      }
    }
  }

  // ----------------------------------------------------------- determinism

  lemma DistinctIdsDetermine(blocks: seq<BlockDescriptor>, a: BlockDescriptor, b: BlockDescriptor)
    requires DistinctIds(blocks) && a in blocks && b in blocks
    ensures a.id == b.id ==> a == b
  {
  }

  lemma BrowseMembers(blocks: seq<BlockDescriptor>, browse: seq<BlockDescriptor>)
    requires DistinctIds(blocks) && Represents(browse, blocks)
    ensures forall entry :: entry in browse <==> BestOfGroup(entry, blocks)
  {
    forall entry | BestOfGroup(entry, blocks) ensures entry in browse {
      var i :| 0 <= i < |browse| && CanonicalKey(browse[i]) == CanonicalKey(entry);
      assert BestOfGroup(browse[i], blocks);
      BetterIsStrictTotal(browse[i], entry);
      DistinctIdsDetermine(blocks, browse[i], entry);
    }
  }

  ghost predicate Ascends(blocks: seq<BlockDescriptor>) {
    forall i, j :: 0 <= i < j < |blocks| ==> SortsBefore(blocks[i], blocks[j])
  }

  /** With distinct ids the browse list ascends strictly, by category, then name, then id. */
  lemma BrowseAscends(blocks: seq<BlockDescriptor>, catalog: CachedCatalog)
    requires DistinctIds(blocks) && IsCatalog(blocks, catalog)
    ensures Ascends(catalog.browse)
    ensures forall i, j :: 0 <= i < j < |catalog.browse| ==>
      var a, b := catalog.browse[i], catalog.browse[j];
      || Less(a.category, b.category)
      || (a.category == b.category && Less(a.name, b.name))
      || (a.category == b.category && a.name == b.name && Less(a.id, b.id))
  {
    var browse := catalog.browse;
    forall i, j | 0 <= i < j < |browse| ensures SortsBefore(browse[i], browse[j]) {
      assert BestOfGroup(browse[i], blocks) && BestOfGroup(browse[j], blocks);
      SortsBeforeIsStrictTotal(browse[i], browse[j]);
      DistinctIdsDetermine(blocks, browse[i], browse[j]);
    }
  }

  lemma BothEmpty(a: seq<BlockDescriptor>, b: seq<BlockDescriptor>)
    requires forall block :: block in a <==> block in b
    ensures a == [] <==> b == []
  {
    if a != [] {
      assert a[0] in b;
    }
    if b != [] {
      assert b[0] in a;
    }
  }

  lemma {:induction false} AscendingListsAgree(a: seq<BlockDescriptor>, b: seq<BlockDescriptor>)
    requires Ascends(a) && Ascends(b) && forall block :: block in a <==> block in b
    ensures a == b
    decreases |a|
  {
    BothEmpty(a, b);
    if a != [] {
      assert a[0] in b;
      assert b[0] in a;
      SortsBeforeIsStrictTotal(a[0], b[0]);
      assert a[0] == b[0];
      forall block ensures block in a[1..] <==> block in b[1..] {
        SortsBeforeIsStrictTotal(a[0], block);
        assert block in a <==> block == a[0] || block in a[1..];
        assert block in b <==> block == b[0] || block in b[1..];
      }
      AscendingListsAgree(a[1..], b[1..]);
      assert a == [a[0]] + a[1..] && b == [b[0]] + b[1..];
    }
  }

  lemma ExactIndexesAgree(first: seq<BlockDescriptor>, second: seq<BlockDescriptor>,
                          exact1: map<string, BlockDescriptor>, exact2: map<string, BlockDescriptor>)
    requires DistinctIds(first) && (forall block :: block in first <==> block in second)
    requires Indexes(exact1, first) && Indexes(exact2, second)
    ensures exact1 == exact2
  {
    forall id ensures id in exact1 <==> id in exact2 {
      if id in exact1 {
        assert exact1[id] in second;
      }
      if id in exact2 {
        assert exact2[id] in first;
      }
    }
    forall id | id in exact1 ensures exact1[id] == exact2[id] {
      DistinctIdsDetermine(first, exact1[id], exact2[id]);
    }
  }

  /** The group a block is in: its canonical type, or its id if it has none or an empty one. */
  lemma GroupOf(block: BlockDescriptor, key: string)
    ensures CanonicalKey(block) == key <==>
      if block.canonicalType.Some? && block.canonicalType.value != "" then block.canonicalType == Some(key)
      else block.id == key
  {
  }

  /** An entry under which the implementation itself is listed, not an alias of it. */
  predicate IsItself(block: BlockDescriptor) {
    block.id != "" && block.canonicalType == Some(block.id)
  }

  /**
   Which entry of a group is browsed: an alias if there is one; among aliases, or
   among entries none of which is one, a longest id; and of those the first by
   category, name and id.
   */
  lemma BrowsedIsPreferred(blocks: seq<BlockDescriptor>, browse: seq<BlockDescriptor>, entry: BlockDescriptor,
                           other: BlockDescriptor)
    requires Represents(browse, blocks) && entry in browse && other in blocks
    requires CanonicalKey(other) == CanonicalKey(entry)
    ensures IsItself(entry) ==> IsItself(other)
    ensures IsItself(entry) == IsItself(other) ==> |entry.id| >= |other.id|
    ensures IsItself(entry) == IsItself(other) && |entry.id| == |other.id| ==>
      && !Less(other.category, entry.category)
      && (other.category == entry.category ==>
            !Less(other.name, entry.name) && (other.name == entry.name ==> !Less(other.id, entry.id)))
  {
    assert !BetterBrowseEntry(other, entry);
    Irreflexive(entry.category);
    Irreflexive(entry.name);
  }

  /**
   Among the aliases of one implementation a longest one is browsed; the
   implementation entry itself is browsed only if it has no alias.
   */
  lemma LongestAliasIsBrowsed(blocks: seq<BlockDescriptor>, browse: seq<BlockDescriptor>, entry: BlockDescriptor,
                              other: BlockDescriptor)
    requires Represents(browse, blocks) && entry in browse && other in blocks
    requires CanonicalKey(other) == CanonicalKey(entry) && !IsImplementationEntry(other)
    ensures !IsImplementationEntry(entry) && |entry.id| >= |other.id|
  {
    assert !BetterBrowseEntry(other, entry);
  }

  /** Of two aliases that make up a group the one with the longer id is browsed. */
  lemma LongerOfTwoIsBrowsed(blocks: seq<BlockDescriptor>, browse: seq<BlockDescriptor>,
                             shorter: BlockDescriptor, longer: BlockDescriptor)
    requires Represents(browse, blocks) && shorter in blocks && longer in blocks
    requires CanonicalKey(shorter) == CanonicalKey(longer)
    requires !IsImplementationEntry(longer) && |shorter.id| < |longer.id|
    requires forall other :: other in blocks && CanonicalKey(other) == CanonicalKey(longer) ==>
      other == shorter || other == longer
    ensures longer in browse && shorter !in browse
  {
    if shorter in browse {
      LongestAliasIsBrowsed(blocks, browse, shorter, longer);
    }
    assert HasKey(browse, CanonicalKey(longer));
    var k :| 0 <= k < |browse| && CanonicalKey(browse[k]) == CanonicalKey(longer);
    assert BestOfGroup(browse[k], blocks);
  }

  /** The catalog is the same for every order in which the provider lists its blocks. */
  lemma CatalogIsDeterministic(first: seq<BlockDescriptor>, second: seq<BlockDescriptor>, c1: CachedCatalog,
                               c2: CachedCatalog)
    requires DistinctIds(first) && DistinctIds(second) && multiset(first) == multiset(second)
    requires IsCatalog(first, c1) && IsCatalog(second, c2)
    ensures c1 == c2
  {
    SameElements(first, second);
    BrowseMembers(first, c1.browse);
    BrowseMembers(second, c2.browse);
    BrowseAscends(first, c1);
    BrowseAscends(second, c2);
    forall entry ensures BestOfGroup(entry, first) <==> BestOfGroup(entry, second) {
    }
    AscendingListsAgree(c1.browse, c2.browse);
    ExactIndexesAgree(first, second, c1.exact, c2.exact);
  }
}
