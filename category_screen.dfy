/**
 * `extractCategories`: one pass over every drug's category ids that builds a
 * dictionary of `{ id, name, count }` entries, one per id the category
 * catalogue knows, and then lists its values.
 */
module CategoryScreen {
  import opened LearningSlice

  type CategoryId = string

  /** An entry of the catalogue `drugCategory`; only its `name` is read. */
  datatype CategoryInfo = CategoryInfo(name: string)

  datatype CategoryEntry = CategoryEntry(id: CategoryId, name: string, count: nat)

  /** Every drug's category ids, one drug after the other. */
  function Flat(drugs: seq<Drug>): seq<CategoryId> {
    if drugs == [] then [] else Flat(drugs[..|drugs| - 1]) + drugs[|drugs| - 1].categories
  }

  /** How often `c` occurs in `ids`. */
  function Count(ids: seq<CategoryId>, c: CategoryId): nat {
    if ids == [] then 0 else Count(ids[..|ids| - 1], c) + (if ids[|ids| - 1] == c then 1 else 0)
  }

  /** How many ids of `ids` the catalogue knows, repetitions included. */
  function KnownCount(ids: seq<CategoryId>, catalog: map<CategoryId, CategoryInfo>): nat {
    if ids == [] then 0 else KnownCount(ids[..|ids| - 1], catalog) + (if ids[|ids| - 1] in catalog then 1 else 0)
  }

  /** Occurrences of `c` across all drugs' lists, duplicates included. */
  function Occ(drugs: seq<Drug>, c: CategoryId): nat {
    Count(Flat(drugs), c)
  }

  /** Occurrences of known ids across all drugs' lists. */
  function KnownOcc(drugs: seq<Drug>, catalog: map<CategoryId, CategoryInfo>): nat {
    KnownCount(Flat(drugs), catalog)
  }

  /** `Object.values(categories)`, in the order the keys were inserted. */
  function Values(order: seq<CategoryId>, m: map<CategoryId, CategoryEntry>): (r: seq<CategoryEntry>)
    requires forall c | c in order :: c in m
    ensures |r| == |order|
  {
    if order == [] then [] else Values(order[..|order| - 1], m) + [m[order[|order| - 1]]]
  }

  function SumEntries(es: seq<CategoryEntry>): nat {
    if es == [] then 0 else SumEntries(es[..|es| - 1]) + es[|es| - 1].count
  }

  predicate Distinct(order: seq<CategoryId>) {
    forall a, b | 0 <= a < b < |order| :: order[a] != order[b]
  }

  /** The dictionary's keys are the insertion order, each listed once. */
  predicate Listed(categories: map<CategoryId, CategoryEntry>, order: seq<CategoryId>) {
    && (forall c | c in categories :: c in order)
    && (forall k | 0 <= k < |order| :: order[k] in categories)
    && Distinct(order)
  }

  /** Each entry counts its id in `seen`, and every known id of `seen` has an entry. */
  predicate Counted(seen: seq<CategoryId>, catalog: map<CategoryId, CategoryInfo>,
                    categories: map<CategoryId, CategoryEntry>)
  {
    && (forall c | c in categories ::
          c in catalog && categories[c] == CategoryEntry(c, catalog[c].name, Count(seen, c)) && Count(seen, c) >= 1)
    && (forall k | 0 <= k < |seen| && seen[k] in catalog :: seen[k] in categories)
  }

  /** What the dictionary holds after the ids `seen` have been processed. */
  predicate Built(seen: seq<CategoryId>, catalog: map<CategoryId, CategoryInfo>,
                  categories: map<CategoryId, CategoryEntry>, order: seq<CategoryId>)
  {
    && Listed(categories, order)
    && Counted(seen, catalog, categories)
    && SumEntries(Values(order, categories)) == KnownCount(seen, catalog)
  }

  /**
   * `r` is the category page for `drugs`: one entry per catalogued category
   * some drug lists, with the catalogue's name, the number of times the
   * drugs list it, and no id twice; the counts add up to all catalogued
   * occurrences.
   */
  predicate Summarises(drugs: seq<Drug>, catalog: map<CategoryId, CategoryInfo>, r: seq<CategoryEntry>) {
    && (forall k | 0 <= k < |r| ::
          && r[k].id in catalog
          && r[k].name == catalog[r[k].id].name
          && r[k].count == Occ(drugs, r[k].id)
          && r[k].count >= 1)
    && (forall k, l | 0 <= k < l < |r| :: r[k].id != r[l].id)
    && (forall c | c in catalog && Occ(drugs, c) > 0 :: exists k | 0 <= k < |r| :: r[k].id == c)
    && SumEntries(r) == KnownOcc(drugs, catalog)
  }

  method ExtractCategories(drugs: seq<Drug>, catalog: map<CategoryId, CategoryInfo>) returns (r: seq<CategoryEntry>)
    ensures Summarises(drugs, catalog, r)
  {
    var categories: map<CategoryId, CategoryEntry> := map[];
    var order: seq<CategoryId> := [];
    ghost var seen: seq<CategoryId> := [];
    var i := 0;
    while i < |drugs|
      invariant 0 <= i <= |drugs|
      invariant seen == Flat(drugs[..i])
      invariant Built(seen, catalog, categories, order)
    {
      var ids := drugs[i].categories;
      var j := 0;
      while j < |ids|
        invariant 0 <= j <= |ids|
        invariant seen == Flat(drugs[..i]) + ids[..j]
        invariant Built(seen, catalog, categories, order)
      {
        var catId := ids[j];
        if catId in catalog {
          if catId in categories {
            var bumped := categories[catId].(count := categories[catId].count + 1);
            BuiltBump(seen, catalog, categories, order, catId);
            categories := categories[catId := bumped];
          } else {
            var entry := CategoryEntry(catId, catalog[catId].name, 1);
            BuiltFresh(seen, catalog, categories, order, catId);
            categories := categories[catId := entry];
            order := order + [catId];
          }
        } else {
          BuiltUnknown(seen, catalog, categories, order, catId);
        }
        seen := seen + [catId];
        assert ids[..j + 1] == ids[..j] + [catId];
        j := j + 1;
      }
      assert ids[..j] == ids;
      FlatStep(drugs, i);
      i := i + 1;
    }
    assert drugs[..i] == drugs;
    BuiltSummarises(drugs, catalog, categories, order);
    r := Values(order, categories);
  }

  // ------------------------------------------------------------------ lemmas

  /** Once every drug has been scanned, the listed entries are the page's categories with their exact counts. */
  lemma BuiltSummarises(drugs: seq<Drug>, catalog: map<CategoryId, CategoryInfo>,
                        categories: map<CategoryId, CategoryEntry>, order: seq<CategoryId>)
    requires Built(Flat(drugs), catalog, categories, order)
    ensures Summarises(drugs, catalog, Values(order, categories))
  {
    var r := Values(order, categories);
    var seen := Flat(drugs);
    ValuesAt(order, categories);
    forall k | 0 <= k < |r|
      ensures r[k] == CategoryEntry(order[k], catalog[order[k]].name, Count(seen, order[k])) && r[k].count >= 1
    {
      assert r[k] == categories[order[k]];
    }
    forall k, l | 0 <= k < l < |r| ensures r[k].id != r[l].id {
      assert r[k].id == order[k] && r[l].id == order[l];
    }
    forall c | c in catalog && Occ(drugs, c) > 0 ensures exists k | 0 <= k < |r| :: r[k].id == c {
      CountPositive(seen, c);
      var q :| 0 <= q < |seen| && seen[q] == c;
      assert c in categories;
      var k :| 0 <= k < |order| && order[k] == c;
      assert r[k].id == c;
    }
    assert SumEntries(r) == KnownOcc(drugs, catalog);
  }

  /** A known id already in the dictionary: its count goes up by one. */
  lemma BuiltBump(seen: seq<CategoryId>, catalog: map<CategoryId, CategoryInfo>,
                  categories: map<CategoryId, CategoryEntry>, order: seq<CategoryId>, c: CategoryId)
    requires Built(seen, catalog, categories, order) && c in categories
    ensures Built(seen + [c], catalog, categories[c := categories[c].(count := categories[c].count + 1)], order)
  {
    var e := categories[c].(count := categories[c].count + 1);
    var m := categories[c := e];
    var seen' := seen + [c];
    CountSnoc(seen, c);
    KnownSnoc(seen, c, catalog);
    assert m.Keys == categories.Keys;
    forall x | x in m
      ensures x in catalog && m[x] == CategoryEntry(x, catalog[x].name, Count(seen', x)) && Count(seen', x) >= 1
    {
      if x != c {
        assert m[x] == categories[x];
      }
    }
    BumpValues(order, categories, c, e);
  }

  /** A known id seen for the first time: a new entry with count 1, listed last. */
  lemma BuiltFresh(seen: seq<CategoryId>, catalog: map<CategoryId, CategoryInfo>,
                   categories: map<CategoryId, CategoryEntry>, order: seq<CategoryId>, c: CategoryId)
    requires Built(seen, catalog, categories, order) && c in catalog && c !in categories
    ensures Built(seen + [c], catalog, categories[c := CategoryEntry(c, catalog[c].name, 1)], order + [c])
  {
    var e := CategoryEntry(c, catalog[c].name, 1);
    FreshListed(categories, order, c, e);
    FreshCounted(seen, catalog, categories, c);
    KnownSnoc(seen, c, catalog);
    FreshValues(order, categories, c, e);
  }

  lemma FreshListed(categories: map<CategoryId, CategoryEntry>, order: seq<CategoryId>, c: CategoryId, e: CategoryEntry)
    requires Listed(categories, order) && c !in categories
    ensures Listed(categories[c := e], order + [c])
  {
    var m := categories[c := e];
    var order' := order + [c];
    assert c !in order;
    forall x | x in m ensures x in order' {
      if x != c {
        assert x in order;
      }
    }
    forall k | 0 <= k < |order'| ensures order'[k] in m {
      if k < |order| {
        assert order'[k] == order[k];
      }
    }
    forall a, b | 0 <= a < b < |order'| ensures order'[a] != order'[b] {
      if b == |order| {
        assert order'[a] == order[a];
      }
    }
  }

  lemma FreshCounted(seen: seq<CategoryId>, catalog: map<CategoryId, CategoryInfo>,
                     categories: map<CategoryId, CategoryEntry>, c: CategoryId)
    requires Counted(seen, catalog, categories) && c in catalog && c !in categories
    ensures Counted(seen + [c], catalog, categories[c := CategoryEntry(c, catalog[c].name, 1)])
  {
    var m := categories[c := CategoryEntry(c, catalog[c].name, 1)];
    var seen' := seen + [c];
    CountSnoc(seen, c);
    CountPositive(seen, c);
    forall k | 0 <= k < |seen'| && seen'[k] in catalog ensures seen'[k] in m {
      if k < |seen| {
        assert seen'[k] == seen[k];
      }
    }
    forall x | x in m
      ensures x in catalog && m[x] == CategoryEntry(x, catalog[x].name, Count(seen', x)) && Count(seen', x) >= 1
    {
      if x != c {
        assert m[x] == categories[x];
      }
    }
  }

  /** An id the catalogue does not know changes nothing. */
  lemma BuiltUnknown(seen: seq<CategoryId>, catalog: map<CategoryId, CategoryInfo>,
                     categories: map<CategoryId, CategoryEntry>, order: seq<CategoryId>, c: CategoryId)
    requires Built(seen, catalog, categories, order) && c !in catalog
    ensures Built(seen + [c], catalog, categories, order)
  {
    CountSnoc(seen, c);
    KnownSnoc(seen, c, catalog);
  }

  lemma KnownSnoc(ids: seq<CategoryId>, x: CategoryId, catalog: map<CategoryId, CategoryInfo>)
    ensures KnownCount(ids + [x], catalog) == KnownCount(ids, catalog) + (if x in catalog then 1 else 0)
  {
    assert (ids + [x])[..|ids|] == ids;
  }

  lemma {:induction false} CountPositive(ids: seq<CategoryId>, c: CategoryId)
    ensures Count(ids, c) > 0 <==> c in ids
  {
    if ids != [] {
      CountPositive(ids[..|ids| - 1], c);
      assert c in ids <==> c in ids[..|ids| - 1] || ids[|ids| - 1] == c;
    }
  }

  lemma CountSnoc(ids: seq<CategoryId>, x: CategoryId)
    ensures forall c :: Count(ids + [x], c) == Count(ids, c) + (if x == c then 1 else 0)
  {
    assert (ids + [x])[..|ids|] == ids;
  }

  lemma SumSnoc(es: seq<CategoryEntry>, e: CategoryEntry)
    ensures SumEntries(es + [e]) == SumEntries(es) + e.count
  {
    assert (es + [e])[..|es|] == es;
  }

  /** Entries of ids that are not listed do not show in the values. */
  lemma {:induction false} ValuesFrame(order: seq<CategoryId>, m: map<CategoryId, CategoryEntry>, c: CategoryId, e: CategoryEntry)
    requires forall x | x in order :: x in m
    requires c !in order
    ensures Values(order, m[c := e]) == Values(order, m)
  {
    if order != [] {
      var init := order[..|order| - 1];
      assert forall x | x in init :: x in order;
      ValuesFrame(init, m, c, e);
    }
  }

  /** Incrementing the entry of a listed id raises the sum of the values by one. */
  lemma {:induction false} BumpValues(order: seq<CategoryId>, m: map<CategoryId, CategoryEntry>, c: CategoryId, e: CategoryEntry)
    requires forall x | x in order :: x in m
    requires Distinct(order) && c in order && e.count == m[c].count + 1
    ensures SumEntries(Values(order, m[c := e])) == SumEntries(Values(order, m)) + 1
  {
    var n := |order|;
    var init := order[..n - 1];
    var last := order[n - 1];
    assert forall x | x in init :: x in order;
    DistinctPrefix(order);
    ValuesLast(order, m);
    ValuesLast(order, m[c := e]);
    assert m[c := e][last] == if last == c then e else m[last];
    SumSnoc(Values(init, m), m[last]);
    SumSnoc(Values(init, m[c := e]), m[c := e][last]);
    if last == c {
      ValuesFrame(init, m, c, e);
    } else {
      assert c in init;
      BumpValues(init, m, c, e);
    }
  }

  /** The `k`-th value is the entry of the `k`-th inserted id. */
  lemma {:induction false} ValuesAt(order: seq<CategoryId>, m: map<CategoryId, CategoryEntry>)
    requires forall x | x in order :: x in m
    ensures forall k | 0 <= k < |order| :: Values(order, m)[k] == m[order[k]]
  {
    if order != [] {
      var init := order[..|order| - 1];
      assert forall x | x in init :: x in order;
      ValuesAt(init, m);
      ValuesLast(order, m);
      forall k | 0 <= k < |order| ensures Values(order, m)[k] == m[order[k]] {
        if k < |init| {
          assert order[k] == init[k];
        }
      }
    }
  }

  lemma ValuesLast(order: seq<CategoryId>, m: map<CategoryId, CategoryEntry>)
    requires forall x | x in order :: x in m
    requires order != []
    ensures Values(order, m) == Values(order[..|order| - 1], m) + [m[order[|order| - 1]]]
  {
  }

  /** Dropping the last id keeps the order distinct, and the last id is not among the others. */
  lemma DistinctPrefix(order: seq<CategoryId>)
    requires Distinct(order) && order != []
    ensures Distinct(order[..|order| - 1])
    ensures order[|order| - 1] !in order[..|order| - 1]
  {
    var init := order[..|order| - 1];
    forall a, b | 0 <= a < b < |init| ensures init[a] != init[b] {
      assert init[a] == order[a] && init[b] == order[b];
    }
    forall a | 0 <= a < |init| ensures init[a] != order[|order| - 1] {
      assert init[a] == order[a];
    }
  }

  /** Inserting a new id at the end of the insertion order appends its entry to the values. */
  lemma FreshValues(order: seq<CategoryId>, m: map<CategoryId, CategoryEntry>, c: CategoryId, e: CategoryEntry)
    requires forall x | x in order :: x in m
    requires c !in order
    ensures SumEntries(Values(order + [c], m[c := e])) == SumEntries(Values(order, m)) + e.count
  {
    var order' := order + [c];
    assert order'[..|order|] == order;
    ValuesLast(order', m[c := e]);
    ValuesFrame(order, m, c, e);
    SumSnoc(Values(order, m), e);
  }

  lemma {:induction false} CountAppend(a: seq<CategoryId>, b: seq<CategoryId>, c: CategoryId)
    ensures Count(a + b, c) == Count(a, c) + Count(b, c)
  {
    if b != [] {
      var n := |b|;
      assert (a + b)[..|a + b| - 1] == a + b[..n - 1];
      CountAppend(a, b[..n - 1], c);
    } else {
      assert a + b == a;
    }
  }

  lemma FlatStep(drugs: seq<Drug>, i: int)
    requires 0 <= i < |drugs|
    ensures Flat(drugs[..i + 1]) == Flat(drugs[..i]) + drugs[i].categories
  {
    assert drugs[..i + 1][..i] == drugs[..i];
  }

  lemma {:induction false} FlatCons(d: Drug, rest: seq<Drug>)
    ensures Flat([d] + rest) == d.categories + Flat(rest)
  {
    if rest == [] {
      assert [d] + rest == [d];
      assert [d][..0] == [];
    } else {
      var init := rest[..|rest| - 1];
      FlatCons(d, init);
      assert ([d] + rest)[..|[d] + rest| - 1] == [d] + init;
    }
  }

  /** The first drug adds the occurrences of its own list. */
  lemma OccCons(d: Drug, rest: seq<Drug>, c: CategoryId)
    ensures Occ([d] + rest, c) == Count(d.categories, c) + Occ(rest, c)
  {
    FlatCons(d, rest);
    CountAppend(d.categories, Flat(rest), c);
  }

  /** A list that names `c` at most once counts it once exactly when it contains it. */
  lemma {:induction false} CountNoRepeat(ids: seq<CategoryId>, c: CategoryId)
    requires forall a, b | 0 <= a < b < |ids| :: ids[a] == c ==> ids[b] != c
    ensures Count(ids, c) == if c in ids then 1 else 0
  {
    if ids != [] {
      var init := ids[..|ids| - 1];
      CountNoRepeat(init, c);
      if ids[|ids| - 1] == c {
        assert c !in init;
      }
      assert c in ids <==> c in init || ids[|ids| - 1] == c;
    }
  }
}
