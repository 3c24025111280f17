/**
 * The list of drugs of one category, and the "learning" mark each row shows.
 */
module DrugInCategoryScreen {
  import opened Wrappers
  import opened LearningSlice
  import Seqs
  import opened CategoryScreen

  /** `drugData.filter(drug => drug.categories.includes(category.id))`. */
  function DrugsInCategory(drugs: seq<Drug>, c: CategoryId): (r: seq<Drug>)
    ensures forall d | d in r :: c in d.categories
    ensures forall d :: multiset(r)[d] == if c in d.categories then multiset(drugs)[d] else 0
    ensures Seqs.Subsequence(r, drugs)
  {
    if drugs == [] then []
    else
      var rest := DrugsInCategory(drugs[1..], c);
      assert drugs == [drugs[0]] + drugs[1..];
      if c !in drugs[0].categories then rest
      else
        var r := [drugs[0]] + rest;
        assert r[1..] == rest;
        r
  }

  /** `learningList.some(d => d.id === item.id)`: the slice's own membership test on `current`. */
  predicate IsLearning(current: seq<Drug>, item: Drug) {
    HasId(current, item.id)
  }

  /** The mark appears once the drug is studied and goes when it is finished or removed from `current`. */
  lemma MarkFollowsLearning(s: LearningState, item: Drug)
    ensures IsLearning(Reduce(s, AddToLearning(item)).current, item)
    ensures !IsLearning(Reduce(s, FinishDrug(item.id)).current, item)
    ensures !IsLearning(Reduce(s, RemoveDrug(Some(item.id), Some("current"))).current, item)
  {
    var t := Reduce(s, AddToLearning(item));
    if !HasId(s.current, item.id) {
      assert t.current[|s.current|].id == item.id;
    }
  }

  /** No drug lists `c` twice. */
  predicate ListsOnce(drugs: seq<Drug>, c: CategoryId) {
    forall i | 0 <= i < |drugs| ::
      forall a, b | 0 <= a < b < |drugs[i].categories| :: drugs[i].categories[a] == c ==> drugs[i].categories[b] != c
  }

  /** With no repeated ids inside a drug, the screen lists exactly as many drugs as the category page counts. */
  lemma {:induction false} CountMatchesCategoryPage(drugs: seq<Drug>, c: CategoryId)
    requires ListsOnce(drugs, c)
    ensures |DrugsInCategory(drugs, c)| == Occ(drugs, c)
  {
    if drugs != [] {
      var rest := drugs[1..];
      assert drugs == [drugs[0]] + rest;
      assert ListsOnce(rest, c) by {
        forall i | 0 <= i < |rest| ensures rest[i] == drugs[i + 1] { }
      }
      CountMatchesCategoryPage(rest, c);
      OccCons(drugs[0], rest, c);
      CountNoRepeat(drugs[0].categories, c);
    }
  }
}
