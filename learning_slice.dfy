/**
 * The learning store: the `learning` slice of the Redux state. Drugs move
 * between a `current` and a `finished` list; per drug it keeps the saved
 * recordings and the best score. The reducers are the transition function
 * `Reduce`; `LearningStore` performs the same transitions in place, the way
 * the slice's draft-mutating reducers are written.
 */
module LearningSlice {
  import opened Wrappers
  import Seqs

  type DrugId = int
  /** ISO time stamps are opaque to the store. */
  type Timestamp = string

  /** A catalogue entry; the store only ever looks at its `id`. */
  datatype Drug = Drug(id: DrugId, name: string, categories: seq<string>)

  /** One saved attempt, `{ uri, date, score }`. */
  datatype Recording = Recording(uri: string, date: Timestamp, score: int)

  datatype LearningState = LearningState(
    current: seq<Drug>,
    finished: seq<Drug>,
    scores: map<DrugId, int>,
    recordings: map<DrugId, seq<Recording>>)

  /** The actions of the slice, with their payloads destructured. */
  datatype Action =
    | AddToLearning(drug: Drug)
    | FinishDrug(drugId: DrugId)
      /** `const { id, from } = action.payload`: either field may be undefined. */
    | RemoveDrug(id: Option<DrugId>, from: Option<string>)
    | AddRecording(drugId: DrugId, uri: string, date: Timestamp, score: int)
    | DeleteRecording(drugId: DrugId, index: int)

  const Initial := LearningState([], [], map[], map[])

  predicate HasId(ds: seq<Drug>, id: DrugId) {
    exists k | 0 <= k < |ds| :: ds[k].id == id
  }

  predicate UniqueIds(ds: seq<Drug>) {
    forall i, j | 0 <= i < j < |ds| :: ds[i].id != ds[j].id
  }

  /** `ds.find(d => d.id === id)`: the first entry with that id. */
  function FindById(ds: seq<Drug>, id: DrugId): (r: Option<Drug>)
    ensures r.None? <==> !HasId(ds, id)
    ensures r.Some? ==> exists k | 0 <= k < |ds| ::
      ds[k] == r.value && r.value.id == id && forall j | 0 <= j < k :: ds[j].id != id
  {
    if ds == [] then None
    else if ds[0].id == id then Some(ds[0])
    else
      var r := FindById(ds[1..], id);
      assert forall k | 0 <= k < |ds| - 1 :: ds[1..][k] == ds[k + 1];
      r
  }

  /** `ds.filter(d => d.id !== id)`. */
  function WithoutId(ds: seq<Drug>, id: DrugId): (r: seq<Drug>)
    ensures !HasId(r, id)
    ensures forall d :: multiset(r)[d] == if d.id == id then 0 else multiset(ds)[d]
    ensures Seqs.Subsequence(r, ds)
    ensures !HasId(ds, id) ==> r == ds
  {
    if ds == [] then []
    else
      var rest := WithoutId(ds[1..], id);
      assert ds == [ds[0]] + ds[1..];
      if ds[0].id == id then rest
      else
        var r := [ds[0]] + rest;
        assert r[1..] == rest;
        r
  }

  /** The filter of `removeDrug` with an id that may be undefined: `d.id !== undefined` keeps every drug. */
  function WithoutOptionalId(ds: seq<Drug>, id: Option<DrugId>): seq<Drug> {
    match id
    case None => ds
    case Some(i) => WithoutId(ds, i)
  }

  /** JavaScript's falsy test on a stored score: missing, or 0. */
  predicate NoBest(scores: map<DrugId, int>, id: DrugId) {
    id !in scores || scores[id] == 0
  }

  /** `if (!scores[id] || score > scores[id]) scores[id] = score`. */
  function WithScore(scores: map<DrugId, int>, id: DrugId, score: int): map<DrugId, int> {
    if NoBest(scores, id) || score > scores[id] then scores[id := score] else scores
  }

  /** `recordings[id] || []`. */
  function RecordingsOf(s: LearningState, id: DrugId): seq<Recording> {
    if id in s.recordings then s.recordings[id] else []
  }

  /** `xs.splice(index, 1)` with JavaScript's treatment of negative and too large indexes. */
  function SpliceOne<T>(xs: seq<T>, index: int): (r: seq<T>)
    ensures 0 <= index < |xs| ==>
              && |r| == |xs| - 1
              && (forall k | 0 <= k < index :: r[k] == xs[k])
              && (forall k | index <= k < |r| :: r[k] == xs[k + 1])
    ensures index >= |xs| ==> r == xs
    ensures -|xs| <= index < 0 ==> r == xs[..|xs| + index] + xs[|xs| + index + 1..]
    ensures index < -|xs| ==> r == if xs == [] then [] else xs[1..]
  {
    var start :=
      if index < 0 then (if |xs| + index < 0 then 0 else |xs| + index)
      else if index < |xs| then index else |xs|;
    if start < |xs| then xs[..start] + xs[start + 1..] else xs
  }

  /** `deleteRecording` dereferences `recordings[drugId]`, which throws when the list is missing. */
  predicate Enabled(s: LearningState, a: Action) {
    a.DeleteRecording? ==> a.drugId in s.recordings
  }

  /** The slice reducer. */
  function Reduce(s: LearningState, a: Action): LearningState
    requires Enabled(s, a)
  {
    match a
    case AddToLearning(drug) =>
      if FindById(s.current, drug.id).None? then s.(current := s.current + [drug]) else s
    case FinishDrug(id) =>
      (match FindById(s.current, id)
       case Some(drug) => s.(current := WithoutId(s.current, id), finished := s.finished + [drug])
       case None => s)
    case RemoveDrug(id, from) =>
      if from == Some("current") then s.(current := WithoutOptionalId(s.current, id))
      else s.(finished := WithoutOptionalId(s.finished, id))
    case AddRecording(id, uri, date, score) =>
      s.(recordings := s.recordings[id := RecordingsOf(s, id) + [Recording(uri, date, score)]],
         scores := WithScore(s.scores, id, score))
    case DeleteRecording(id, index) =>
      s.(recordings := s.recordings[id := SpliceOne(s.recordings[id], index)])
  }

  predicate AllEnabled(s: LearningState, actions: seq<Action>)
    decreases |actions|
  {
    actions == [] || (Enabled(s, actions[0]) && AllEnabled(Reduce(s, actions[0]), actions[1..]))
  }

  /** Dispatching a sequence of actions in order. */
  function ReduceAll(s: LearningState, actions: seq<Action>): LearningState
    requires AllEnabled(s, actions)
    decreases |actions|
  {
    if actions == [] then s else ReduceAll(Reduce(s, actions[0]), actions[1..])
  }

  // ---------------------------------------------------------------- selectors

  function CurrentCount(s: LearningState): nat { |s.current| }

  function FinishedCount(s: LearningState): nat { |s.finished| }

  /** The sum of `m` over the keys `ks`, in no particular order. */
  ghost function SumOver(m: map<DrugId, int>, ks: set<DrugId>): int
    requires ks <= m.Keys
    decreases ks
  {
    if exists k :: k in ks then
      var k :| k in ks;
      m[k] + SumOver(m, ks - {k})
    else 0
  }

  /** The sum of the values of a map, in whatever order `Object.values` lists them. */
  ghost function SumValues(m: map<DrugId, int>): int {
    SumOver(m, m.Keys)
  }

  /** `Object.values(scores).reduce((sum, score) => sum + score, 0)`. */
  ghost function TotalScore(s: LearningState): int {
    SumValues(s.scores)
  }

  /** `selectDrugRecordings(id)`. */
  function DrugRecordings(s: LearningState, id: DrugId): (r: seq<Recording>)
    ensures id !in s.recordings ==> r == []
    ensures id in s.recordings ==> r == s.recordings[id]
  {
    RecordingsOf(s, id)
  }

  // --------------------------------------------------------- the store itself

  class LearningStore {
    var current: seq<Drug>
    var finished: seq<Drug>
    var scores: map<DrugId, int>
    var recordings: map<DrugId, seq<Recording>>

    function State(): LearningState
      reads this
    {
      LearningState(current, finished, scores, recordings)
    }

    constructor ()
      ensures State() == Initial
    {
      current, finished, scores, recordings := [], [], map[], map[];
    }

    method AddToLearning(drug: Drug)
      modifies this
      ensures State() == Reduce(old(State()), Action.AddToLearning(drug))
    {
      if FindById(current, drug.id).None? {
        current := current + [drug];
      }
    }

    method FinishDrug(drugId: DrugId)
      modifies this
      ensures State() == Reduce(old(State()), Action.FinishDrug(drugId))
    {
      var drug := FindById(current, drugId);
      if drug.Some? {
        current := WithoutId(current, drugId);
        finished := finished + [drug.value];
      }
    }

    method RemoveDrug(id: Option<DrugId>, from: Option<string>)
      modifies this
      ensures State() == Reduce(old(State()), Action.RemoveDrug(id, from))
    {
      if from == Some("current") {
        current := WithoutOptionalId(current, id);
      } else {
        finished := WithoutOptionalId(finished, id);
      }
    }

    method AddRecording(drugId: DrugId, uri: string, date: Timestamp, score: int)
      modifies this
      ensures State() == Reduce(old(State()), Action.AddRecording(drugId, uri, date, score))
    {
      if drugId !in recordings {
        recordings := recordings[drugId := []];
      }
      recordings := recordings[drugId := recordings[drugId] + [Recording(uri, date, score)]];
      if drugId !in scores || scores[drugId] == 0 || score > scores[drugId] {
        scores := scores[drugId := score];
      }
    }

    method DeleteRecording(drugId: DrugId, index: int)
      requires drugId in recordings
      modifies this
      ensures State() == Reduce(old(State()), Action.DeleteRecording(drugId, index))
    {
      recordings := recordings[drugId := SpliceOne(recordings[drugId], index)];
    }
  }

  // ------------------------------------------------------------------ lemmas

  /** `addToLearning` appends exactly when no current entry has the id, and touches nothing else. */
  lemma AddToLearningAppendsIffNew(s: LearningState, drug: Drug)
    ensures var t := Reduce(s, AddToLearning(drug));
      && (t.current == s.current + [drug] <==> !HasId(s.current, drug.id))
      && (HasId(s.current, drug.id) ==> t == s)
      && t.finished == s.finished && t.scores == s.scores && t.recordings == s.recordings
  {
    if HasId(s.current, drug.id) {
      assert |s.current + [drug]| != |s.current|;
    }
  }

  lemma AddToLearningIdempotent(s: LearningState, drug: Drug)
    ensures var t := Reduce(s, AddToLearning(drug));
      Reduce(t, AddToLearning(drug)) == t
  {
    var t := Reduce(s, AddToLearning(drug));
    assert t.current[|t.current| - 1].id == drug.id || HasId(s.current, drug.id);
  }

  lemma AddToLearningKeepsIdsUnique(s: LearningState, drug: Drug)
    requires UniqueIds(s.current)
    ensures UniqueIds(Reduce(s, AddToLearning(drug)).current)
  {
  }

  /** The two lists share no id. */
  predicate Disjoint(s: LearningState) {
    forall d | d in s.current :: !HasId(s.finished, d.id)
  }

  /** `addToLearning` never looks at `finished`: a finished drug goes back into `current` and the lists overlap. */
  lemma AddToLearningIgnoresFinished(s: LearningState, drug: Drug)
    requires !HasId(s.current, drug.id) && HasId(s.finished, drug.id)
    ensures var t := Reduce(s, AddToLearning(drug));
      HasId(t.current, drug.id) && t.finished == s.finished && !Disjoint(t)
  {
    var t := Reduce(s, AddToLearning(drug));
    assert t.current[|s.current|] == drug;
  }

  /** `finishDrug` moves the first matching entry to the end of `finished` and drops every entry with the id from `current`. */
  lemma FinishDrugMoves(s: LearningState, id: DrugId)
    ensures var t := Reduce(s, FinishDrug(id));
      && (HasId(s.current, id) ==>
            && !HasId(t.current, id)
            && (forall d :: multiset(t.current)[d] == if d.id == id then 0 else multiset(s.current)[d])
            && (exists k | 0 <= k < |s.current| ::
                  t.finished == s.finished + [s.current[k]] && s.current[k].id == id
                  && forall j | 0 <= j < k :: s.current[j].id != id))
      && (!HasId(s.current, id) ==> t == s)
      && t.scores == s.scores && t.recordings == s.recordings
  {
  }

  /** With unique ids, finishing a current drug keeps the count of both lists together. */
  lemma FinishDrugKeepsTotal(s: LearningState, id: DrugId)
    requires UniqueIds(s.current) && HasId(s.current, id)
    ensures var t := Reduce(s, FinishDrug(id));
      CurrentCount(t) + FinishedCount(t) == CurrentCount(s) + FinishedCount(s)
  {
    WithoutUniqueId(s.current, id);
  }

  lemma {:induction false} WithoutUniqueId(ds: seq<Drug>, id: DrugId)
    requires UniqueIds(ds) && HasId(ds, id)
    ensures |WithoutId(ds, id)| == |ds| - 1
    decreases |ds|
  {
    var tail := ds[1..];
    assert UniqueIds(tail) by {
      forall i, j | 0 <= i < j < |tail| ensures tail[i].id != tail[j].id {
        assert tail[i] == ds[i + 1] && tail[j] == ds[j + 1];
      }
    }
    if ds[0].id == id {
      assert !HasId(tail, id) by {
        forall k | 0 <= k < |tail| ensures tail[k].id != id {
          assert tail[k] == ds[k + 1];
        }
      }
    } else {
      var k :| 0 <= k < |ds| && ds[k].id == id;
      assert tail[k - 1] == ds[k];
      WithoutUniqueId(tail, id);
    }
  }

  /** `removeDrug` with `from == "current"` changes only `current`, otherwise only `finished`; an absent id changes nothing. */
  lemma RemoveDrugTouchesOneList(s: LearningState, id: DrugId, from: Option<string>)
    ensures var t := Reduce(s, RemoveDrug(Some(id), from));
      && (from == Some("current") ==> t.finished == s.finished && !HasId(t.current, id))
      && (from != Some("current") ==> t.current == s.current && !HasId(t.finished, id))
      && t.scores == s.scores && t.recordings == s.recordings
      && (!HasId(s.current, id) && !HasId(s.finished, id) ==> t == s)
  {
  }

  /** A payload without `id` and `from` (a bare id) removes nothing at all. */
  lemma RemoveDrugWithoutFieldsIsNoOp(s: LearningState)
    ensures Reduce(s, RemoveDrug(None, None)) == s
  {
  }

  /** `addRecording` appends one entry to that drug's list (creating it) and leaves the other drugs' lists alone. */
  lemma AddRecordingAppendsOne(s: LearningState, id: DrugId, uri: string, date: Timestamp, score: int)
    ensures var t := Reduce(s, AddRecording(id, uri, date, score));
      && DrugRecordings(t, id) == DrugRecordings(s, id) + [Recording(uri, date, score)]
      && (forall other | other != id :: DrugRecordings(t, other) == DrugRecordings(s, other))
      && t.recordings.Keys == s.recordings.Keys + {id}
      && t.current == s.current && t.finished == s.finished
  {
  }

  /** `deleteRecording` removes the entry at `index` keeping the rest in order, and does not touch `scores`. */
  lemma DeleteRecordingRemovesAt(s: LearningState, id: DrugId, index: int)
    requires id in s.recordings && 0 <= index < |s.recordings[id]|
    ensures var t := Reduce(s, DeleteRecording(id, index));
      && var before := s.recordings[id];
      && t.recordings[id] == before[..index] + before[index + 1..]
      && t.scores == s.scores
      && (forall other | other != id && other in s.recordings :: t.recordings[other] == s.recordings[other])
  {
    var before := s.recordings[id];
    var after := Reduce(s, DeleteRecording(id, index)).recordings[id];
    assert after == before[..index] + before[index + 1..];
  }

  // -------------------------------------------------------------- best scores

  /** The largest score among a non-empty list of recordings. */
  function MaxScore(rs: seq<Recording>): int
    requires rs != []
  {
    if |rs| == 1 then rs[0].score
    else
      var m := MaxScore(rs[..|rs| - 1]);
      if rs[|rs| - 1].score > m then rs[|rs| - 1].score else m
  }

  predicate NonNegative(s: LearningState) {
    forall id | id in s.recordings :: forall r | r in s.recordings[id] :: r.score >= 0
  }

  /** `scores` holds, for every drug with recordings, the best of their scores, and nothing else. */
  predicate ScoresAreBest(s: LearningState) {
    && (forall id | id in s.scores :: id in s.recordings && s.recordings[id] != [])
    && (forall id | id in s.recordings && s.recordings[id] != [] ::
          id in s.scores && s.scores[id] == MaxScore(s.recordings[id]))
  }

  lemma {:induction false} MaxScoreNonNegative(rs: seq<Recording>)
    requires rs != [] && forall r | r in rs :: r.score >= 0
    ensures MaxScore(rs) >= 0
    decreases |rs|
  {
    if |rs| > 1 {
      assert forall r | r in rs[..|rs| - 1] :: r in rs;
      MaxScoreNonNegative(rs[..|rs| - 1]);
    }
  }

  /** For non-negative scores the falsy test on 0 is harmless: `addRecording` keeps `scores` the best per drug. */
  lemma AddRecordingKeepsBest(s: LearningState, id: DrugId, uri: string, date: Timestamp, score: int)
    requires ScoresAreBest(s) && NonNegative(s) && score >= 0
    ensures var t := Reduce(s, AddRecording(id, uri, date, score));
      && ScoresAreBest(t) && NonNegative(t)
      && t.scores[id] == MaxScore(t.recordings[id])
  {
    var t := Reduce(s, AddRecording(id, uri, date, score));
    var before := RecordingsOf(s, id);
    var after := before + [Recording(uri, date, score)];
    assert after[..|after| - 1] == before;
    if before != [] {
      MaxScoreNonNegative(before);
    }
  }

  /** Every action except `deleteRecording`, with non-negative scores. */
  predicate KeepsBest(a: Action) {
    !a.DeleteRecording? && (a.AddRecording? ==> a.score >= 0)
  }

  /** After any sequence of such actions from the initial state, `scores[id]` is the maximum score recorded for `id`. */
  lemma {:induction false} ScoresStayBest(s: LearningState, actions: seq<Action>)
    requires ScoresAreBest(s) && NonNegative(s)
    requires forall k | 0 <= k < |actions| :: KeepsBest(actions[k])
    ensures AllEnabled(s, actions)
    ensures ScoresAreBest(ReduceAll(s, actions)) && NonNegative(ReduceAll(s, actions))
    decreases |actions|
  {
    if actions != [] {
      var a := actions[0];
      assert KeepsBest(a);
      if a.AddRecording? {
        AddRecordingKeepsBest(s, a.drugId, a.uri, a.date, a.score);
      }
      var rest := actions[1..];
      assert forall k | 0 <= k < |rest| :: KeepsBest(rest[k]) by {
        forall k | 0 <= k < |rest| ensures KeepsBest(rest[k]) {
          assert rest[k] == actions[k + 1];
        }
      }
      ScoresStayBest(Reduce(s, a), rest);
    }
  }

  lemma InitialScoresAreBest()
    ensures ScoresAreBest(Initial) && NonNegative(Initial)
  {
  }

  /** `deleteRecording` does not recompute the best score: it can outlive the recording that earned it. */
  lemma DeleteRecordingKeepsStaleBest()
    ensures var s := Reduce(Initial, AddRecording(1, "a.m4a", "t0", 80));
      && ScoresAreBest(s)
      && var t := Reduce(s, DeleteRecording(1, 0));
      && t.scores[1] == 80 && t.recordings[1] == [] && !ScoresAreBest(t)
  {
  }

  // ------------------------------------------------------------- total score

  lemma {:induction false} SumOverRemove(m: map<DrugId, int>, ks: set<DrugId>, k: DrugId)
    requires ks <= m.Keys && k in ks
    ensures SumOver(m, ks) == m[k] + SumOver(m, ks - {k})
    decreases ks
  {
    var j :| j in ks && SumOver(m, ks) == m[j] + SumOver(m, ks - {j});
    if j != k {
      SumOverRemove(m, ks - {j}, k);
      SumOverRemove(m, ks - {k}, j);
      assert ks - {j} - {k} == ks - {k} - {j};
    }
  }

  lemma {:induction false} SumOverAgree(m: map<DrugId, int>, m': map<DrugId, int>, ks: set<DrugId>)
    requires ks <= m.Keys && ks <= m'.Keys
    requires forall k | k in ks :: m[k] == m'[k]
    ensures SumOver(m, ks) == SumOver(m', ks)
    decreases ks
  {
    if exists k :: k in ks {
      var k :| k in ks;
      SumOverRemove(m, ks, k);
      SumOverRemove(m', ks, k);
      SumOverAgree(m, m', ks - {k});
    }
  }

  /** Storing `v` for `k` moves the total by `v` minus what `k` held before. */
  lemma SumValuesUpdate(m: map<DrugId, int>, k: DrugId, v: int)
    ensures SumValues(m[k := v]) == SumValues(m) - (if k in m then m[k] else 0) + v
  {
    var m' := m[k := v];
    SumOverRemove(m', m'.Keys, k);
    if k in m {
      SumOverAgree(m, m', m.Keys - {k});
      SumOverRemove(m, m.Keys, k);
      assert m'.Keys - {k} == m.Keys - {k};
    } else {
      SumOverAgree(m, m', m.Keys);
      assert m'.Keys - {k} == m.Keys;
    }
  }

  /** The selected total score never drops when a recording is added with tracked, non-negative scores. */
  lemma AddRecordingRaisesTotal(s: LearningState, id: DrugId, uri: string, date: Timestamp, score: int)
    requires ScoresAreBest(s) && NonNegative(s) && score >= 0
    ensures var t := Reduce(s, AddRecording(id, uri, date, score));
      TotalScore(t) >= TotalScore(s)
      && (id !in s.scores ==> TotalScore(t) == TotalScore(s) + score)
  {
    SumValuesUpdate(s.scores, id, score);
  }
}
