/**
 * The learning screen of one drug: a list of the attempts recorded in this
 * visit, the recording in progress, and the FINISH and REMOVE buttons that
 * dispatch to the learning store. The microphone is not modelled: each
 * handler receives the outcome of its device calls as parameters.
 */
module LearningScreen {
  import opened Wrappers
  import opened LearningSlice

  /** A handle on a recording in progress, as the device hands it out. */
  type RecordingHandle = nat

  /** An attempt in the screen's list, `{ uri, date, score }`; `score` is `null` until evaluated. */
  datatype Attempt = Attempt(uri: Option<string>, date: Timestamp, score: Option<int>)

  class LearningSession {
    /** `route.params.drug`. */
    const drug: Drug
    const store: LearningStore
    var recordings: seq<Attempt>
    var recording: Option<RecordingHandle>

    constructor (drug: Drug, store: LearningStore)
      ensures this.drug == drug && this.store == store
      ensures recordings == [] && recording == None
    {
      this.drug := drug;
      this.store := store;
      recordings := [];
      recording := None;
    }

    /**
     * `startRecording`. `granted` is the permission answer; `created` is the new
     * recording, or `None` when setting the audio mode or creating it threw.
     */
    method StartRecording(granted: bool, created: Option<RecordingHandle>)
      modifies this
      ensures recordings == old(recordings)
      ensures !granted ==> recording == old(recording)
      ensures granted ==> recording == if created.Some? then created else old(recording)
    {
      if !granted {
        return;
      }
      if created.None? {
        return;
      }
      recording := created;
    }

    /**
     * `stopRecording`. `stopped` says whether stopping and unloading succeeded;
     * `uri` is what `getURI` answered and `date` the current time.
     */
    method StopRecording(stopped: bool, uri: Option<string>, date: Timestamp)
      modifies this
      ensures old(recording).None? ==> recordings == old(recordings) && recording == None
      ensures old(recording).Some? && stopped ==>
                recordings == old(recordings) + [Attempt(uri, date, None)] && recording == None
      ensures old(recording).Some? && !stopped ==>
                recordings == old(recordings) && recording == old(recording)
    {
      if recording.None? {
        return;
      }
      if !stopped {
        return;
      }
      recordings := recordings + [Attempt(uri, date, None)];
      recording := None;
    }

    /**
     * `evaluateRecording(index)` with the random draw `score` in [0, 100]. An index
     * outside the list makes the assignment throw before the list is replaced.
     */
    method EvaluateRecording(index: int, score: int)
      requires 0 <= score <= 100
      modifies this
      ensures recording == old(recording)
      ensures |recordings| == |old(recordings)|
      ensures 0 <= index < |recordings| ==>
                && recordings[index] == old(recordings)[index].(score := Some(score))
                && forall k | 0 <= k < |recordings| && k != index :: recordings[k] == old(recordings)[k]
      ensures !(0 <= index < |old(recordings)|) ==> recordings == old(recordings)
    {
      var updated := recordings;
      if 0 <= index < |updated| {
        updated := updated[index := updated[index].(score := Some(score))];
        recordings := updated;
      }
    }

    /** FINISH: dispatches `finishDrug(drug.id)` whether or not any attempt was evaluated. */
    method HandleFinish()
      modifies store
      ensures store.State() == Reduce(old(store.State()), FinishDrug(drug.id))
      ensures old(HasId(store.current, drug.id)) ==>
                !HasId(store.current, drug.id) && HasId(store.finished, drug.id)
      ensures store.scores == old(store.scores) && store.recordings == old(store.recordings)
    {
      ghost var before := store.State();
      FinishDrugMoves(before, drug.id);
      store.FinishDrug(drug.id);
      if HasId(before.current, drug.id) {
        assert store.finished[|before.finished|].id == drug.id;
      }
    }

    /**
     * REMOVE as written: `removeDrug(drug.id)` sends the bare id, so the reducer's
     * `id` and `from` are both undefined. It filters `finished` on an undefined
     * id, which keeps every entry.
     */
    method HandleRemove()
      modifies store
      ensures store.State() == Reduce(old(store.State()), RemoveDrug(None, None))
      ensures store.State() == old(store.State())
    {
      store.RemoveDrug(None, None);
    }

    /**
     * REMOVE as evidently intended: `removeDrug({ id: drug.id, from })`, with
     * `from` naming the list the screen was opened from, "current" when the
     * drug is being learnt and "finished" otherwise.
     */
    method HandleRemoveFromList()
      modifies store
      ensures var from := if old(HasId(store.current, drug.id)) then "current" else "finished";
        store.State() == Reduce(old(store.State()), RemoveDrug(Some(drug.id), Some(from)))
      ensures old(HasId(store.current, drug.id)) ==>
                && !HasId(store.current, drug.id) && store.finished == old(store.finished)
                && forall d :: multiset(store.current)[d] == if d.id == drug.id then 0 else old(multiset(store.current))[d]
      ensures !old(HasId(store.current, drug.id)) ==>
                && !HasId(store.finished, drug.id) && store.current == old(store.current)
                && forall d :: multiset(store.finished)[d] == if d.id == drug.id then 0 else old(multiset(store.finished))[d]
      ensures store.scores == old(store.scores) && store.recordings == old(store.recordings)
    {
      var from := if HasId(store.current, drug.id) then "current" else "finished";
      store.RemoveDrug(Some(drug.id), Some(from));
    }
  }

  /** A visit to the screen: recording, evaluating and finishing never add to the store's scores. */
  method VisitLeavesScoresAlone(store: LearningStore, drug: Drug, score: int, uri: string, date: Timestamp)
    returns (session: LearningSession)
    requires 0 <= score <= 100
    modifies store
    ensures store.scores == old(store.scores) && store.recordings == old(store.recordings)
    ensures |session.recordings| == 1 && session.recordings[0].score == Some(score)
  {
    session := new LearningSession(drug, store);
    session.StartRecording(true, Some(7));
    session.StopRecording(true, Some(uri), date);
    session.EvaluateRecording(0, score);
    session.HandleFinish();
  }
}
