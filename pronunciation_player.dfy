/**
 * The pronunciation player of one drug and one voice: which audio file it
 * plays, how the gender is shown, and how pressing play, stopping and the
 * playback-status callback move its `sound`, `isPlaying` and `isLoading`
 * state. The audio device is not modelled: each handler receives what its
 * device calls answered as parameters.
 */
module PronunciationPlayer {
  import opened Wrappers

  /** A sound object handed out by the audio device. */
  type SoundHandle = nat

  const MaleSuffix := " 1 - male.wav"
  const FemaleSuffix := " - female.wav"
  const MaleColor := "#4287f5"
  const FemaleColor := "#e0564c"

  /** The key into the audio map for the `label` prop, here `name`: only the exact gender "male" selects the male recording. */
  function FileKey(name: string, gender: string): (k: string)
    ensures gender == "male" ==> k == name + MaleSuffix
    ensures gender != "male" ==> k == name + FemaleSuffix
  {
    if gender == "male" then name + MaleSuffix else name + FemaleSuffix
  }

  function GenderIcon(gender: string): (icon: string)
    ensures icon == "male" <==> gender == "male"
    ensures icon != "male" ==> icon == "female"
  {
    if gender == "male" then "male" else "female"
  }

  function GenderColor(gender: string): (color: string)
    ensures color == MaleColor <==> gender == "male"
    ensures color != MaleColor ==> color == FemaleColor
  {
    if gender == "male" then MaleColor else FemaleColor
  }

  /** The icon, the colour and the file all follow the same test, so they never disagree. */
  lemma PresentationAgrees(name: string, gender: string)
    ensures GenderIcon(gender) == "male" <==> GenderColor(gender) == MaleColor
    ensures GenderIcon(gender) == "male" <==> FileKey(name, gender) == name + MaleSuffix
  {
    if gender != "male" {
      assert (name + FemaleSuffix)[|name| + 1] != (name + MaleSuffix)[|name| + 1];
    }
  }

  /** Distinct labels never share a file for the same voice. */
  lemma FileKeyInjective(name1: string, name2: string, gender: string)
    requires FileKey(name1, gender) == FileKey(name2, gender)
    ensures name1 == name2
  {
    var k := FileKey(name1, gender);
    var suffix := if gender == "male" then MaleSuffix else FemaleSuffix;
    assert name1 == k[..|k| - |suffix|];
    assert name2 == k[..|k| - |suffix|];
  }

  /** A male key and a female key never coincide, whatever the labels. */
  lemma VoicesNeverShareAFile(name1: string, name2: string, gender: string)
    requires gender != "male"
    ensures FileKey(name1, "male") != FileKey(name2, gender)
  {
    var m := FileKey(name1, "male");
    var f := FileKey(name2, gender);
    if |m| == |f| {
      assert m[|m| - 9] == ' ';
      assert f[|f| - 9] == 'e';
    }
  }

  // ------------------------------------------------------------- the state

  /**
   * The component state, with `loaded`, the sounds created and not yet
   * unloaded, standing for what the device holds.
   */
  datatype PlayerState = PlayerState(sound: Option<SoundHandle>, isPlaying: bool, isLoading: bool, loaded: set<SoundHandle>)

  const Initial := PlayerState(None, false, false, {})

  /** At most one sound is held, and it is the one the component refers to. */
  predicate HoldsOne(s: PlayerState) {
    s.loaded == if s.sound.Some? then {s.sound.value} else {}
  }

  /** `stopSound`: with a sound, a successful stop clears `isPlaying`; a failed one changes nothing. */
  function Stop(s: PlayerState, stopOk: bool): PlayerState {
    if s.sound.Some? && stopOk then s.(isPlaying := false) else s
  }

  /**
   * `playSound`. `hasSource` says whether the audio map has the key;
   * `unloadOk` whether unloading the previous sound succeeded; `created` the
   * new sound, `None` when creating it threw.
   */
  function Play(s: PlayerState, hasSource: bool, stopOk: bool, unloadOk: bool, created: Option<SoundHandle>): PlayerState {
    if s.isPlaying then Stop(s, stopOk)
    else if !hasSource then s.(isLoading := false)
    else
      var loading := s.(isLoading := true);
      if loading.sound.Some? && !unloadOk then loading.(isLoading := false, isPlaying := false)
      else
        var cleared := if loading.sound.Some? then loading.(sound := None, loaded := loading.loaded - {loading.sound.value}) else loading;
        if created.None? then cleared.(isLoading := false, isPlaying := false)
        else cleared.(sound := created, isPlaying := true, isLoading := false, loaded := cleared.loaded + {created.value})
  }

  /** The playback-status callback: finishing clears `isPlaying`; an error clears both flags. */
  function OnStatus(s: PlayerState, didJustFinish: bool, hasError: bool): PlayerState {
    var finished := if didJustFinish then s.(isPlaying := false) else s;
    if hasError then finished.(isPlaying := false, isLoading := false) else finished
  }

  /**
   * The cleanup of the effect keyed on `sound`, run when `sound` changes
   * from `before` to `after`: the previous sound is unloaded, if there was one.
   */
  function SoundChanged(before: PlayerState, after: PlayerState): PlayerState {
    if before.sound.Some? && after.sound != before.sound then after.(loaded := after.loaded - {before.sound.value})
    else after
  }

  /** The same cleanup on unmount: the held sound is unloaded; `unloadOk` says whether the device call succeeded. */
  function Unmount(s: PlayerState, unloadOk: bool): PlayerState {
    if s.sound.Some? && unloadOk then s.(loaded := s.loaded - {s.sound.value}) else s
  }

  class Player {
    const name: string
    const gender: string
    /** `audioFiles`: a key maps to an audio source exactly when it is present. */
    const audioFiles: set<string>
    var sound: Option<SoundHandle>
    var isPlaying: bool
    var isLoading: bool
    var loaded: set<SoundHandle>

    function State(): PlayerState
      reads this
    {
      PlayerState(sound, isPlaying, isLoading, loaded)
    }

    constructor (name: string, gender: string, audioFiles: set<string>)
      ensures this.name == name && this.gender == gender && this.audioFiles == audioFiles
      ensures State() == Initial
    {
      this.name := name;
      this.gender := gender;
      this.audioFiles := audioFiles;
      sound, isPlaying, isLoading, loaded := None, false, false, {};
    }

    method StopSound(stopOk: bool)
      modifies this
      ensures State() == Stop(old(State()), stopOk)
    {
      if sound.Some? {
        if stopOk {
          isPlaying := false;
        }
      }
    }

    method PlaySound(stopOk: bool, unloadOk: bool, created: Option<SoundHandle>)
      modifies this
      ensures State() == Play(old(State()), FileKey(name, gender) in audioFiles, stopOk, unloadOk, created)
    {
      if isPlaying {
        StopSound(stopOk);
        return;
      }
      isLoading := true;
      var fileKey := FileKey(name, gender);
      if fileKey !in audioFiles {
        isLoading := false;
        return;
      }
      if sound.Some? {
        if !unloadOk {
          isLoading := false;
          isPlaying := false;
          return;
        }
        loaded := loaded - {sound.value};
        sound := None;
      }
      if created.None? {
        isLoading := false;
        isPlaying := false;
        return;
      }
      sound := created;
      loaded := loaded + {created.value};
      isPlaying := true;
      isLoading := false;
    }

    method OnUnmount(unloadOk: bool)
      modifies this
      ensures State() == Unmount(old(State()), unloadOk)
    {
      if sound.Some? && unloadOk {
        loaded := loaded - {sound.value};
      }
    }

    method OnPlaybackStatusUpdate(didJustFinish: bool, hasError: bool)
      modifies this
      ensures State() == OnStatus(old(State()), didJustFinish, hasError)
    {
      if didJustFinish {
        isPlaying := false;
      }
      if hasError {
        isPlaying := false;
        isLoading := false;
      }
    }
  }

  // ------------------------------------------------------------------ lemmas

  /** Pressing play while playing only stops: no sound is created or released. */
  lemma PlayWhilePlayingOnlyStops(s: PlayerState, hasSource: bool, stopOk: bool, unloadOk: bool, created: Option<SoundHandle>)
    requires s.isPlaying
    ensures var t := Play(s, hasSource, stopOk, unloadOk, created);
      && t == Stop(s, stopOk)
      && t.sound == s.sound && t.loaded == s.loaded && t.isLoading == s.isLoading
      && (t.isPlaying <==> !(s.sound.Some? && stopOk))
  {
  }

  /** Without an audio source, loading ends and no sound is created. */
  lemma MissingSourceCreatesNothing(s: PlayerState, stopOk: bool, unloadOk: bool, created: Option<SoundHandle>)
    requires !s.isPlaying
    ensures Play(s, false, stopOk, unloadOk, created) == s.(isLoading := false)
  {
  }

  /** Whatever the device answers, at most one sound is held after play, stop and every status update. */
  lemma HoldsOnePreserved(s: PlayerState, hasSource: bool, stopOk: bool, unloadOk: bool, created: Option<SoundHandle>,
                          didJustFinish: bool, hasError: bool)
    requires HoldsOne(s)
    ensures HoldsOne(Play(s, hasSource, stopOk, unloadOk, created))
    ensures HoldsOne(Stop(s, stopOk))
    ensures HoldsOne(OnStatus(s, didJustFinish, hasError))
  {
  }

  /** A successful play replaces any previous sound by the new one and ends loading. */
  lemma PlayReplacesSound(s: PlayerState, stopOk: bool, unloadOk: bool, h: SoundHandle)
    requires HoldsOne(s) && !s.isPlaying && (s.sound.Some? ==> unloadOk)
    ensures var t := Play(s, true, stopOk, unloadOk, Some(h));
      t.sound == Some(h) && t.loaded == {h} && t.isPlaying && !t.isLoading
  {
  }

  /** A failure to create or to unload clears both flags; a press that does not only stop never leaves loading on. */
  lemma PlayNeverLeavesLoading(s: PlayerState, hasSource: bool, stopOk: bool, unloadOk: bool, created: Option<SoundHandle>)
    requires !s.isPlaying
    ensures var t := Play(s, hasSource, stopOk, unloadOk, created);
      && !t.isLoading
      && (hasSource && (created.None? || (s.sound.Some? && !unloadOk)) ==> !t.isPlaying)
  {
  }

  /** A status update never raises a flag; an error clears both, finishing clears `isPlaying`. */
  lemma StatusOnlyLowers(s: PlayerState, didJustFinish: bool, hasError: bool)
    ensures var t := OnStatus(s, didJustFinish, hasError);
      && (t.isPlaying ==> s.isPlaying) && (t.isLoading ==> s.isLoading)
      && (didJustFinish || hasError ==> !t.isPlaying)
      && (hasError ==> !t.isLoading)
      && t.sound == s.sound && t.loaded == s.loaded
  {
  }

  /** Stopping without a sound is a no-op. */
  lemma StopWithoutSoundIsNoOp(s: PlayerState, stopOk: bool)
    requires s.sound.None?
    ensures Stop(s, stopOk) == s
  {
  }

  /**
   * When a press changes `sound`, the effect's cleanup unloads a sound that
   * `playSound` has already released, so it changes nothing the model holds.
   */
  lemma SoundChangeCleanupIsRedundant(s: PlayerState, hasSource: bool, stopOk: bool, unloadOk: bool, created: Option<SoundHandle>)
    requires HoldsOne(s)
    ensures var t := Play(s, hasSource, stopOk, unloadOk, created);
      SoundChanged(s, t) == t
  {
    HoldsOnePreserved(s, hasSource, stopOk, unloadOk, created, false, false);
  }

  /** Unmounting with a successful unload leaves nothing loaded. */
  lemma UnmountReleasesAll(s: PlayerState)
    requires HoldsOne(s)
    ensures Unmount(s, true).loaded == {}
  {
  }
}
