/**
 * The profile screen: the update form with its two guards and the PATCH
 * body it builds, and the learning statistics it displays.
 */
module Profile {
  import opened Wrappers
  import opened Ascii
  import opened LearningSlice
  import AuthSlice

  datatype ProfileForm = ProfileForm(username: string, password: string, gender: string)

  /** The form's initial value: `user?.username || ""`, an empty password, `user?.gender || ""`. */
  function InitialForm(user: Option<AuthSlice.User>): (f: ProfileForm)
    ensures f.password == ""
    ensures user.None? ==> f == ProfileForm("", "", "")
    ensures user.Some? ==> f.username == user.value.username && f.gender == user.value.gender
  {
    if user.None? then ProfileForm("", "", "")
    else ProfileForm(user.value.username, "", user.value.gender)
  }

  /** The updates sent to `/users/<id>`; `password` is `None` when the key is absent. */
  datatype UpdatePayload = UpdatePayload(username: string, password: Option<string>, gender: string)

  const UsernameRequired := "Username cannot be empty"
  const PasswordTooShort := "Password must be at least 6 characters"
  const MinPasswordLength := 6

  datatype UpdateOutcome = Alert(message: string) | Send(updates: UpdatePayload)

  /** `handleUpdate` up to the request: two guards, then the payload with its conditional spread. */
  function HandleUpdate(f: ProfileForm): (r: UpdateOutcome)
    ensures r == Alert(UsernameRequired) <==> Trim(f.username) == ""
    ensures r == Alert(PasswordTooShort) <==> Trim(f.username) != "" && 0 < |f.password| < MinPasswordLength
    ensures r.Send? <==> Trim(f.username) != "" && (f.password == "" || |f.password| >= MinPasswordLength)
    ensures r.Send? ==> r.updates.username == f.username && r.updates.gender == f.gender
    ensures r.Send? ==> (r.updates.password.Some? <==> f.password != "")
    ensures r.Send? && r.updates.password.Some? ==> r.updates.password.value == f.password
  {
    if Trim(f.username) == "" then Alert(UsernameRequired)
    else if f.password != "" && |f.password| < MinPasswordLength then Alert(PasswordTooShort)
    else Send(UpdatePayload(f.username, if f.password != "" then Some(f.password) else None, f.gender))
  }

  /** A username of spaces is rejected, while a name with spaces around it is sent as typed. */
  lemma UsernameTrimmedOnlyForTheCheck()
    ensures HandleUpdate(ProfileForm("   ", "", "male")) == Alert(UsernameRequired)
    ensures HandleUpdate(ProfileForm(" ann ", "", "female")) == Send(UpdatePayload(" ann ", None, "female"))
  {
    assert AllSpace("   ");
    assert Trim(" ann ") != "" by {
      assert !AllSpace(" ann ") by { assert !IsSpace(" ann "[1]); }
    }
  }

  /** Leaving the password empty keeps the current one: no `password` key is sent. */
  lemma EmptyPasswordKeepsCurrent(username: string, gender: string)
    requires Trim(username) != ""
    ensures HandleUpdate(ProfileForm(username, "", gender)) == Send(UpdatePayload(username, None, gender))
  {
  }

  /** The three numbers on the screen. */
  datatype Stats = Stats(currentLearning: nat, finished: nat, totalScore: int)

  /**
   * The statistics as written: `current.length || 0`, `finished.length || 0`
   * and `learningState?.totalScore || 0`. The learning state has no
   * `totalScore` field, so the last is always 0.
   */
  function DisplayedStats(s: LearningState): (r: Stats)
    ensures r.currentLearning == CurrentCount(s) && r.finished == FinishedCount(s)
    ensures r.totalScore == 0
  {
    Stats(|s.current|, |s.finished|, MissingField(s))
  }

  /** `learningState.totalScore || 0`: reading a field the state does not have gives `undefined`, hence 0. */
  function MissingField(s: LearningState): int {
    0
  }

  /** The statistics as evidently intended: the total is `selectTotalScore`. */
  ghost function IntendedStats(s: LearningState): (r: Stats)
    ensures r.currentLearning == CurrentCount(s) && r.finished == FinishedCount(s)
    ensures r.totalScore == TotalScore(s)
  {
    Stats(CurrentCount(s), FinishedCount(s), TotalScore(s))
  }

  /** After one recording scored 80 the learning total is 80, and the screen shows 0. */
  lemma TotalScoreNeverShown()
    ensures var s := Reduce(Initial, AddRecording(1, "a.m4a", "t0", 80));
      && TotalScore(s) == 80
      && DisplayedStats(s).totalScore == 0
      && IntendedStats(s).totalScore == 80
  {
    InitialScoresAreBest();
    AddRecordingRaisesTotal(Initial, 1, "a.m4a", "t0", 80);
    assert SumValues(Initial.scores) == 0;
  }

  /** The intended total follows the scores: a first recording of a drug adds its score, and none lowers it. */
  lemma IntendedTotalFollowsRecordings(s: LearningState, id: DrugId, uri: string, date: Timestamp, score: int)
    requires ScoresAreBest(s) && NonNegative(s) && score >= 0
    ensures var t := Reduce(s, AddRecording(id, uri, date, score));
      && IntendedStats(t).totalScore >= IntendedStats(s).totalScore
      && (id !in s.scores ==> IntendedStats(t).totalScore == IntendedStats(s).totalScore + score)
      && IntendedStats(t).currentLearning == IntendedStats(s).currentLearning
      && IntendedStats(t).finished == IntendedStats(s).finished
  {
    AddRecordingRaisesTotal(s, id, uri, date, score);
  }
}
