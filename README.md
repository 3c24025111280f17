# DrugSpeak core, modelled in Dafny

DrugSpeak is a React Native app for practising the pronunciation of drug
names. This project models its core and proves properties of that model:

- the `learning` slice of the Redux store: the drugs being learnt and
  finished, each drug's recordings, and its best score;
- the `auth` slice: the signed-in user, the token, and the request status;
- the parts of the API module that hold state or compute values: the bearer
  token and its request interceptor, error normalisation, and the sign-up and
  sign-in request bodies;
- the screens' own logic:
  - the learning session's recordings and its FINISH and REMOVE buttons;
  - the validation of the sign-up, sign-in and profile forms and the data
    they send;
  - the category list and its occurrence counts;
  - the drugs shown for one category;
  - the pronunciation player's file choice and playback flags.

Each source file is one module:

- `learning_slice.dfy` (`LearningSlice`): the reducer is a function
  `Reduce`. `LearningStore` is a class whose methods update its fields as
  the source's draft updates do, and each method is proved equal to
  `Reduce`.
- `auth_slice.dfy` (`AuthSlice`): `AuthStore.Dispatch` also sets the API
  client's token.
- `drug_speak_api.dfy` (`DrugSpeakApi`): `ApiClient` holds the module-level
  token; `RequestConfig` holds the headers the interceptor edits in place.
- `learning_screen.dfy` (`LearningScreen`): `LearningSession` is the screen's
  state, referring to a `LearningStore`.
- `sign_up_screen.dfy`, `sign_in_screen.dfy`, `profile.dfy`: pure functions
  and lemmas.
- `category_screen.dfy` (`CategoryScreen`): `ExtractCategories` is a method
  whose nested loops fill a map and an insertion order. Its postconditions
  are stated with the functions `Occ`, `KnownOcc` and `Flat`.
- `drug_in_category_screen.dfy` (`DrugInCategoryScreen`): the category filter
  and the "learning" mark.
- `pronunciation_player.dfy` (`PronunciationPlayer`): pure key, icon and
  colour functions. The `Player` class's handlers are proved equal to the
  transition functions `Play`, `Stop` and `OnStatus`.
- `common.dfy`: `Wrappers` (Option), `Ascii` (JavaScript `trim`,
  `toLowerCase` and `\s` over ASCII) and `Seqs` (subsequence).

Where the source relies on JavaScript semantics, the model spells those out:

- An `undefined` field becomes `None`.
- `||` and `!x` follow truthiness, so `""` is falsy. A score of 0 is falsy in
  `!state.scores[drugId]`.
- `splice` accepts negative and too-large indexes.
- Destructuring a bare number gives `undefined` fields.

Device outcomes, random draws and timestamps are parameters:

- the microphone permission and the created recording;
- the stop, unload and create results of the audio device;
- the evaluation score, in [0, 100];
- `new Date()`, taken as an opaque string.

## Model

| member | source | states |
|---|---|---|
| `LearningSlice.Reduce` | src/redux/learningSlice.js:13-65 | The reducer as a function with one case per action, the specification the store's methods are proved equal to. Its behaviour is stated by the lemmas below. |
| `LearningSlice.LearningStore.constructor` | src/redux/learningSlice.js:3-8 | The store starts with both lists empty and both maps empty. |
| `LearningSlice.LearningStore.AddToLearning` | src/redux/learningSlice.js:15-20 | The new store state is `Reduce` of the old one with `addToLearning`. |
| `LearningSlice.LearningStore.FinishDrug` | src/redux/learningSlice.js:23-30 | The new store state is `Reduce` of the old one with `finishDrug`. |
| `LearningSlice.LearningStore.RemoveDrug` | src/redux/learningSlice.js:33-40 | The new store state is `Reduce` of the old one with `removeDrug`. `id` and `from` may each be undefined. |
| `LearningSlice.LearningStore.AddRecording` | src/redux/learningSlice.js:43-58 | The new store state is `Reduce` of the old one with `addRecording`. |
| `LearningSlice.LearningStore.DeleteRecording` | src/redux/learningSlice.js:61-64 | The new store state is `Reduce` of the old one with `deleteRecording`. It needs the drug's list to exist, since the source dereferences it. |
| `LearningSlice.FindById` | src/redux/learningSlice.js:25 | `find` returns nothing iff no entry has the id. Otherwise it returns the first entry that has it. |
| `LearningSlice.WithoutId` | src/redux/learningSlice.js:27 | The filter leaves no entry with the id. It removes exactly those entries (as a multiset) and keeps the rest in order. With the id absent it returns the list unchanged. |
| `LearningSlice.SpliceOne` | src/redux/learningSlice.js:63 | `splice(index, 1)` with an in-range index drops exactly that element. A too-large index changes nothing. A negative index counts from the end. |
| `LearningSlice.AddToLearningAppendsIffNew` | src/redux/learningSlice.js:16-19 | The drug is appended iff no current entry has its id. Otherwise the state is unchanged. The other fields are never touched. |
| `LearningSlice.AddToLearningIdempotent` | src/redux/learningSlice.js:17-18 | Adding a drug twice is the same as adding it once. |
| `LearningSlice.AddToLearningKeepsIdsUnique` | src/redux/learningSlice.js:17-18 | If the ids in `current` are unique, they are still unique after an add. |
| `LearningSlice.AddToLearningIgnoresFinished` | src/redux/learningSlice.js:17 | A finished drug can be added again. `current` and `finished` then overlap. |
| `LearningSlice.FinishDrugMoves` | src/redux/learningSlice.js:24-29 | With the id in `current`: every entry with that id leaves `current`, and the first of them is appended to `finished`. With the id absent, the state is unchanged. |
| `LearningSlice.FinishDrugKeepsTotal` | src/redux/learningSlice.js:25-28 | With unique ids, finishing keeps the sum of the two counts. |
| `LearningSlice.RemoveDrugTouchesOneList` | src/redux/learningSlice.js:34-39 | `from == "current"` changes only `current`; any other `from` changes only `finished`. The id is then absent from that list. An absent id changes nothing. |
| `LearningSlice.RemoveDrugWithoutFieldsIsNoOp` | src/redux/learningSlice.js:34 | A payload without `id` and `from` filters `finished` on `undefined` and leaves the whole state unchanged. |
| `LearningSlice.AddRecordingAppendsOne` | src/redux/learningSlice.js:44-52 | Exactly one entry is appended to that drug's list, which is created if absent. The other drugs' lists and both drug lists stay as they were. |
| `LearningSlice.AddRecordingKeepsBest` | src/redux/learningSlice.js:55-57 | With non-negative scores, `scores[id]` stays the maximum of that drug's recorded scores. |
| `LearningSlice.ScoresStayBest` | src/redux/learningSlice.js:43-57 | Consider any sequence of actions other than `deleteRecording`, with non-negative scores. Afterwards every `scores[id]` is the maximum score recorded for `id`, and `scores` has no other keys. |
| `LearningSlice.InitialScoresAreBest` | src/redux/learningSlice.js:3-8 | The initial state satisfies the best-score invariant. |
| `LearningSlice.DeleteRecordingRemovesAt` | src/redux/learningSlice.js:61-64 | The element at `index` is removed and the rest keep their order. `scores` and the other drugs' lists are unchanged. |
| `LearningSlice.DeleteRecordingKeepsStaleBest` | src/redux/learningSlice.js:63 | After the only recording is deleted, its score of 80 remains in `scores`, so the best-score invariant is broken. |
| `LearningSlice.SumValuesUpdate` | src/redux/learningSlice.js:71-72 | Setting one key changes the sum of the values by the difference between the new and the old value. |
| `LearningSlice.AddRecordingRaisesTotal` | src/redux/learningSlice.js:71-72 | Adding a recording never lowers `selectTotalScore`. The first recording of a drug raises it by that recording's score. |
| `LearningSlice.DrugRecordings` | src/redux/learningSlice.js:73-74 | `selectDrugRecordings` gives `[]` for an unknown drug, else that drug's list. |
| `LearningSlice.CurrentCount` | src/redux/learningSlice.js:69 | `selectCurrentCount` is the length of `current`. |
| `LearningSlice.FinishedCount` | src/redux/learningSlice.js:70 | `selectFinishedCount` is the length of `finished`. |
| `LearningSlice.TotalScore` | src/redux/learningSlice.js:71-72 | `selectTotalScore` is the sum of the stored best scores, one per drug in `scores`. |
| `AuthSlice.Reduce` | src/redux/authSlice.js:63-125 | The slice reducer as a function, one case per plain reducer and per `addCase`. Its behaviour is stated by the lemmas below. |
| `AuthSlice.TokenAfter` | src/redux/authSlice.js:64-107 | The API client's token after an action: the payload's token after sign-in success, `null` after logout, otherwise unchanged. |
| `AuthSlice.AuthStore.constructor` | src/redux/authSlice.js:4-10 | The store starts in the initial state. |
| `AuthSlice.AuthStore.Dispatch` | src/redux/authSlice.js:64-125 | The new state is `Reduce` of the old one. The API client's token is set on sign-in success, cleared on logout, and otherwise left alone. |
| `AuthSlice.RejectionOf` | src/redux/authSlice.js:43 | A rejection carries `error.message` when that is truthy, else the thunk's fallback. It is never empty. |
| `AuthSlice.RegisterRequest` | src/redux/authSlice.js:17-22 | `registerUser` copies username, e-mail and password. A truthy gender is copied; a falsy one becomes "unspecified". |
| `AuthSlice.SignInThunk` | src/redux/authSlice.js:32-46 | An answer becomes `fulfilled` with the payload. A failure becomes `rejected` with the mapped message. |
| `AuthSlice.UpdateThunk` | src/redux/authSlice.js:48-58 | The same as above for `updateUser`, whose fallback is "Failed to update profile". |
| `AuthSlice.RequestErrorsNeverFallBack` | src/redux/authSlice.js:27 | An error normalised by `request` always has a message, so a thunk's fallback string never replaces it. |
| `AuthSlice.LogoutRestoresInitial` | src/redux/authSlice.js:64-70 | Logout restores every field to its initial value from any state and clears the API token. |
| `AuthSlice.PendingStartsLoading` | src/redux/authSlice.js:80-83 | Every pending case sets status "loading" and clears the error. User, token, sign-in flag and API token are unchanged. |
| `AuthSlice.SignedInUsesPayload` | src/redux/authSlice.js:84-90 | Register or login success sets status "succeeded" and `isLoggedIn`. User and token come from the payload, and the API token is set to the same token. |
| `AuthSlice.RejectedRecordsError` | src/redux/authSlice.js:91-94 | Every rejected case sets status "failed" and stores the rejection's message as the error. User, token and sign-in flag are unchanged. |
| `AuthSlice.UpdatedKeepsSession` | src/redux/authSlice.js:118-121 | Update success replaces only `user` and `status`. |
| `AuthSlice.LoggedInChangesOnlyOnSession` | src/redux/authSlice.js:72-74 | `isLoggedIn` changes only on sign-in success (to true) and on logout (to false). `clearAuthError` changes only `error`. |
| `AuthSlice.SessionAgreementPreserved` | src/redux/authSlice.js:89 | While signed in, the API client's token equals the slice's token, whatever action comes. |
| `AuthSlice.SelectCurrentUser` | src/redux/authSlice.js:132 | The signed-in user. |
| `AuthSlice.SelectAuthToken` | src/redux/authSlice.js:133 | The slice's token. |
| `AuthSlice.SelectIsLoggedIn` | src/redux/authSlice.js:134 | The sign-in flag. |
| `AuthSlice.SelectAuthStatus` | src/redux/authSlice.js:135 | The request status. |
| `AuthSlice.SelectAuthError` | src/redux/authSlice.js:136 | The stored error message. |
| `DrugSpeakApi.ApiClient.constructor` | src/API/drugSpeakAPI.js:13 | The token starts as `null`. |
| `DrugSpeakApi.ApiClient.SetAuthToken` | src/API/drugSpeakAPI.js:15-17 | The token becomes the given value. |
| `DrugSpeakApi.ApiClient.ClearAuthToken` | src/API/drugSpeakAPI.js:19-21 | The token becomes `null`. |
| `DrugSpeakApi.ApiClient.InterceptRequest` | src/API/drugSpeakAPI.js:23-29 | With a truthy token, exactly `Authorization = "Bearer " + token` is added to the headers. Otherwise the headers are unchanged. The same config object is returned. |
| `DrugSpeakApi.TokenReachesRequest` | src/API/drugSpeakAPI.js:15-26 | After `setAuthToken(t)` the next request carries `Bearer t`. After `clearAuthToken` the next request carries its headers unchanged. |
| `DrugSpeakApi.NormalizeError` | src/API/drugSpeakAPI.js:47-58 | The status is the response status if present, else 500. The message and data come from the response body if there is one; without a body the message falls back first to the transport's message, then to "Network error occurred". An empty message in a body becomes "Request failed". The message is never empty. |
| `DrugSpeakApi.RequestFailedOnlyFromServerBody` | src/API/drugSpeakAPI.js:55 | "Request failed" appears only for a server body, or when that is itself the transport's message. |
| `DrugSpeakApi.SignUpPayload` | src/API/drugSpeakAPI.js:64-70 | The sign-up body has a trimmed username and a trimmed then lower-cased email. The password is untouched. A truthy gender is kept and a falsy one becomes "unspecified", so the gender is never empty. |
| `DrugSpeakApi.SignUpPayloadIdempotent` | src/API/drugSpeakAPI.js:65-69 | Sending a produced body through `signUp` again yields the same body. |
| `DrugSpeakApi.SignInPayload` | src/API/drugSpeakAPI.js:72-76 | The sign-in body has the e-mail trimmed and lower-cased and the password untouched. |
| `DrugSpeakApi.SignInPayloadIdempotent` | src/API/drugSpeakAPI.js:74-75 | The sign-in body is a fixpoint. A leading space in the password survives. |
| `Ascii.Trim` | src/API/drugSpeakAPI.js:65 | `trim` returns a string with no white space at either end, no longer than its input. It is empty iff the input is all white space. |
| `Ascii.TrimCutsWhiteSpace` | src/API/drugSpeakAPI.js:65 | The result of `trim` is a slice of the input, and what is cut on either side is all white space. |
| `Ascii.TrimIdempotent` | src/screens/SignUpScreen.js:69 | Trimming twice equals trimming once. |
| `Ascii.NormalizeEmail` | src/API/drugSpeakAPI.js:67 | `trim().toLowerCase()` yields a trimmed string with no upper-case letter. |
| `Ascii.NormalizeEmailIdempotent` | src/screens/SignUpScreen.js:70 | Normalising an e-mail twice, as the screen and then the API do, equals normalising it once. |
| `LearningScreen.LearningSession.constructor` | src/screens/LearningScreen.js:17-22 | A session starts with no attempts and no recording. |
| `LearningScreen.LearningSession.StartRecording` | src/screens/LearningScreen.js:34-58 | A denied permission or a failed creation leaves `recording` as it was. Otherwise `recording` is the new one. The list is untouched. |
| `LearningScreen.LearningSession.StopRecording` | src/screens/LearningScreen.js:60-72 | With no recording, nothing changes. After a successful stop exactly one unscored attempt is appended and `recording` is cleared. A failed stop changes nothing. |
| `LearningScreen.LearningSession.EvaluateRecording` | src/screens/LearningScreen.js:74-78 | Entry `index` gets the drawn score in [0, 100], overwriting any earlier score. The length and the other entries stay. An index outside the list changes nothing. |
| `LearningScreen.LearningSession.HandleFinish` | src/screens/LearningScreen.js:24-27 | It dispatches `finishDrug(drug.id)` with no condition on evaluations. A current drug moves from `current` to `finished`. |
| `LearningScreen.LearningSession.HandleRemove` | src/screens/LearningScreen.js:29-32 | It dispatches `removeDrug` with a bare id, which leaves the store's state unchanged. |
| `LearningScreen.LearningSession.HandleRemoveFromList` | src/screens/LearningScreen.js:30 | The corrected REMOVE dispatches with `from` naming the list that holds the drug. The drug then leaves that list, and the other list and the maps are unchanged. |
| `LearningScreen.VisitLeavesScoresAlone` | src/screens/LearningScreen.js:12 | A visit that records, evaluates and finishes never changes the store's `scores` or `recordings`. |
| `SignUpScreen.MatchesEmailPattern` | src/screens/SignUpScreen.js:35-36 | The e-mail regex as a predicate: an `@` and a later `.` splitting the string into three non-empty runs without white space or `@`. Its meaning is stated by `EmailPatternShape`. |
| `SignUpScreen.EmailPatternShape` | src/screens/SignUpScreen.js:35-36 | The pattern accepts a string iff it has no white space, exactly one `@` after a non-empty local part, and a `.` in the domain that is neither its first nor its last character. |
| `SignUpScreen.ValidateForm` | src/screens/SignUpScreen.js:22-58 | `validateForm` as a function giving the first failed check. Its meaning is stated by `ChecksRunInOrder`. |
| `SignUpScreen.MessagesIdentifyChecks` | src/screens/SignUpScreen.js:24-56 | Different checks alert with different messages. |
| `SignUpScreen.ChecksRunInOrder` | src/screens/SignUpScreen.js:22-58 | Each error is reported iff every earlier check passed and its own check fails. The form is valid iff all six checks pass. |
| `SignUpScreen.SpacesArePassword` | src/screens/SignUpScreen.js:42-50 | A password of six or more spaces, which `trim` would empty, passes both password checks. Such a form is valid iff the username, e-mail and gender checks pass. |
| `SignUpScreen.Submit` | src/screens/SignUpScreen.js:61-73 | Nothing is submitted iff validation fails. Otherwise the username is trimmed, the e-mail is trimmed and lower-cased, and password and gender are as typed. |
| `SignUpScreen.PostedBody` | src/redux/authSlice.js:17-22 | The body `registerUser` and `authAPI.signUp` post for submitted data. Its content is stated by `SignUpPathNormalisesOnce`. |
| `SignUpScreen.SignUpPathNormalisesOnce` | src/screens/SignUpScreen.js:68-76 | The body finally posted has the username trimmed once, the e-mail normalised once, the typed password, and the chosen gender, never defaulted. |
| `SignUpScreen.ClearedFormIsRejected` | src/screens/SignUpScreen.js:95-100 | A cleared form fails the first check and is not submitted. |
| `SignInScreen.HandleSignIn` | src/screens/SignInScreen.js:25-38 | An empty e-mail or password gives the first alert. Otherwise an e-mail without `@` gives the second alert. Otherwise `loginUser` receives the fields untrimmed. |
| `SignInScreen.NormalisedOnlyInApi` | src/screens/SignInScreen.js:38 | The screen passes the e-mail as typed. Only the API body normalises it. |
| `SignInScreen.SpacesPassSignIn` | src/screens/SignInScreen.js:26 | A password of spaces passes. |
| `SignInScreen.ClearedSignInRejected` | src/screens/SignInScreen.js:49-52 | The cleared form gets the "enter both" alert. |
| `SignInScreen.FailureAlertAsWritten` | src/screens/SignInScreen.js:41-42 | As written, the failure alert is always "Invalid email or password". |
| `SignInScreen.ResponseOf` | src/screens/SignInScreen.js:38-41 | What `unwrap()` throws is the rejection's payload, a string, which has no `response` field. |
| `SignInScreen.ResponseMessage` | src/screens/SignInScreen.js:42 | `response?.data?.message` is undefined when there is no response. |
| `SignInScreen.ServerMessageIsLost` | src/screens/SignInScreen.js:40-43 | A server message reaches the rejection but not the alert. |
| `SignInScreen.FailureAlert` | src/screens/SignInScreen.js:43 | The intended alert shows the rejection's message when it is non-empty. |
| `SignInScreen.FailureAlertShowsRequestError` | src/redux/authSlice.js:43 | With the intended alert, the user sees the message `request` failed with. |
| `Profile.InitialForm` | src/screens/Profile.js:23-27 | The form starts from the user's username and gender, or "" without a user. The password starts empty. |
| `Profile.HandleUpdate` | src/screens/Profile.js:29-46 | A username that is blank after trim gives the first alert. A non-empty password shorter than 6 gives the second. Otherwise the payload has the username untrimmed, the gender as is, and a `password` key iff the password is non-empty. |
| `Profile.UsernameTrimmedOnlyForTheCheck` | src/screens/Profile.js:30-33 | A username of spaces is rejected. A padded name is sent with its padding. |
| `Profile.EmptyPasswordKeepsCurrent` | src/screens/Profile.js:44 | An empty password is accepted and sent without a `password` key. |
| `Profile.DisplayedStats` | src/screens/Profile.js:70-72 | As written, the counts are the list lengths and the total is always 0. |
| `Profile.TotalScoreNeverShown` | src/screens/Profile.js:72 | After one recording scored 80, the slice's total is 80 and the screen shows 0. |
| `Profile.IntendedStats` | src/screens/Profile.js:72 | The corrected total is `selectTotalScore` of the learning state. |
| `Profile.IntendedTotalFollowsRecordings` | src/redux/learningSlice.js:71-72 | The corrected total never drops on `addRecording`, and a first recording raises it by its score. |
| `CategoryScreen.ExtractCategories` | src/screens/CategoryScreen.js:6-26 | Every entry's id is a catalogue key and its name is the catalogue's name. Its count is the number of occurrences of that id across all drugs, duplicates included, and is at least 1. No two entries share an id. Every known id that occurs has an entry. The counts sum to the number of known-id occurrences. |
| `CategoryScreen.Values` | src/screens/CategoryScreen.js:25 | `Object.values` lists one entry per inserted key. |
| `CategoryScreen.ValuesAt` | src/screens/CategoryScreen.js:25 | The `k`-th value is the entry of the `k`-th inserted key. |
| `CategoryScreen.Summarises` | src/screens/CategoryScreen.js:6-26 | The property `ExtractCategories` is proved to meet, listed in its row. |

| `CategoryScreen.OccCons` | src/screens/CategoryScreen.js:9-10 | A drug adds its own list's occurrences to the total. |
| `DrugInCategoryScreen.DrugsInCategory` | src/screens/DrugInCategoryScreen.js:13 | The filter keeps exactly the drugs whose categories include the id (as a multiset, none omitted) in their original order. |
| `DrugInCategoryScreen.IsLearning` | src/screens/DrugInCategoryScreen.js:22 | A row is marked iff some drug in `current` has its id. Its behaviour under the slice's actions is stated by `MarkFollowsLearning`. |
| `DrugInCategoryScreen.MarkFollowsLearning` | src/screens/DrugInCategoryScreen.js:22 | The mark shows after `addToLearning`, and is gone after `finishDrug` or a removal from `current`. |
| `DrugInCategoryScreen.CountMatchesCategoryPage` | src/screens/DrugInCategoryScreen.js:13 | If no drug lists the id twice, the number of drugs shown equals the count the category page gives. |
| `PronunciationPlayer.FileKey` | src/components/PronunciationPlayer.js:58-59 | The key is `name + " 1 - male.wav"` for gender "male" and `name + " - female.wav"` for any other value. |
| `PronunciationPlayer.GenderIcon` | src/components/PronunciationPlayer.js:27 | The icon is "male" iff the gender is "male", else "female". |
| `PronunciationPlayer.GenderColor` | src/components/PronunciationPlayer.js:28 | The colour is #4287f5 iff the gender is "male", else #e0564c. |
| `PronunciationPlayer.PresentationAgrees` | src/components/PronunciationPlayer.js:27-28 | The icon, the colour and the file always agree on the voice. |
| `PronunciationPlayer.FileKeyInjective` | src/components/PronunciationPlayer.js:59 | Two names never share a file for the same voice. |
| `PronunciationPlayer.VoicesNeverShareAFile` | src/components/PronunciationPlayer.js:58 | A male key and a female key never coincide. |
| `PronunciationPlayer.Play` | src/components/PronunciationPlayer.js:49-109 | `playSound` as a state transition, given the device's answers. Its behaviour is stated by the lemmas below. |
| `PronunciationPlayer.Stop` | src/components/PronunciationPlayer.js:111-120 | `stopSound` as a state transition: with a sound and a successful stop, `isPlaying` is cleared. |
| `PronunciationPlayer.OnStatus` | src/components/PronunciationPlayer.js:94-103 | The status callback as a state transition. |
| `PronunciationPlayer.SoundChanged` | src/components/PronunciationPlayer.js:129-135 | The cleanup of the effect keyed on `sound`: when `sound` changes, the previous sound is unloaded. |
| `PronunciationPlayer.Unmount` | src/components/PronunciationPlayer.js:129-135 | The same cleanup on unmount: the held sound is unloaded if the device call succeeds. |
| `PronunciationPlayer.Player.constructor` | src/components/PronunciationPlayer.js:23-25 | The player starts with no sound and both flags false. |
| `PronunciationPlayer.Player.PlaySound` | src/components/PronunciationPlayer.js:49-109 | The new state is `Play` of the old one, given the device's answers. |
| `PronunciationPlayer.Player.StopSound` | src/components/PronunciationPlayer.js:111-120 | The new state is `Stop` of the old one. |
| `PronunciationPlayer.Player.OnPlaybackStatusUpdate` | src/components/PronunciationPlayer.js:94-103 | The new state is `OnStatus` of the old one. |
| `PronunciationPlayer.Player.OnUnmount` | src/components/PronunciationPlayer.js:129-135 | The new state is `Unmount` of the old one. |
| `PronunciationPlayer.PlayWhilePlayingOnlyStops` | src/components/PronunciationPlayer.js:50-53 | Pressing play while playing only stops. It creates and releases no sound. |
| `PronunciationPlayer.MissingSourceCreatesNothing` | src/components/PronunciationPlayer.js:67-75 | Without an audio source, loading ends and nothing else changes. |
| `PronunciationPlayer.HoldsOnePreserved` | src/components/PronunciationPlayer.js:79-90 | Play, stop and status updates keep at most one loaded sound, the one held. |
| `PronunciationPlayer.PlayReplacesSound` | src/components/PronunciationPlayer.js:84-92 | A successful play holds only the new sound, is playing, and is no longer loading. |
| `PronunciationPlayer.PlayNeverLeavesLoading` | src/components/PronunciationPlayer.js:104-108 | A press that does not only stop always ends with loading off. A creation or unload error also clears `isPlaying`. |
| `PronunciationPlayer.StatusOnlyLowers` | src/components/PronunciationPlayer.js:94-103 | Finishing clears `isPlaying`, and an error clears both flags. No status raises a flag or changes the sound. |
| `PronunciationPlayer.StopWithoutSoundIsNoOp` | src/components/PronunciationPlayer.js:112 | `stopSound` with no sound is a no-op. |
| `PronunciationPlayer.SoundChangeCleanupIsRedundant` | src/components/PronunciationPlayer.js:79-90 | When a press changes `sound`, the cleanup only unloads a sound `playSound` has already released, so it changes nothing. |
| `PronunciationPlayer.UnmountReleasesAll` | src/components/PronunciationPlayer.js:129-135 | With at most one sound held, a successful unmount leaves nothing loaded. |

## Left out

- Audio devices are not modelled: microphone permission, recording, playback, unloading and rate changes. Their outcomes are parameters of the handlers.
- Speeds are not modelled. The playback-speed effect (src/components/PronunciationPlayer.js:123-127) only passes a floating-point rate to the device and changes no state of the component.
- The effect at src/components/PronunciationPlayer.js:129-135 runs its cleanup whenever `sound` changes and on unmount. It is modelled by `SoundChanged` and `Unmount`, not as a React effect. React could run the cleanup once for the intermediate `null`; that case unloads the same previous sound. `SoundChangeCleanupIsRedundant` shows it changes nothing after a press, so `HoldsOne` is unaffected.
- The network transport is not modelled: the axios instance, timeouts, endpoints, and the interceptor's error handler, which only rethrows. A request either answers with data or fails with a `TransportError`.
- Timing is not modelled. React's asynchronous state updates and stale closures are out of scope: each handler is one atomic step on the state it reads.
- `Math.random` is replaced by an arbitrary score in [0, 100]. `new Date()` is an opaque timestamp.
- `trim`, `toLowerCase` and `\s` are modelled on ASCII only. Unicode white space and case mappings are out of scope.
- `SignUpScreen.ValidateForm`: the password length is counted in characters, while JavaScript's `.length` counts UTF-16 code units. The two differ for characters outside the Basic Multilingual Plane: `"1234😀"` has length 6 in JavaScript, passes there, and is rejected as too short here.
- `Profile.HandleUpdate`: the same character count is used for the password, with the same difference for characters outside the Basic Multilingual Plane.
- `LearningSlice.LearningStore.DeleteRecording` requires the drug to have a recording list. Without one, the source's `undefined.splice` throws a `TypeError`, and that error path is not modelled.
- `LearningSlice.TotalScore` is ghost: it sums the map's values over its key set in no fixed order. The sum is the same in every order, and the source's `Object.values` order is not modelled.
- `CategoryScreen.Values` lists keys in insertion order. JavaScript lists integer-like keys first, in ascending numeric order, so such ids would come out in a different order. The order of the categories is not otherwise stated.
- `LearningScreen.LearningSession.EvaluateRecording`: the source mutates an attempt object that the old list shares with the copy. The model replaces the element by value, so that aliasing is not captured.
- `Profile.HandleUpdate` stops at the payload. The PATCH call, and the fact that `updateUserProfile` is not a named export of the API module, are not modelled. The same goes for the alerts after the call.
- The success and failure alerts of the sign-up screen (src/screens/SignUpScreen.js:76-89) are not modelled, and neither is navigation. These are UI only.
- Redux-persist configuration (src/redux/store.js), the learning-list and community screens, App.js navigation, the presentational components and `src/components/Record.js` are not part of this model.
- The learning list and community screens fetch and display data only. Neither they nor the API module reconcile local progress with a server-side study record, so no such protocol is modelled.

## Findings

| source | as written | input that shows it | evidently intended | confidence | as-written member | corrected member |
|---|---|---|---|---|---|---|
| src/screens/LearningScreen.js:30 | `removeDrug(drug.id)` passes a bare id. The reducer destructures `{ id, from }` from a number, gets two undefined fields, and filters `finished` on `undefined`, which keeps every drug. | Any store with the drug in `current`: after REMOVE the state is unchanged. | `removeDrug({ id: drug.id, from })` with `from` naming the list the drug is in, so that the drug leaves that list | high, not executed | `LearningScreen.LearningSession.HandleRemove` | `LearningScreen.LearningSession.HandleRemoveFromList` |
| src/screens/Profile.js:72 | "Total Score" reads `learningState.totalScore`, a field the learning state does not have. It always shows 0. | `addRecording({ drugId: 1, uri: "a.m4a", score: 80 })` from the initial state: the slice's total is 80 and the screen shows 0. No screen of the app dispatches `addRecording`, so in the app as shipped the slice's total also stays 0 and the bug is latent. | the slice's `selectTotalScore` | high, not executed | `Profile.TotalScoreNeverShown` | `Profile.IntendedTotalFollowsRecordings` |
| src/screens/SignInScreen.js:41-42 | The login `catch` reads `error.response?.data?.message`. `unwrap()` throws the rejection's payload, a string with no `response`, so the alert is always "Invalid email or password". | A 403 answer with body message "Account locked": the rejection carries "Account locked" and the alert says "Invalid email or password". | show the rejection's message | medium, not executed | `SignInScreen.ServerMessageIsLost` | `SignInScreen.FailureAlertShowsRequestError` |
