# KisanSahayak advisory core in Dafny

KisanSahayak is a farmer-advisory web app. A farmer completes a three-step
onboarding form (location, crop, growth stage), then sees a dashboard with the
weather, an AI-generated crop advisory that can be read aloud, and an optional
seven-day plan. An extension officer sees a separate panel.

The one piece of real policy is the offline-first cache in
`services/geminiService.ts`. Browser storage holds two entries: the last
advisory (`kisan_advisory_cache`) and the last weekly plan
(`kisan_weekly_cache`). Each request decides what to return and what to write
from three things: whether the browser is online, whether an entry is saved,
and how the remote call went.

This project models that policy and the three small state machines around it:

- `types.dfy` (module `Types`): the records and enums of `types.ts`. Optional
  fields are `Option`s.
- `gemini_service.dfy` (module `GeminiService`): storage is a class
  `AdvisoryStore` with one optional slot per key. Its methods
  `GenerateCropAdvisory`, `GenerateWeeklyPlan` and `GetCachedWeeklyPlan` are
  proved against the pure policies `AdvisoryPolicy` and `WeeklyPolicy`.
  The contracts of those policies state every case: offline or online, saved
  entry or none, remote success or failure.
- `farmer_dashboard.dfy` (module `FarmerDashboard`): class `Dashboard` holds
  the dashboard's state and its handlers. Its pure helpers are the language
  cycle, the read-aloud text, the speech locale and the alert colour.
- `onboarding.dfy` (module `Onboarding`): class `OnboardingForm` holds the
  step, the profile and the transcript. The module also has the field-update
  functions and the progress-dot rule.
- `app.dfy` (module `App`): class `AppShell` holds role and profile. Pure
  `RenderView`, `Apply` and `Run` define the screens and transitions. A
  lemma shows that using only the controls on screen, a profile exists only
  while the role is farmer.

Inputs that are not code:

- The remote model call plus the JSON parse of its text is a `RemoteOutcome`:
  `Ok(body) | EmptyText | ParseError | Threw`.
- `navigator.onLine` is an `online` parameter.
- `Date.now()` is a `now` parameter.
- The random mock weather is a `newWeather` parameter.

Storage slots hold typed records instead of JSON text. Every stored value is
`JSON.stringify` of a record this code built, so the parse-after-stringify
round trip is the identity.

Three behaviours of the code worth knowing:

- On a successful weekly fetch, the plan is returned WITHOUT `generatedAt`.
  Only the saved copy carries it. `WeeklyPlan.generatedAt` is therefore an
  `Option`, although `types.ts` declares it required.
- A fresh advisory carries no offline flag at all, rather than a false one.
  The "Service Unreachable" placeholder is not flagged either. The "No
  Connection & No Data" placeholder is flagged.
- A failed online weekly request returns no plan even when a plan is saved.

## Model

| member | source | states |
|---|---|---|
| `GeminiService.AdvisoryPolicy` | services/geminiService.ts:54-149 | Storage is written only by an online call that produced a parsed body; the slot then holds exactly the returned record, whose schema fields are the body's, whose timestamp is `now` and which has no offline flag. Offline with a saved record: that record, flagged, timestamp kept. Offline with nothing saved: the one-item, LOW, flagged "No Connection & No Data" placeholder, not saved. Online failure (empty text, parse error, throw) with a saved record: that record, flagged, alert message replaced by "Using saved data (Server Error)". Online failure with nothing saved: the two-item, LOW, unflagged "Service Unreachable" placeholder, not saved. Whenever a flagged record is served from a saved one, it keeps the saved fetch time. |
| `GeminiService.AdvisoryPolicyKeepsSaved` | services/geminiService.ts:54-149 | If the advisory slot holds only a stamped, unflagged record (or nothing), it still does after any request: the slot never comes to hold a placeholder or a flagged record. |
| `GeminiService.AdvisoryStore.GenerateCropAdvisory` | services/geminiService.ts:54-149 | The returned record and the new advisory slot are those of `AdvisoryPolicy`; the weekly slot is untouched; the slot still holds only stamped, unflagged records. |
| `GeminiService.WeeklyPolicy` | services/geminiService.ts:151-184 | Offline: the saved plan or none, nothing written. Online failure: none, whatever is saved, nothing written. Online success: the slot holds the parsed plan plus `generatedAt = now`, and the same plan is returned without `generatedAt`. |
| `GeminiService.AdvisoryStore.GenerateWeeklyPlan` | services/geminiService.ts:151-184 | The returned plan and the new weekly slot are those of `WeeklyPolicy`; the advisory slot is untouched. |
| `GeminiService.AdvisoryStore.GetCachedWeeklyPlan` | services/geminiService.ts:186-189 | Returns the saved plan or none and changes nothing. |
| `GeminiService.ReadWeeklyTwice` | services/geminiService.ts:186-189 | Two consecutive reads of the saved plan return the same value, which is the slot's content. |
| `GeminiService.Stamp` | services/geminiService.ts:126-129 | Adding the fetch time keeps every parsed field, sets the timestamp to `now` and adds no offline flag. |
| `GeminiService.MarkOffline` | services/geminiService.ts:66 | The served copy is the saved record flagged as offline data; its fetch time and every other field are the saved ones. |
| `GeminiService.MarkServerError` | services/geminiService.ts:139 | The served copy is the saved record flagged, with its alert message replaced by "Using saved data (Server Error)"; its fetch time and every other field are the saved ones. |
| `GeminiService.NoDataPlaceholder` | services/geminiService.ts:69-75 | The offline fallback is the LOW "No Connection & No Data" advisory with one action item, flagged as offline data, with no fetch time and no alert message. |
| `GeminiService.UnreachablePlaceholder` | services/geminiService.ts:142-147 | The online fallback is the LOW "Service Unreachable" advisory with two action items, unflagged, with no fetch time and no alert message. |
| `GeminiService.ServedTimestampKnown` | services/geminiService.ts:54-149 | With a slot that holds only saved records, the advisory returned has a fetch time (what the dashboard's "Last updated" line shows instead of 'Unknown', components/FarmerDashboard.tsx:221) exactly when it was just fetched or a record was saved. Only the two placeholders lack one. |
| `GeminiService.WeeklyFailureIgnoresCache` | services/geminiService.ts:174-183 | A failed online weekly request returns the same result whatever plan is saved. |
| `GeminiService.OfflineReadAfterFetch` | services/geminiService.ts:61-132 | After a successful fetch, an offline request returns the same record, flagged, with the original fetch time, and writes nothing. |
| `GeminiService.OfflineWeeklyAfterFetch` | services/geminiService.ts:156-177 | After a successful weekly fetch, an offline request returns the returned plan plus its generation time. |
| `GeminiService.AdvisoryStore.constructor` | services/geminiService.ts:48-50 | Storage starts with whatever earlier sessions left under the two keys; the advisory slot holds only a stamped, unflagged record (the only kind this code writes), which `Valid()` then keeps. |
| `FarmerDashboard.IndexOfLanguage` | components/FarmerDashboard.tsx:93-94 | Every language is found in the cycle, at the index returned. |
| `FarmerDashboard.NextLanguage` | components/FarmerDashboard.tsx:92-96 | The next language differs from the current one: English to Hindi, Hindi to Tamil, Tamil to English. |
| `FarmerDashboard.ThreeTogglesRestore` | components/FarmerDashboard.tsx:92-96 | Three presses of the language button restore the original language. |
| `FarmerDashboard.TogglesReachEveryLanguage` | components/FarmerDashboard.tsx:92-96 | At most two presses reach any language. |
| `FarmerDashboard.Join` | components/FarmerDashboard.tsx:107 | `join('. ')` of no items is empty; a join of a non-empty list begins with its first item. |
| `FarmerDashboard.JoinEndsWithLast` | components/FarmerDashboard.tsx:107 | A join of a non-empty list ends with its last item. |
| `FarmerDashboard.JoinConcat` | components/FarmerDashboard.tsx:107 | Joining two non-empty item lists equals joining each and putting one separator between. |
| `FarmerDashboard.JoinLength` | components/FarmerDashboard.tsx:107 | A join of n >= 1 items is as long as the items plus n - 1 separators. |
| `FarmerDashboard.SpeechText` | components/FarmerDashboard.tsx:107 | The read-aloud text is the title, then ". ", then the action items joined by ". " followed by ". Alert Level: ", then the alert level's name; its length is the sum of those parts. |
| `FarmerDashboard.SpeechTextWithExtraItem` | components/FarmerDashboard.tsx:107 | One more action item is read after all the others, separated from them by one ". ", before the alert level. |
| `FarmerDashboard.SpeechTextLength` | components/FarmerDashboard.tsx:107 | For n >= 1 action items, the read-aloud text is as long as the title, the items' total length, n separators ". ", ". Alert Level: " and the level name together. |
| `FarmerDashboard.SpeechLocale` | components/FarmerDashboard.tsx:111-115 | hi-IN exactly for Hindi, ta-IN exactly for Tamil, en-IN exactly for English. |
| `FarmerDashboard.AlertColorOf` | components/FarmerDashboard.tsx:131-135 | Red exactly for HIGH, amber exactly for MEDIUM, otherwise green. |
| `FarmerDashboard.BannerIffNotGreen` | components/FarmerDashboard.tsx:208 | The alert banner is shown exactly when the alert colour is not green, that is, for HIGH and MEDIUM. |
| `FarmerDashboard.BannerMessage` | components/FarmerDashboard.tsx:213 | The banner text is never empty: the alert message when present and non-empty, otherwise the default notice. |
| `FarmerDashboard.Dashboard.constructor` | components/FarmerDashboard.tsx:27-34 | On mount: no advisory, no plan, loading, English, not speaking, offline flag from the browser's status. |
| `FarmerDashboard.Dashboard.ConnectivityChanged` | components/FarmerDashboard.tsx:37-46 | The online/offline events set the offline flag and nothing else. |
| `FarmerDashboard.Dashboard.FetchAdvisory` | components/FarmerDashboard.tsx:48-59 | The advisory shown and the advisory slot follow `AdvisoryPolicy`, and loading ends. The shown plan becomes the saved plan if one exists, else stays as it was (never cleared). |
| `FarmerDashboard.Dashboard.Refresh` | components/FarmerDashboard.tsx:67-79 | Offline: weather, advisory, loading and storage unchanged. Online: the new weather is shown, then the advisory `AdvisoryPolicy` gives, and loading ends. |
| `FarmerDashboard.Dashboard.DownloadWeekly` | components/FarmerDashboard.tsx:81-90 | Offline: plan, its loading flag and storage unchanged. Online: the shown plan is the service's result even when none (hiding a plan shown before), and the weekly slot follows `WeeklyPolicy`. |
| `FarmerDashboard.Dashboard.ToggleLanguage` | components/FarmerDashboard.tsx:92-96 | The language becomes the next in the cycle; nothing else changes. |
| `FarmerDashboard.Dashboard.Speak` | components/FarmerDashboard.tsx:98-120 | No advisory: nothing. While speaking: cancel and stop. Otherwise: speak the read-aloud text in the language's locale, and mark speaking. Only the speaking flag changes. |
| `FarmerDashboard.Dashboard.SpeechEnded` | components/FarmerDashboard.tsx:117 | The end of an utterance clears the speaking flag. |
| `Onboarding.SetStepField` | components/Onboarding.tsx:26-30 | Exactly one field changes: location at step 1, crop at step 2, stage at step 3; name and land size never change. |
| `Onboarding.ApplyTranscript` | components/Onboarding.tsx:26-34 | An empty transcript leaves the profile unchanged; any other sets the current step's field. |
| `Onboarding.ProgressDots` | components/Onboarding.tsx:154-158 | Three dots; dot i (1-based) is filled exactly when step >= i. |
| `Onboarding.DotsShowStep` | components/Onboarding.tsx:154-158 | On steps 1..3 the filled dots are a prefix, and their number is the step. |
| `Onboarding.OnboardingForm.constructor` | components/Onboarding.tsx:12-21 | Step 1, English, profile {"", Maharashtra, Cotton, Sowing, 2 Acres}, no transcript. |
| `Onboarding.OnboardingForm.HandleNext` | components/Onboarding.tsx:36-40 | Clears the transcript. Steps 1 and 2 advance by one; step 3 stays and hands the current profile to the completion callback. Step stays within 1..3 and the profile is untouched. |
| `Onboarding.OnboardingForm.ReceiveTranscript` | components/Onboarding.tsx:26-34 | A new transcript is applied to the current step's field by `ApplyTranscript`; a repeat of the held text changes nothing. |
| `Onboarding.OnboardingForm.EditField` | components/Onboarding.tsx:84-142 | The current step's input or select sets that step's field only. |
| `Onboarding.OnboardingForm.SelectLanguage` | components/Onboarding.tsx:59-69 | A language button changes only the language; step and profile are untouched. |
| `App.RenderView` | App.tsx:22-75 | Landing exactly when there is no role; onboarding exactly for a farmer without profile; the dashboard of that profile exactly for a farmer with one; the officer panel exactly for the officer. |
| `App.Apply` | App.tsx:12-19 | "I am a Farmer" (line 37) and the farmer login set the farmer role, the officer login the officer role, and both logouts clear the role. Only the farmer login sets the profile, to the completed one. The dashboard's logout (line 60) returns to the initial state, and the other three actions leave the profile as it was. |
| `App.Offered` | App.tsx:36-70 | The landing buttons exist exactly when there is no role; onboarding's completion (components/Onboarding.tsx:149) exactly for a farmer without a profile; "Exit" (components/FarmerDashboard.tsx:153) exactly for a farmer with one; "Logout" (line 70) exactly for an officer. |
| `App.OfferedStepKeepsInvariant` | App.tsx:12-19 | Every action offered on screen keeps "a profile exists only for the farmer role". |
| `App.OfferedRunKeepsInvariant` | App.tsx:9-70 | Any sequence of on-screen actions keeps "a profile exists only for the farmer role". |
| `App.ReachableStatesProfileOnlyForFarmer` | App.tsx:9-70 | From the initial (no role, no profile) state, every state reached through the UI has a profile only when the role is farmer. |
| `App.ChooseFarmerLeadsToOnboarding` | App.tsx:37 | "I am a Farmer" on a reachable landing screen shows onboarding. |
| `App.AppShell.constructor` | App.tsx:9-10 | No role, no profile. |
| `App.AppShell.ChooseFarmerRole` | App.tsx:37 | Sets the farmer role and leaves the profile as it was. |
| `App.AppShell.HandleFarmerLogin` | App.tsx:12-15 | Profile becomes p and role farmer, so the dashboard of p is shown. |
| `App.AppShell.HandleOfficerLogin` | App.tsx:17-19 | Role becomes officer, profile untouched, so the officer panel is shown. |
| `App.AppShell.FarmerLogoutHandler` | App.tsx:60 | Clears both role and profile; the landing screen is shown. |
| `App.AppShell.OfficerLogoutHandler` | App.tsx:70 | Clears only the role; the landing screen is shown. |

## Left out

- The remote model client, its prompts and its response schemas
  (services/geminiService.ts:5-46, 81-121, 162-172): a foreign library call,
  represented only by the `RemoteOutcome` input. Which records the model
  produces (for example three action items, seven days) is not modelled.
- `navigator.onLine` and registering or removing the window event listeners:
  browser platform. The service's flag is the `online` parameter. The
  dashboard's listener-maintained flag is the field `isOffline`, set by
  `ConnectivityChanged`. The two are separate inputs, as in the source.
- `localStorage` and `JSON.stringify` / `JSON.parse`: replaced by typed slots.
  A failing `setItem` (storage quota) is not modelled, nor is storage edited
  by anything other than this code: `AdvisoryStore.Valid()` assumes the
  advisory slot holds only what a successful fetch wrote.
- Asynchrony: each handler runs to completion as one step. The intermediate
  `loading = true` and `weeklyLoading = true` states are not observable. So
  are overlapping fetches from a language change or refresh during a call in
  flight, and their last-writer-wins races on storage.
- The mount and language-change effects that call `fetchAdvisory`
  (components/FarmerDashboard.tsx:62-65): a caller does this by calling
  `Dashboard.FetchAdvisory` after the constructor or after `ToggleLanguage`.
- `Math.random` in `getMockWeather` and `Date.now()`: passed in as `newWeather`
  and `now`.
- Speech synthesis and speech recognition (`hooks.ts`): browser APIs.
  `Dashboard.Speak` returns the command it would issue. A recognition result
  reaches the form through `OnboardingForm.ReceiveTranscript`. The listening
  and error flags of the recognition hook are not modelled.
- Rendering: JSX, the Tailwind class strings (the alert colour is the datatype
  `AlertColor`), the weather icon, the button labels, `components/Button.tsx`
  and `components/ExtensionDashboard.tsx` (static mock figures and a chart).
- `console.*` logging and `alert()` messages: output only.
