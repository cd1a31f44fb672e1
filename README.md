# MSM missed-call responder: verified model

MSM is an Android app that watches incoming calls. When a call rings, is
never answered and its number is known, the app shows a notification that
opens an SMS to the caller, pre-filled with the configured message. The main
screen separately sends a WhatsApp message to a number typed in by hand.
This project models the app's decision logic in Dafny. It does not model the
Android plumbing around it.

- `call_listener.dfy` (module `CallListener`) models the `PhoneStateListener`
  in `CallForegroundService.startCallListener`.
  - The class `MissedCallListener` has the listener's three fields
    (`isIncoming`, `isCallAnswered`, `incomingNumber`).
  - Its method `OnCallStateChanged(state, number, serviceActive, storedMessage)`
    returns `Option<MissedCall>`. The source calls `showMissedCallNotification`
    at that point instead.
  - The method is proved to follow the pure function `Step`; `Run` applies
    `Step` to a sequence of callbacks.
  - The lemmas prove what the detector promises over such sequences: one
    action for a call that rings, is not answered and whose number is known;
    none for answered or outgoing calls; a full reset after every IDLE the
    listener takes in; no duplicate action; and the last non-empty number
    wins.
  - Call-state codes are `int`s with TelephonyManager's values (IDLE 0,
    RINGING 1, OFFHOOK 2). Any other code is handled as the source's `when`
    handles it: the callback takes in the number and does nothing else.
- `main_activity.dfy` (module `MainActivity`) models the helpers in
  `MainActivity`:
  - the phone normalisation, validation and intent choice of
    `sendWhatsAppMessage`, with inverses for the `jid` and the `wa.me` link
    it builds;
  - the manual-send handler and its package fallback;
  - `SimInfo.toString`;
  - the installed-app list of `populateWhatsAppSelector`;
  - the lookup that restores a saved selection;
  - the `service_active` toggle and the save-message button, as a
    `Preferences` class.
- `kotlin_text.dfy` (module `KotlinText`) models the Kotlin string functions
  the code calls: `isWhitespace`, `isDigit`, `isBlank`, `isNullOrBlank`,
  `isNullOrEmpty`, `startsWith` and `trim`.
- `wrappers.dfy` (module `Wrappers`) models Kotlin's nullable values as
  `Option`, with `GetOr` for `?:`. `Result` stands for the handlers' early
  returns.

Preferences are inputs, not storage. The listener receives the
`service_active` flag (`getBoolean(..., true)`) and the stored
`custom_sms_message` (`None` when absent) with every callback. Package
installation is a set of package names. `Uri.encode` is a function parameter
`encode`.

Four behaviours of the code are worth spelling out:

- **OFFHOOK with no prior RINGING.** It changes no flag, so `NextPhase`
  keeps the phase (CallForegroundService.kt:94-99).
- **IDLE while `service_active` is false.** It is ignored like any other
  callback, so the session stays armed with the caller's number
  (`DisabledMidCall`). A later call whose RINGING carries no number then
  reports that earlier caller (`StaleNumberAfterDisabledIdle`).
- **The fallback message.** When `custom_sms_message` is absent the listener
  uses "Hola, te devuelvo la llamada en breve.". The multi-line template is
  written to that preference by `updateUiAndServiceStatus`
  (MainActivity.kt:288-306), which is not part of this model.
- **Only WhatsApp Business installed.** `populateWhatsAppSelector` hides the
  selector when fewer than two apps are installed
  (MainActivity.kt:235-238). The manual send then addresses "com.whatsapp"
  (MainActivity.kt:130-135), which is not installed
  (`ManualSendWithoutWhatsApp`). `startActivity` would fail and the
  catch at MainActivity.kt:383-385 would show the error Toast.
  `startActivity` is not modelled.

`CallListener.ListenerScenario` is a usage example, not a property: it
feeds one listener object a missed call, an answered call and a call whose
number arrives late, and asserts the action each one returns.

## Model

| member | source | states |
|---|---|---|
| `CallListener.MissedCallListener.constructor` | app/src/main/java/com/creativem/msm/CallForegroundService.kt:72-74 | the listener starts with both flags false and no number |
| `CallListener.MissedCallListener.OnCallStateChanged` | app/src/main/java/com/creativem/msm/CallForegroundService.kt:76-117 | the new fields and the returned action are those `Step` gives for the old fields and this callback |
| `CallListener.Step` | app/src/main/java/com/creativem/msm/CallForegroundService.kt:76-117 | a callback with `service_active` false changes nothing; an action is raised iff an IDLE that is taken in ends a call that rang, was not answered and has a known number, and it carries that number and the stored or default message; an IDLE that is taken in resets the session; any other callback that is taken in stores the captured number |
| `CallListener.Run` | app/src/main/java/com/creativem/msm/CallForegroundService.kt:76-117 | a run of callbacks records one action slot per callback |
| `CallListener.DisabledIgnoresEvent` | app/src/main/java/com/creativem/msm/CallForegroundService.kt:77-79 | with `service_active` false nothing changes and nothing is raised, whatever the state and number |
| `CallListener.NumberCapture` | app/src/main/java/com/creativem/msm/CallForegroundService.kt:83-85 | on every non-IDLE callback a non-null, non-empty number replaces the stored one; otherwise the stored one is kept |
| `CallListener.RingingArms` | app/src/main/java/com/creativem/msm/CallForegroundService.kt:88-92 | RINGING sets incoming and clears answered from any state, so it re-arms a call after OFFHOOK |
| `CallListener.OffhookAnswersOnlyIncoming` | app/src/main/java/com/creativem/msm/CallForegroundService.kt:94-99 | OFFHOOK sets answered only if the call rang; without a prior RINGING no flag changes |
| `CallListener.IdleDecision` | app/src/main/java/com/creativem/msm/CallForegroundService.kt:101-110 | IDLE raises an action iff the call rang, was not answered and a number is known; the action has that number and the stored message, or "Hola, te devuelvo la llamada en breve." when none is stored |
| `CallListener.IdleResets` | app/src/main/java/com/creativem/msm/CallForegroundService.kt:112-115 | after an IDLE that is taken in, all three fields are back to false, false, null |
| `CallListener.UnknownStateOnlyCapturesNumber` | app/src/main/java/com/creativem/msm/CallForegroundService.kt:87-117 | a state code other than the three constants changes only the stored number and raises nothing |
| `CallListener.OnlyIdleRaises` | app/src/main/java/com/creativem/msm/CallForegroundService.kt:101-116 | an action is raised only by an IDLE that is taken in, and the session is then reset |
| `CallListener.StepKeepsValid` | app/src/main/java/com/creativem/msm/CallForegroundService.kt:83-116 | a stored number is never empty, answered implies incoming, and no action has an empty number |
| `CallListener.RunKeepsValid` | app/src/main/java/com/creativem/msm/CallForegroundService.kt:76-117 | every run from a valid session ends in a valid session |
| `CallListener.StepFollowsPhases` | app/src/main/java/com/creativem/msm/CallForegroundService.kt:87-117 | the flags follow the idle/ringing/answered phase machine, and an action is raised exactly at an IDLE that ends a ringing call with a known number |
| `CallListener.RingThenIdleRaisesOnce` | app/src/main/java/com/creativem/msm/CallForegroundService.kt:83-116 | RINGING(n) then IDLE raises exactly one action, with n (or the IDLE's own number), from any prior state, and ends reset |
| `CallListener.AnsweredCallRaisesNothing` | app/src/main/java/com/creativem/msm/CallForegroundService.kt:88-116 | RINGING, OFFHOOK, IDLE raises nothing and ends reset |
| `CallListener.OutgoingCallRaisesNothing` | app/src/main/java/com/creativem/msm/CallForegroundService.kt:94-116 | OFFHOOK then IDLE with no prior RINGING raises nothing |
| `CallListener.LateNumberIsUsed` | app/src/main/java/com/creativem/msm/CallForegroundService.kt:83-116 | RINGING(null), RINGING(n), IDLE raises one action with n |
| `CallListener.DisabledMidCall` | app/src/main/java/com/creativem/msm/CallForegroundService.kt:77-79 | an IDLE while the service is off raises nothing and leaves the session armed with the caller's number |
| `CallListener.StaleNumberAfterDisabledIdle` | app/src/main/java/com/creativem/msm/CallForegroundService.kt:77-116 | after such an IDLE, a later RINGING without a number followed by IDLE reports the earlier caller |
| `CallListener.ResetAfterIdle` | app/src/main/java/com/creativem/msm/CallForegroundService.kt:112-115 | any run ending with an IDLE that is taken in ends with the session reset |
| `CallListener.SecondIdleRaisesNothing` | app/src/main/java/com/creativem/msm/CallForegroundService.kt:101-116 | of two consecutive IDLEs the second never raises |
| `CallListener.QuietWithoutRinging` | app/src/main/java/com/creativem/msm/CallForegroundService.kt:88-116 | from an unarmed session, callbacks with no RINGING taken in raise nothing and leave it unarmed |
| `CallListener.NoDuplicateAction` | app/src/main/java/com/creativem/msm/CallForegroundService.kt:88-116 | between any two actions of a run there is a RINGING that was taken in, so an action is never repeated for one call |
| `CallListener.AtMostOneActionPerIdle` | app/src/main/java/com/creativem/msm/CallForegroundService.kt:101-116 | a run raises at most as many actions as it has IDLEs taken in |
| `CallListener.LastNumberWins` | app/src/main/java/com/creativem/msm/CallForegroundService.kt:83-85 | within a call, the stored number is that of the last callback that carried a non-empty one |
| `CallListener.NoNumberNoAction` | app/src/main/java/com/creativem/msm/CallForegroundService.kt:83-115 | from a session with no number, callbacks that carry none raise nothing: no number leaks from an earlier call |
| `CallListener.ActionCarriesLastNumber` | app/src/main/java/com/creativem/msm/CallForegroundService.kt:83-116 | the action that ends a call carries the last non-empty number delivered during that call |
| `KotlinText.Trim` | app/src/main/java/com/creativem/msm/MainActivity.kt:115 | `trim` yields a contiguous slice with only whitespace removed on both sides, not starting or ending with whitespace |
| `KotlinText.TrimBlank` | app/src/main/java/com/creativem/msm/MainActivity.kt:115-116 | a string is blank iff trimming leaves nothing |
| `MainActivity.IndexOfFirst` | app/src/main/java/com/creativem/msm/MainActivity.kt:218 | `indexOfFirst` returns the first matching index, or -1 exactly when nothing matches |
| `MainActivity.FormatPhone` | app/src/main/java/com/creativem/msm/MainActivity.kt:351 | the filtered phone holds only digits, each exactly as often as in the input |
| `MainActivity.FormatPhoneAppend` | app/src/main/java/com/creativem/msm/MainActivity.kt:351 | filtering keeps order: the digits of a concatenation are the concatenated digits |
| `MainActivity.FormatPhoneOfDigits` | app/src/main/java/com/creativem/msm/MainActivity.kt:351 | a digit string is left unchanged by the filter |
| `MainActivity.FormatPhoneIgnoresTrim` | app/src/main/java/com/creativem/msm/MainActivity.kt:115 | trimming the manual number does not change its digits |
| `MainActivity.FullPhone` | app/src/main/java/com/creativem/msm/MainActivity.kt:361-363 | the result ends with the input; it differs from the input exactly for a 10-digit number not starting with "57", and then it is "57" followed by the input; digits stay digits |
| `MainActivity.FullPhoneNormalises` | app/src/main/java/com/creativem/msm/MainActivity.kt:361-363 | "57" is prepended exactly for a 10-digit number not starting with "57"; the result is digits, at least 10 long, ends with the input, and normalising it again changes nothing |
| `MainActivity.Jid` | app/src/main/java/com/creativem/msm/MainActivity.kt:370 | the `jid` built as number + "@s.whatsapp.net" gives the number back when the number holds no '@' |
| `MainActivity.WaMeUri` | app/src/main/java/com/creativem/msm/MainActivity.kt:376-377 | the `https://wa.me/<number>?text=<encoded>` link gives the number and the encoded text back when the number holds no '?' |
| `MainActivity.SendWhatsAppMessage` | app/src/main/java/com/creativem/msm/MainActivity.kt:350-382 | fewer than 10 digits is rejected first, then a blank message; otherwise "com.whatsapp" and "com.whatsapp.w4b" get a direct share with the message and a `jid`, any other package gets a `wa.me` link, and both address the normalised number |
| `MainActivity.SendManualMessage` | app/src/main/java/com/creativem/msm/MainActivity.kt:114-138 | a blank number is rejected, then a blank or absent stored message, then a number with too few digits; the message check inside the send can never fail from here; success addresses the normalised number; a direct share carries the selected package and the stored message, a `wa.me` link the encoded stored message |
| `MainActivity.SelectedPackage` | app/src/main/java/com/creativem/msm/MainActivity.kt:130-135 | the selected entry's package when the selector is visible and holds one, "com.whatsapp" otherwise; a direct-share package whenever the selected entry has one |
| `MainActivity.ManualSendIsDirect` | app/src/main/java/com/creativem/msm/MainActivity.kt:130-135 | the package is the selected entry's when the selector is visible and holds one, "com.whatsapp" otherwise, so a manual send always takes the direct-share path |
| `MainActivity.InstalledApps` | app/src/main/java/com/creativem/msm/MainActivity.kt:224-231 | at most two entries, no repeated package, each entry present iff its package is installed, and WhatsApp before WhatsApp Business |
| `MainActivity.SelectorVisible` | app/src/main/java/com/creativem/msm/MainActivity.kt:235-241 | the WhatsApp selector is shown iff at least two apps are installed; for a list of the two WhatsApp entries without repeats, iff both WhatsApp and WhatsApp Business are in it |
| `MainActivity.ManualSendWithoutWhatsApp` | app/src/main/java/com/creativem/msm/MainActivity.kt:222-238 | without "com.whatsapp" installed the selector is hidden, and a manual send succeeds exactly when its number and message pass the checks, always with a direct share to "com.whatsapp", which is not installed |
| `MainActivity.SavedAppPosition` | app/src/main/java/com/creativem/msm/MainActivity.kt:244-245 | the first entry whose package is the saved one, or -1 when none is (always for no saved package) |
| `MainActivity.AppSelection` | app/src/main/java/com/creativem/msm/MainActivity.kt:244-246 | the first entry with the saved package becomes selected; with no match or no saved package the selection is untouched |
| `MainActivity.SimLabel` | app/src/main/java/com/creativem/msm/MainActivity.kt:48-54 | the label is the display name, then " - number" iff the number is non-blank, then " (carrier)" iff the carrier is non-blank and not the display name, and nothing else |
| `MainActivity.SavedSimPosition` | app/src/main/java/com/creativem/msm/MainActivity.kt:217-218 | the first SIM whose subscription id is the saved one, or -1 when none is |
| `MainActivity.SimSelection` | app/src/main/java/com/creativem/msm/MainActivity.kt:217-219 | the saved subscription's entry becomes selected; with no match the selection is untouched |
| `MainActivity.Preferences.constructor` | app/src/main/java/com/creativem/msm/MainActivity.kt:107-108 | with nothing stored, `service_active` reads as true |
| `MainActivity.Preferences.ToggleService` | app/src/main/java/com/creativem/msm/MainActivity.kt:106-109 | the toggle stores and returns the negation of the current flag (default true) and leaves the message alone |
| `MainActivity.ToggleTwice` | app/src/main/java/com/creativem/msm/MainActivity.kt:106-109 | toggling twice restores the flag |
| `MainActivity.Preferences.SaveMessage` | app/src/main/java/com/creativem/msm/MainActivity.kt:142-150 | a non-blank message is stored; a blank one is refused and nothing changes |

## Left out

- `FormatPhone`: only the ASCII digits '0'-'9' count as digits. Kotlin's `isDigit` also accepts the other Unicode decimal digits. That matters only for phone input in other scripts.
- `showMissedCallNotification` (the notification, its `smsto:` intent and `PendingIntent`), the notification channels, `startForeground`, `onTaskRemoved`, `telephonyManager.listen` and the permission checks in `CallForegroundService.kt`. These are Android calls; the model returns the action they would receive.
- The notification id `200 + number.hashCode()`. It depends on Java's `String.hashCode`; the model does not need it.
- `Uri.encode`, `Uri.parse`, `startActivity` and its caught exceptions, Toasts, logging and `finishAndRemoveTask`. These are library calls. `encode` is a parameter, and an error result stands for the Toast and the early return.
- SharedPreferences storage. Preferences are inputs to the listener, and the `Preferences` class holds only the two keys the buttons write.
- The rest of `populateWhatsAppSelector` and `populateSimSelector`: the adapters, the preference write when fewer than two entries exist, the mapping from `SubscriptionInfo`, and the permission guard. This is UI wiring.
- `WhatsAppAppInfo.toString`, which returns the display name. The spinner uses it only as a label.
- `updateUiAndServiceStatus` (which writes the default message template and starts or stops the service), the permission-request flow, battery-optimisation intents and `isServiceRunning`. This is UI and OS lifecycle code.
- `BootReceiver.kt`, which starts the service from the boot broadcast after a role check. This is platform glue.
- `CallReceiver.kt`, which is entirely commented out.
- Threading. The platform delivers callbacks one at a time, and the model treats them as a sequence.
