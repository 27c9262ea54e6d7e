# Pomodoro timer client: synchronisation core in Dafny

This project models the core of an Angular client that keeps a countdown
timer's state and its settings in step with a server. The client combines
HTTP request/response calls with a WebSocket push channel. The model covers:

- the two single-value stores (`TimerStateService`, `SettingsStateService`),
  each a class with the `current` snapshot and the `published` log of every
  value its BehaviorSubject has carried;
- the synchronisation facades (`TimerFacade`, `SettingsFacade`), where every
  HTTP call is an `HttpOutcome` argument (`Ok(body) | Err`), so each method
  is one deterministic state transition;
- the WebSocket client (`WebSocketService`) as a state machine over its socket
  slot, with browser events (message, error, close, reconnect timer) as methods;
- the toast queue (`ToastService`) with its monotone id counter;
- the settings form's conversions and save/reset flags (`SettingsComponent`);
- the history statistics and labels (`HistoryComponent`);
- the `MM:SS` formatter (`TimeFormatPipe.transform`), defined from its test
  vectors because its implementation is not part of this model.

The value types of `src/app/core/models/timer.models.ts` are datatypes in
`models.dfy`. `SessionType` is the closed set focus, short break, long break.
`SessionStatus` is completed or cancelled. `startTime` is an `Option`. Each
response envelope always carries its success flag and a full state or
settings value. Numbers are unbounded `int`s. Field names that are Dafny
keywords (`type`) are spelled `kind`.

A subscription to a store is a position `c` in its `published` log. The
subscriber observes `published[c..]`: first the value current when it
subscribed, then every later value in publish order.

Three behaviours of the code are easy to misread; the model follows the code:

- The timer commands publish `response.state` for any non-null reply, whatever
  its `success` flag says. The code never reads the flag.
- `connect()` is guarded only by the socket slot. It opens a socket again
  after `disconnect()`.
- There is a single reconnect policy: one 3000 ms reconnect per close event.
  The `retry({count: 3, delay: 3000})` wrapper sits on a Subject that never
  errors, so it never acts.

## Model

| member | source | states |
|---|---|---|
| TimerStore.TimerStateService.constructor | src/app/core/state/timer.state.ts:6-19 | a fresh store holds INITIAL_STATE (idle, 1500 s, focus, 0 sessions, null start, empty history) and has published only that |
| TimerStore.TimerStateService.GetState | src/app/core/state/timer.state.ts:19-23 | a new subscription observes exactly the current value first |
| TimerStore.TimerStateService.GetCurrentState | src/app/core/state/timer.state.ts:25-27 | the current value is the most recently published one |
| TimerStore.TimerStateService.SetState | src/app/core/state/timer.state.ts:29-31 | afterwards the current value is exactly `s`; exactly one value is published; every existing subscriber's observations grow by `s` |
| TimerStore.TimerStateService.UpdateState | src/app/core/state/timer.state.ts:33-35 | publishes one value: the old snapshot with the patch's fields overwritten |
| TimerStore.TimerStateService.ResetState | src/app/core/state/timer.state.ts:37-39 | publishes INITIAL_STATE whatever came before, once |
| TimerStore.TimerStateService.IsRunning | src/app/core/state/timer.state.ts:41-43 | equals `isRunning` of getCurrentState() |
| TimerStore.TimerStateService.TimeRemaining | src/app/core/state/timer.state.ts:45-47 | equals `timeRemaining` of getCurrentState() |
| TimerStore.TimerStateService.SessionType | src/app/core/state/timer.state.ts:49-51 | equals `sessionType` of getCurrentState() |
| TimerStore.TimerStateService.SessionCount | src/app/core/state/timer.state.ts:53-55 | equals `sessionCount` of getCurrentState() |
| TimerStore.Merge | src/app/core/state/timer.state.ts:34 | the spread `{ ...state, ...partial }`: every field the patch does not name keeps its old value |
| TimerStore.MergeTakesNamedFields | src/app/core/state/timer.state.ts:33-35 | every field the patch names takes the patch's value |
| TimerStore.MergeEmptyAndFull | src/app/core/state/timer.state.ts:33-35 | an empty patch leaves the state unchanged; a patch naming every field acts as setState |
| TimerStore.MergeIdempotentAndComposes | src/app/core/state/timer.state.ts:33-35 | applying a patch twice equals applying it once; two merges in a row equal one merge of the combined patch, later fields winning |
| SettingsStore.SettingsStateService.constructor | src/app/core/state/settings.state.ts:6-16 | a fresh store holds DEFAULT_SETTINGS = 1500/300/900 |
| SettingsStore.SettingsStateService.GetState | src/app/core/state/settings.state.ts:18-20 | a new subscription observes exactly the current value first |
| SettingsStore.SettingsStateService.GetCurrentState | src/app/core/state/settings.state.ts:22-24 | the current value is the most recently published one |
| SettingsStore.SettingsStateService.SetState | src/app/core/state/settings.state.ts:26-28 | all three durations are replaced by `s`, which is published once to every subscriber |
| SettingsStore.SettingsStateService.UpdateState | src/app/core/state/settings.state.ts:30-32 | publishes the old settings with only the named durations changed |
| SettingsStore.SettingsStateService.ResetState | src/app/core/state/settings.state.ts:34-36 | restores and publishes DEFAULT_SETTINGS |
| SettingsStore.Merge | src/app/core/state/settings.state.ts:31 | the spread `{ ...settings, ...partial }`: every duration the patch does not name keeps its old value |
| SettingsStore.MergeTakesNamedFields | src/app/core/state/settings.state.ts:30-32 | each duration the patch names takes the patch's value; merging the same patch again changes nothing |
| SettingsStore.MergeEmptyAndFull | src/app/core/state/settings.state.ts:30-32 | an empty patch keeps the settings; a full patch replaces them |
| SettingsStore.MergeVectors | src/app/core/state/settings.state.spec.ts:89-111 | {focus 1800} gives 1800/300/900; {focus 1800, short 420} gives 1800/420/900 |
| SettingsStore.SubscribeThenSet | src/app/core/state/settings.state.spec.ts:39-53 | a subscriber to a fresh store then a setState observes exactly [DEFAULT_SETTINGS, s] |
| Toasts.ToastService.constructor | src/app/core/services/toast.service.ts:14-15 | the list starts empty and the counter at 0 |
| Toasts.ToastService.AddToast | src/app/core/services/toast.service.ts:33-41 | appends one toast with id = old counter at the end, leaves earlier toasts unchanged, increments the counter, schedules its expiry; ids stay strictly increasing |
| Toasts.ToastService.ShowError | src/app/core/services/toast.service.ts:21-23 | adds exactly one toast with this message and kind error |
| Toasts.ToastService.ShowSuccess | src/app/core/services/toast.service.ts:25-27 | adds exactly one toast with this message and kind success |
| Toasts.ToastService.ShowInfo | src/app/core/services/toast.service.ts:29-31 | adds exactly one toast with this message and kind info |
| Toasts.ToastService.RemoveToast | src/app/core/services/toast.service.ts:43-46 | the list becomes the old list with every toast of that id filtered out |
| Toasts.ToastService.ExpiryFires | src/app/core/services/toast.service.ts:39-40 | the oldest pending 5-second timer removes the toasts carrying its id; the counter is unchanged; every toast still shown has its expiry pending |
| Toasts.RemoveId | src/app/core/services/toast.service.ts:45 | the result holds exactly the toasts whose id differs from the removed one |
| Toasts.RemoveIdDistributes | src/app/core/services/toast.service.ts:45 | removal works piecewise over concatenation, so survivors keep their original order |
| Toasts.RemoveAbsentId | src/app/core/services/toast.service.ts:43-46 | removing an id no toast carries leaves the list unchanged |
| Toasts.RemoveIdKeepsOrder | src/app/core/services/toast.service.ts:43-46 | removal keeps the ids strictly increasing |
| Toasts.RemoveIdDropsMatches | src/app/core/services/toast.service.ts:45 | no toast left after removal carries the removed id |
| Sockets.WebSocketService.constructor | src/app/core/services/websocket.service.ts:13-15 | the slot starts empty, no socket exists, nothing pending, not torn down |
| Sockets.WebSocketService.Connect | src/app/core/services/websocket.service.ts:17-22 | with a socket in the slot nothing changes; with an empty slot exactly one socket is created and stored; no teardown check |
| Sockets.WebSocketService.OnMessage | src/app/core/services/websocket.service.ts:24-31 | a frame that parses is pushed into messages$ exactly once; one that does not is dropped; the slot is unchanged |
| Sockets.WebSocketService.OnError | src/app/core/services/websocket.service.ts:33-35 | the slot and the pending reconnects are unchanged |
| Sockets.WebSocketService.OnClose | src/app/core/services/websocket.service.ts:37-43 | the slot is emptied and exactly one reconnect is scheduled, also after teardown |
| Sockets.WebSocketService.ReconnectFires | src/app/core/services/websocket.service.ts:40-42 | one pending reconnect is consumed and connect() runs: with an empty slot exactly one new socket is created and stored, otherwise the slot and the sockets are unchanged; sockets being closed stay as they were |
| Sockets.WebSocketService.Disconnect | src/app/core/services/websocket.service.ts:52-59 | on the first call the reconnects pending then are cancelled; the socket is closed and the slot emptied; before teardown the only live socket is the one in the slot |
| Sockets.WebSocketService.OnCloseGuarded | src/app/core/services/websocket.service.ts:37-43 | the close handler with a teardown check: a torn-down service stays torn down |
| Sockets.ReconnectAfterTeardown | src/app/core/services/websocket.service.ts:37-59 | connect, disconnect, then the closed socket's close event and its timer leave a new socket in the slot of a disconnected service |
| Sockets.GuardedTeardownStaysDown | src/app/core/services/websocket.service.ts:37-59 | with the guarded handler the same events leave no socket and no pending reconnect |
| TimerSync.TimerFacade.constructor | src/app/core/services/timer.facade.ts:23-51 | the store starts at INITIAL_STATE; exactly one socket is opened, in the slot, with no reconnect pending and no message yet; no toast is shown or scheduled |
| TimerSync.TimerFacade.StatusLoaded | src/app/core/services/timer.facade.ts:33-44 | a fetched status is written with setState; a failed fetch changes nothing and shows no toast |
| TimerSync.TimerFacade.FrameReceived | src/app/core/services/timer.facade.ts:46-50 | every parseable pushed snapshot is written to the store in arrival order while the subscription lives |
| TimerSync.TimerFacade.Execute | src/app/core/services/timer.facade.ts:53-141 | a non-null reply publishes its state without consulting `success`; an error publishes nothing and shows exactly one error toast naming the operation, taking the next id and scheduling its expiry; a reply leaves the notifier entirely unchanged |
| TimerSync.TimerFacade.Start | src/app/core/services/timer.facade.ts:53-69 | as Execute, with the start message |
| TimerSync.TimerFacade.Stop | src/app/core/services/timer.facade.ts:71-87 | as Execute, with the stop message |
| TimerSync.TimerFacade.Toggle | src/app/core/services/timer.facade.ts:89-105 | as Execute, with the toggle message |
| TimerSync.TimerFacade.Reset | src/app/core/services/timer.facade.ts:107-123 | as Execute, with the reset message |
| TimerSync.TimerFacade.SetType | src/app/core/services/timer.facade.ts:125-141 | as Execute, with the change-session-type message |
| TimerSync.TimerFacade.NgOnDestroy | src/app/core/services/timer.facade.ts:27-31 | disconnects the socket service: the socket in the slot is closed and the slot emptied; the first call cancels the pending reconnects and leaves it torn down; a later call cancels nothing more |
| TimerSync.TimerFacade.CurrentState | src/app/core/services/timer.facade.ts:143-145 | reads the store's current snapshot unchanged |
| TimerSync.TimerFacade.IsRunning | src/app/core/services/timer.facade.ts:147-149 | reads the store's `isRunning` |
| TimerSync.TimerFacade.TimeRemaining | src/app/core/services/timer.facade.ts:151-153 | reads the store's `timeRemaining` |
| TimerSync.TimerFacade.SessionType | src/app/core/services/timer.facade.ts:155-157 | reads the store's `sessionType` |
| TimerSync.CommandEffect | src/app/core/services/timer.facade.ts:57-61 | a reply publishes at most one value, and one exactly when the request succeeded with a non-null body, whatever its `success` flag |
| TimerSync.FailureMessage | src/app/core/services/timer.facade.ts:62-66 | every failure text reads "Failed to ... Please try again." |
| TimerSync.FailureMessageNamesOperation | src/app/core/services/timer.facade.ts:53-141 | two commands share a failure text exactly when they are the same operation |
| TimerSync.ToggleFailureText | src/app/core/services/timer.facade.ts:99 | the toggle failure reads "Failed to toggle timer. Please try again." |
| TimerSync.BootstrapThenPush | src/app/core/services/timer.facade.ts:33-50 | an idle status fetch followed by a pushed snapshot leaves the store on the pushed snapshot, with no toast |
| TimerSync.ToggleFails | src/app/core/services/timer.facade.ts:89-105 | a failed toggle publishes nothing and shows exactly one toggle-specific error toast |
| SettingsSync.SettingsFacade.constructor | src/app/core/services/settings.facade.ts:19-21 | the facade starts with a store at DEFAULT_SETTINGS |
| SettingsSync.SettingsFacade.LoadSettings | src/app/core/services/settings.facade.ts:28-40 | fetched settings are written with setState; a failed fetch leaves the store untouched |
| SettingsSync.SettingsFacade.UpdateSettings | src/app/core/services/settings.facade.ts:42-66 | yields one boolean, true iff the reply is success:true, and only then publishes its settings; success:false and errors leave the store untouched |
| SettingsSync.SettingsFacade.ResetSettings | src/app/core/services/settings.facade.ts:68-84 | publishes the reply's settings only when `success` is true; a false reply or an error changes nothing |
| SettingsSync.SettingsFacade.CurrentSettings | src/app/core/services/settings.facade.ts:86-88 | returns the store's current (last published) value |
| SettingsSync.RejectedSaveKeepsSettings | src/app/core/services/settings.facade.spec.ts:163-176 | after a load, a success:false save yields false and the loaded settings stay current |
| SettingsForm.SecondsToMinutes | src/app/features/settings/settings.component.ts:68-70 | the result is the floor of seconds/60: r*60 <= s < r*60 + 60 |
| SettingsForm.MinutesToSeconds | src/app/features/settings/settings.component.ts:72-74 | whole minutes give a multiple of 60 that converts back to the same minutes |
| SettingsForm.MinutesRoundDown | src/app/features/settings/settings.component.ts:68-74 | seconds to minutes and back loses only the leftover seconds, nothing for multiples of 60 |
| SettingsForm.ConversionVectors | src/app/features/settings/settings.component.spec.ts:208-235 | 1500→25, 300→5, 900→15, 90→1, 150→2, 59→0, 0→0; 25→1500, 5→300, 15→900, 0→0 |
| SettingsForm.SettingsComponent.constructor | src/app/features/settings/settings.component.ts:23-29 | both flags start false; the form starts at 1500/300/900 |
| SettingsForm.SettingsComponent.NgOnInit | src/app/features/settings/settings.component.ts:31-37 | subscribing copies the current settings into the form at once |
| SettingsForm.SettingsComponent.SettingsEmitted | src/app/features/settings/settings.component.ts:34-36 | each emission of a value the store has published replaces the form with an equal value |
| SettingsForm.SettingsComponent.NgOnDestroy | src/app/features/settings/settings.component.ts:39-42 | the settings subscription ends |
| SettingsForm.SettingsComponent.OnFocusChange | src/app/features/settings/settings.component.ts:76-78 | only the focus duration changes, to minutes*60 |
| SettingsForm.SettingsComponent.OnShortBreakChange | src/app/features/settings/settings.component.ts:80-82 | only the short-break duration changes, to minutes*60 |
| SettingsForm.SettingsComponent.OnLongBreakChange | src/app/features/settings/settings.component.ts:84-86 | only the long-break duration changes, to minutes*60 |
| SettingsForm.SettingsComponent.OnSave | src/app/features/settings/settings.component.ts:44-60 | saveSuccess holds exactly when the reply is success:true and saveError exactly otherwise; the store publishes the reply's settings only then, and the form takes them while subscribed |
| SettingsForm.SettingsComponent.OnReset | src/app/features/settings/settings.component.ts:62-66 | clears both flags; the store publishes the reply's settings only on success:true |
| History.Filter | src/app/features/history/history.component.ts:39-41 | keeps exactly the entries of the given type |
| History.CalculateStats | src/app/features/history/history.component.ts:36-46 | totalSessions is the history's length and equals the sum of the three per-type counts; an empty history gives all zeros |
| History.StatsPartition | src/app/features/history/history.component.ts:38-41 | focus + short + long counts = total, since every entry has one of the three types |
| History.FilterAppend | src/app/features/history/history.component.ts:39-44 | filtering a history extended by one entry extends the filtered list by that entry exactly when it matches |
| History.StatsAppend | src/app/features/history/history.component.ts:36-46 | appending an entry adds one to the total and to its type's count, and its duration to the focus time only for focus entries |
| History.SumDurations | src/app/features/history/history.component.ts:42-44 | the `reduce` sum: with non-negative durations the total is non-negative and at least every single duration |
| History.FocusTimeNonNegative | src/app/features/history/history.component.ts:42-44 | with non-negative durations, total focus time is never negative |
| History.FormatDuration | src/app/features/history/history.component.ts:48-51 | the text ends in " min"; its number m satisfies m*60 <= s < m*60 + 60 and is spelled in shortest form (no leading zero, no "-0") |
| History.SessionTypeLabel | src/app/features/history/history.component.ts:70-77 | the body is the source's lookup table; every label is non-empty (SessionTypeLabelInjective shows they tell the types apart) |
| History.SessionTypeLabelInjective | src/app/features/history/history.component.ts:70-77 | two types share a label exactly when they are equal |
| Decimal.NatToString | src/app/features/history/history.component.ts:50 | decimal digits only, at least one; a leading '0' exactly for zero; one digit exactly below 10 |
| Decimal.IntToString | src/app/features/history/history.component.ts:50 | the `${minutes}` spelling: a leading '-' exactly for negatives, a leading '0' exactly for zero, never "-0…" |
| Decimal.ParseIntToString | src/app/features/history/history.component.ts:50 | reading the spelled number back gives the number |
| TimeFormat.Pad2 | src/app/shared/pipes/time-format.pipe.spec.ts:22-25 | at least two digits, exactly two below 100, and parsing gives the number back |
| TimeFormat.FormatTime | src/app/shared/pipes/time-format.pipe.spec.ts:14-25 | the output is a minutes field of at least two digits, ":", and a two-digit seconds field below 60 |
| TimeFormat.FormatTimeRoundTrip | src/app/shared/pipes/time-format.pipe.spec.ts:14-25 | reading the two fields back gives the input seconds |
| TimeFormat.FormatTimeInjective | src/app/shared/pipes/time-format.pipe.spec.ts:14-25 | different second counts never render alike |
| TimeFormat.FormatTimeDigits | src/app/shared/pipes/time-format.pipe.spec.ts:14-25 | below 100 minutes the output is (s div 60) as two digits, ":", then (s mod 60) as two digits |
| TimeFormat.FormatTimeVectors | src/app/shared/pipes/time-format.pipe.spec.ts:14-20 | 0→"00:00", 59→"00:59", 60→"01:00", 125→"02:05", 1500→"25:00" |
| TimeFormat.FormatTimePadsSingleDigits | src/app/shared/pipes/time-format.pipe.spec.ts:22-25 | 5→"00:05", 65→"01:05" |

## Findings

| source | as written | input that shows it | evidently intended | confidence | as-written member | corrected member |
|---|---|---|---|---|---|---|
| src/app/core/services/websocket.service.ts:37-59 | `disconnect()` both signals and completes `destroy$`. `takeUntil` ends only on a value, so a timer scheduled after that is never cancelled. The socket that `disconnect()` closes still fires its `onclose`, which schedules `connect()` after 3000 ms. | connect(); disconnect(); the closed socket's close event; its timer fires: a new socket is opened on the torn-down service | once disconnected, no reconnect is scheduled and no new socket is opened | medium, not executed | Sockets.WebSocketService.OnClose, Sockets.ReconnectAfterTeardown | Sockets.WebSocketService.OnCloseGuarded, Sockets.GuardedTeardownStaysDown |

In the browser the close event always reaches the close handler. The model
keeps both handlers: `OnClose` as the source has it, and `OnCloseGuarded` with
the teardown check. `OnCloseGuarded` preserves `TornDown()`: destroyed, no
pending reconnect, an empty slot. `Disconnect` establishes `TornDown()` on its
first call.

## Left out

- The HTTP gateways (`timer-api.service.ts`, `settings-api.service.ts`) are not part of this model. Each request appears only as its `HttpOutcome`. A request and its reply are one atomic step, so a reply that lands after an interleaved event is not modelled.
- `JSON.parse` is represented by an `Option<TimerState>` frame. `None` stands for a frame that fails to parse.
- The rxjs `retry`/`share` wrapper on the message stream is inert and is not modelled. The WebSocket object itself is reduced to numbered sockets and events. The source has no open handler, so connecting and open are not told apart.
- Sockets.WebSocketService.Connect: the Observable that `connect()` returns (websocket.service.ts:19 and 45-49) is not modelled. `Connect` returns only whether it created a socket. Subscribers see the pushed values through `messages` and the facade's `FrameReceived`.
- Wall-clock delays are not modelled as time. The 3000 ms reconnect is the `ReconnectFires` event. The 5000 ms toast expiry is the `ExpiryFires` event, with timers firing oldest first.
- The 3000 ms timers that clear `saveSuccess`/`saveError` are not modelled. They are UI timing with no effect on the synchronised state.
- `console.error` logging, Angular dependency injection and singleton lifetimes are not modelled. The timer facade creates its store, socket service and notifier in its constructor. The settings form receives its facade.
- Teardown through `takeUntil(destroy$)` in `SettingsFacade` and the timer facade's own `destroy$` are not modelled. With atomic requests they have no observable effect. `SettingsFacade.ngOnDestroy` is therefore not modelled.
- TimerStore.TimerStateService.UpdateState: a `Partial` whose key is present with the value `undefined` would overwrite that field with `undefined`. The patch datatype only represents absent or present keys.
- SettingsForm.SettingsComponent.SettingsEmitted: the emitted value must be one the store has published, but the model does not enforce that emissions arrive in publish order. Store publications that do not go through `OnSave`/`OnReset` reach the form only when this event is invoked. For example, the initial load resolving. The model does not tie the form to the store automatically.
- SettingsForm.SettingsComponent.OnSave: the payload sent (`localSettings`) is not modelled. The store takes the server's reply, as in the source.
- SettingsForm.MinutesToSeconds: only whole minutes are modelled. Fractional minutes (1.5 → 90) are floating point.
- Numbers are unbounded integers. JavaScript's double precision and exponent notation for very large numbers are not modelled.
- `time-format.pipe.ts` is not part of this model. TimeFormat.FormatTime is defined from its test vectors. At 100 minutes or more the minutes field simply grows, which no vector covers.
- `formatTime`/`formatDate` (locale date formatting), `getSessionTypeColor` and `trackByIndex` are not modelled. They are presentation only.
- Presentational components, routing, build configuration and browser end-to-end tests are not modelled.
