# Verification of the gentoo-zh verify bot

A Dafny 4.11 model of the parts of the bot in which several things race, or in which an order, an
encoding or a bookkeeping rule has to be right for every input. `dafny verify dfyconfig.toml` checks
all of it. Nothing in the model is executed.

## What is modelled

**Verification settlement** (`internal/verify`). `Settlement.dfy` holds the state behind the service
mutex and one function per section that runs under it. `SettlementRuns.dfy` interleaves those
sections with Telegram calls in flight, timer callbacks, administrators, recoveries, group removal
and shutdown, and proves what every step keeps. The files `SettlementTheorems`, `SettlementTickets`,
`SettlementGrowth`, `SettlementStrikes`, `SettlementExpiry`, `SettlementScreens` and
`SettlementAnswers` state what that gives over whole runs, and `SettlementLaws` what single sections
decide; `SettlementExamples` holds runs, from the start of the service, in which a promise fails.
`VerifyService.dfy` is the service as a class over heap objects, each method proved against its
function, and `VerifyBot.dfy` that service at work: every section is one more step of the run the
objects stand in, so what is proved over runs holds of them. `SettlementCases.dfy` has the case
lemmas the class uses. `Persistence.dfy` is the stored form of a pending, `Quiz.dfy` the shuffling
of a question, and `Strikes.dfy` the pruned failure table against the full history.

**Settings and registration** (`internal/store/settings.go`, `registration.go`). `Settings.dfy` has
sparse overrides over a baseline and their compaction, `SettingsCheck.dfy` the checks on them as the
program makes them; `Registrations.dfy` the registration record and every change made to it,
`RegistrationLaws.dfy` what each change promises, `RegistrationRules.dfy` their validity,
`RegistrationDraft.dfy` the loops that edit the record in place. `SettingsStore.dfy` is the
compare-and-swap store, `SettingsLaws.dfy` says when it accepts a change, `SettingsClients.dfy` and
`SettingsGlobals.dfy` are its read-modify-commit clients, `RegistrationRuns.dfy` the threads that
register and leave groups, and `TransitionLocks.dfy` the reference-counted lock they hold.

**Versions and selections** (`internal/lookup`). `Lexicographic.dfy`, `VersionOrder.dfy`,
`DottedVersions.dfy`, `Tiers.dfy` and `Channels.dfy`: the version comparison as an order, what it
comes to for dotted numbers, and what is chosen by it. The order is the program's own
simplification; agreement with section 3.3 of the Package Manager Specification is not claimed.

**Feed, panel, forwarder, rate limit.** `Feed.dfy`, `Callback.dfy`, `Forwarder.dfy`, `QueryRate.dfy`
and, for the exact condition of the limit, `QueryCrowds.dfy`. `Options.dfy` and `Sets.dfy` are shared.

Times are integers (nanoseconds, in registration and stored records whole seconds). Telegram, the
disk, the clock and random choices are inputs that may be anything; nonces are assumed fresh among the
challenges of one applicant. A pending is an identity, so two pendings that look alike stay apart.

Where the code does not keep what it or its comments promise, the model follows the code and says
exactly when the promise holds:

- A button left over from an earlier verification is meant never to settle a later one
  (`service.go:1957-1960`). Its nonce is checked when it is pressed and not when the claim is made
  (`SettlementGrowth.ButtonSettlesWhatWasChecked`, `SettlementExamples.ButtonCanSettleAnother`).
- Switching verification off protects only what the map still holds; a settlement in flight whose
  pending recovery has dropped is still struck (`SettlementStrikes.DisableProtectsWhatTheMapHolds`,
  `SettlementExamples.SwitchedOffAndStillStruck`).
- Removing a group is meant to cancel every verification of it (`service.go:510`). A join request that
  was accepted before, and is still being looked at, starts one afterwards
  (`SettlementExamples.ArrivalOutlivesItsGroup`); it is never struck while the group stays away
  (`SettlementStrikes.StrikeExactlyWhen`).
- A channel reading that fails is meant to clear the applicant (`service.go:2728-2729`). It does when it
  is there by the time the failure is weighed, before the mutex is taken to record it
  (`SettlementStrikes.StrikeExactlyWhen`).
- A registration change that comes out as it was read is meant to be recognised as no change
  (`settings.go:662-664`). It is when the record is handed back as read
  (`SettingsStore.AsReadIsUnchanged`); a draft copied from it, as every change starts with
  (`registration.go:859-866`), hands over nil for an empty list and is a new revision unless no list
  is empty (`SettingsStore.FreshCopyIsUnchangedExactlyWhen`, `SettingsStore.NothingChangedAndStillNew`).
- A group's revisions start over when it is unregistered and registered again. What was read before is
  safe to write on if and only if the group is configured or it was read at its first revision
  (`SettingsClients.ReadingIsSafeExactlyWhen`).
- A group that config.json lists cannot be registered, but an enrollment payload sent there is accepted
  (`registration.go:313-350`): with the bot an administrator the validation before the commit refuses it,
  and it refuses nothing else (`RegistrationRules.ChangeValidExactlyWhen`); otherwise the capability is
  spent and the group put down as pending.
- A timeout an administrator sets in the panel is meant to apply to members waiting inside as well
  (`service.go:624-626`). One that repeats the baseline is dropped when it is stored, and they get the
  default again (`Settings.GateWindowSurvivesExactlyWhen`, `Settings.ChosenWindowIsForgotten`).
- A pre-release suffix behind a revision sorts later (`VersionOrder.PreReleaseIsEarlierExactlyWhen`,
  `VersionOrder.RevisedAlphaIsNotEarlier`).
- The rate limit holds for all requests as long as never more than ten thousand users are let through
  within a minute; then everyone is forgotten, and exactly users who had reached the limit exceed it
  (`QueryCrowds.AtMostLimitPerWindow`, `QueryCrowds.ExceededExactlyWhen`, `QueryCrowds.LimitCanBeExceeded`).

## Model

| member | source | states |
|---|---|---|
| `SettlementTheorems.SettlementIsExclusive` | `internal/verify/service.go:2096-2146` | In every run: a claimed pending in the map is exactly the one in `terminal`, an unclaimed one is exactly the one the map holds, no pending has two settlements in flight, every terminal marker has a settlement that will release it, and both queue caps hold. |
| `SettlementTheorems.OldActionSparesNewPending` | `internal/verify/service.go:2407-2436` | An action belonging to one pending (delivery, message, retry, abandonment, strike, finish, recovery drop, adoption) never changes another pending, its map entry or its terminal marker, in particular not a newer one on the same key. |
| `SettlementAnswers.AnswerSettles` | `internal/verify/service.go:1903-1919` | An answer to the challenge that waits starts one settlement, an admission if it was right and a rejection for the wrong answer if it was not; to any other challenge, or during shutdown, it changes nothing. |
| `SettlementAnswers.AdminSettles` | `internal/verify/service.go:1957-2010` | An administrator admits or bans whoever waits under the key, and changes nothing when nobody does. |
| `SettlementAnswers.ExpirySettles` | `internal/verify/state.go:659-711` | An expiry starts one settlement of the challenge it was armed for: an admission when the right answer had been given, else a rejection for the cap or for the reason it was armed with; any other expiry changes nothing. |
| `SettlementAnswers.LoadPutsBack` | `internal/verify/state.go:560-573` | Reading a challenge back is that in every state, and touches no settlement. |
| `SettlementAnswers.SettlementEnds` | `internal/verify/service.go:2769-2777` | A finished or abandoned settlement is no longer under way, its pending is in neither map, and every other settlement, entry and marker stays. |
| `SettlementAnswers.FailureEnds` | `internal/verify/service.go:2407-2436` | A settlement that failed is no longer under way and leaves no marker behind. |
| `SettlementAnswers.GroupsFollowTheSettings` | `internal/verify/state.go:343-354` | Which groups count as the bot's changes with the settings alone, one group at a time. |
| `SettlementAnswers.AdmittedForACause` | `internal/verify/service.go:2452-2470` | In every run: whoever is being admitted gave the right answer to their own challenge, was approved by an administrator, or had passed before a restart. |
| `SettlementAnswers.BlamedForACause` | `internal/verify/service.go:1903-1919` | In every run: nobody is rejected or struck for a wrong answer without one to their own challenge having been claimed. |
| `SettlementAnswers.BannedForACause` | `internal/verify/service.go:1979-2010` | In every run: nobody is banned unless an administrator asked for it. |
| `SettlementRuns.StepKeepsInv` | `internal/verify/service.go:453-551` | Every lock section, from any state that satisfies it, keeps the invariant of maps, timers, nonces, flights, strikes, callbacks and caps; an arrival after its group was removed, group removal and switching off included. |
| `SettlementGrowth.AtMostNineRetries` | `internal/verify/service.go:2407-2436` | In any run one pending is reopened at most nine times, however often its settlement fails. |
| `SettlementGrowth.FailedSettlementComesBackOrGoes` | `internal/verify/service.go:2407-2436` | A failed settlement hands its pending back, unclaimed and counted, exactly when it is still the one in the map and an attempt is left; otherwise it is out of the map. |
| `SettlementGrowth.RunGrows` | `internal/verify/kernel.go:803-852` | Along a run the key and nonce of a pending never change, and its epoch, tries, spent replies, failures and flags only grow. |
| `SettlementGrowth.ReapplyingKeepsWhatWasSpent` | `internal/verify/service.go:1005-1016` | However often an applicant applies again, the challenge in the map has at least the attempts and free replies spent before. |
| `SettlementGrowth.FreeRepliesAreGrantedOnce` | `internal/verify/kernel.go:803-836` | Each one-shot free reply is granted at most once per applicant until their verification leaves the map, and not at all once spent. |
| `SettlementGrowth.NothingComesBack` | `internal/verify/service.go:981-1023` | A pending that left the map never returns to it. |
| `SettlementGrowth.ButtonSettlesWhatWasChecked` | `internal/verify/service.go:1944-2010` | An administrator's claim settles the pending whose nonce was checked if and only if no other challenge of the applicant was started between check and claim. |
| `SettlementGrowth.ReadingMarksWhoeverWaits` | `internal/verify/service.go:2065-2071` | A channel reading is written to the pending waiting by then and no other, which is the one it was made for if and only if no other challenge was started in between. |
| `SettlementLaws.StartsExactlyWhen` | `internal/verify/service.go:949-1016` | An arrival is turned away exactly while a settlement of it is under way, when two thousand wait or five hundred of its group and it is not one of them, or when it came less than half a minute ago and is still untried; then nothing changes. |
| `SettlementLaws.StartedIs` | `internal/verify/service.go:1000-1023` | A started challenge replaces the earlier one, which is done, inherits its attempts and free replies, and has a minute to be delivered. |
| `SettlementLaws.RestoresExactlyWhen` | `internal/verify/state.go:560-573` | A stored challenge is put back if and only if there is room in the map and in its group, armed anew and otherwise as it was read. |
| `SettlementLaws.DeliveryDecidesTheReason` | `internal/verify/service.go:1034-1056` | The answer window starts with the delivery, and ends in a timeout only if the question was delivered. |
| `SettlementLaws.AttemptsRunOut` | `internal/verify/kernel.go:839-852` | A failed reply counts against the challenge it was given to alone, and leaves three attempts less those used, never fewer than none. |
| `SettlementLaws.EachTryCosts` | `internal/verify/kernel.go:839-852` | Two charged in a row: the second leaves one attempt fewer, until none is left. |
| `SettlementLaws.StrikesExactly` | `internal/verify/service.go:2727-2739` | The applicant is at fault for a wrong answer and for a timeout that Telegram confirmed, and for nothing else. |
| `SettlementLaws.Durations` | `internal/verify/service.go:1025-1027` | The windows by the clock. |
| `SettlementExamples.ButtonCanSettleAnother` | `internal/verify/service.go:1957-1978` | A run from the start in which the first challenge is posted and shown, the applicant applies again, and the approval asked for on its button settles the second, of which nothing is on screen. |
| `SettlementExamples.SwitchedOffAndStillStruck` | `internal/verify/service.go:453-495` | A run from the start in which a failure is recorded although verification was switched off for the group before. |
| `SettlementExamples.ArrivalOutlivesItsGroup` | `internal/verify/service.go:1175-1199` | A run from the start in which a challenge is put in the map for a group that has been unregistered and removed. |
| `SettlementStrikes.StrikeExactlyWhen` | `internal/verify/service.go:2727-2739` | A settlement adds a strike if and only if, when it was weighed, reason and outcome were the applicant's fault and the channel gate readable, and, when it is recorded, the pending is not removed and the group still one; whatever happens in between. |
| `SettlementStrikes.AtMostOneStrike` | `internal/verify/state.go:343-354` | Over any run no pending has two strikes, and every strike is a wrong answer or a confirmed timeout. |
| `SettlementStrikes.WithdrawnIsNeverStruck` | `internal/verify/service.go:511-551` | After a group is removed nobody it held or was settling is struck in any continuation; after it is switched off nobody its map entry held is. |
| `SettlementStrikes.DisableProtectsWhatTheMapHolds` | `internal/verify/service.go:453-495` | A settlement that would strike, weighed already or not, does so after switching off if and only if its pending was no longer in the map. |
| `SettlementExpiry.OnlyTheTimerInForceActs` | `internal/verify/state.go:659-711` | Of all timers ever armed, only the last one of the live pending in the map passes the first check, defers or claims anything; it does claim unless the service is shutting down. |
| `SettlementExpiry.InForceIsLast` | `internal/verify/state.go:634-655` | Every other timer of that pending carries a smaller epoch. |
| `SettlementExpiry.DeferralEnds` | `internal/verify/state.go:634-655` | In every run an unclaimed pending has a timer in force, due at the latest 48 hours after its first deferral (or 1 ns after arming) until the cap is reached. |
| `SettlementExpiry.FiringAtTheCap` | `internal/verify/state.go:726-741` | An expiry in force is remembered as capped if and only if the cap has passed or was taken up before; nothing but that flag changes. |
| `SettlementExpiry.CappedExpiryIsStrikeFree` | `internal/verify/state.go:659-711` | A capped expiry claims with the strike-free cap reason, or retries the approval of an applicant who passed. |
| `SettlementExpiry.CapNeverStrikes` | `internal/verify/state.go:659-711` | Over runs: the settlement that an expiry firing once the cap has passed, or was taken up, leads to never adds a strike, whatever happens between firing, claim and settlement. |
| `SettlementExpiry.PassedIsNeverTimedOut` | `internal/verify/service.go:2460-2466` | Whatever happens after an applicant passed, an expiry claiming them approves and never declines. |
| `SettlementScreens.PostedIsDelivered` | `internal/verify/service.go:1122-1171` | Whatever a delivery posts, in any mode and however the private message ended, it reports as delivered. |
| `SettlementScreens.DeliveredExactlyWhen` | `internal/verify/service.go:1122-1171` | The group is asked unless the mode is private and the private message not turned down; delivered means that a message that was tried is there, and only an applicant who is gone ends the challenge. |
| `SettlementScreens.DeliverPending` | `internal/verify/service.go:1122-1171` | The switch over the modes, field by field, gives that report. |
| `SettlementScreens.OnScreenIsDelivered` | `internal/verify/service.go:1034-1056` | In every run whose deliveries report what they posted, a pending with a message on screen is marked delivered. |
| `Persistence.LoadUndoesSave` | `internal/verify/state.go:443-527` | A stored pending comes back with every grading and settlement field, whole-second times and unclaimed; the screen comes back if and only if a message id implies delivered, a deferral if and only if it did not start in the first second of 1970. |
| `Persistence.ReachablePendingsComeBack` | `internal/verify/state.go:494-527` | Any pending of any run, unless its quiz cannot be won, comes back with its case, its screen and, to the second, its deadline and deferral, and may be restored. |
| `Persistence.LoadedIsReadBack` | `internal/verify/state.go:516-527` | Whatever a record says, the pending built from it marks a message on screen as delivered. |
| `Persistence.LostExactlyWhen` | `internal/verify/state.go:503-511` | A saved pending is not restored if and only if it is a quiz with fewer than two options or an answer that is none of them. |
| `Persistence.OldRecordsAreQuizzes` | `internal/verify/state.go:503-511` | A record that names no mode is a quiz; a record is restored if and only if it is a kernel challenge or a quiz that can be won. |
| `Persistence.SaveUndoesLoad` | `internal/verify/state.go:443-527` | Reading and writing a record gives the same record if and only if it names its mode and does not repeat what its message ids say. |
| `Persistence.SavedTwiceIsSavedOnce` | `internal/verify/state.go:443-527` | So a record this program wrote is written back unchanged. |
| `Persistence.RestoredStrikesExactlyWhen` | `internal/verify/state.go:528-569` | A restored window can strike if and only if the question was delivered, time was left, no long outage ate into it, and the deferral cap had not passed. |
| `Persistence.RestoredInTime` | `internal/verify/state.go:528-569` | The timer of a restored pending carries the cap reason exactly from the cap on, is then due within the grace period, and before stays within the cap and, without a deferral, never before the stored deadline. |
| `Persistence.RestoredWindow` | `internal/verify/state.go:528-569` | The restored window by the numbers: a minute past the cap or after a lapse, at least a day after a long outage, else what was left and at least a second; nothing of the pending changes but its times and the cap flag. |
| `Persistence.RestoringIsAStep` | `internal/verify/state.go:494-569` | Where its key is free and its nonce fresh, a pending read back enters the run, with a window that is never one for a wrong answer, unless it had failed ten times. |
| `Quiz.ShuffledQuestion` | `internal/verify/service.go:2842-2859` | Whatever the picks, the options are rearranged without loss or repetition and the returned index is the new place of the right option. |
| `Quiz.ShuffledIsWinnable` | `internal/verify/service.go:2842-2859` | A shuffled question has the same options, a correct index in range and the same answer text, so it survives a restart. |
| `VerifyService.Service.StartPending` | `internal/verify/service.go:981-1023` | The in-place section equals the protocol's function on the abstract state: blocked, duplicate, replacing with inheritance, or added within the caps. |
| `VerifyService.Service.FinishChallenge` | `internal/verify/service.go:1034-1056` | Only the current unclaimed pending takes the delivery, with a fresh window and the reason its delivery gives. |
| `VerifyService.Service.CompleteDM` | `internal/verify/service.go:1501-1563` | A finished direct message updates only the pending it was sent for, with the promotion and window rules of the source. |
| `VerifyService.Service.Consume` | `internal/verify/service.go:2111-2125` | Claims exactly the live pending of the key and marks it terminal. |
| `VerifyService.Service.ClaimNonce` | `internal/verify/service.go:2250-2268` | As above, only for the nonce, not during shutdown, stamping the failure time. |
| `VerifyService.Service.ClaimExpiry` | `internal/verify/service.go:2128-2146` | As above, only for the nonce and epoch of the timer. |
| `VerifyService.Service.Reopen` | `internal/verify/service.go:2407-2436` | Lets go, gives up or hands back exactly as the protocol's function says. |
| `VerifyService.Service.FinishTerminal` | `internal/verify/service.go:2769-2777` | Removes its own map entry and its own marker, no others. |
| `VerifyService.Service.Discard` | `internal/verify/state.go:1018-1030` | Claims and removes its own map entry and releases its own marker. |
| `VerifyService.Service.MarkPassing` | `internal/verify/service.go:2460-2466` | Marks the pending the map holds, and no other. |
| `VerifyService.Service.AdoptAsHeld` | `internal/verify/service.go:2380-2387` | Turns the pending the map holds into a muted member's. |
| `VerifyService.Service.Renotified` | `internal/verify/state.go:1052-1058` | The re-sent challenge is recorded only for the current unclaimed pending. |
| `VerifyService.Service.RecordStrike` | `internal/verify/state.go:343-354` | One strike with the claim time, or none for a removed pending or group. |
| `VerifyService.Service.ArmExpiry` | `internal/verify/state.go:634-655` | A new epoch and timer; non-positive delays become the strike-free grace period, delays past the cap are cut. |
| `VerifyService.Service.DeferralCapState` | `internal/verify/state.go:726-741` | Stale, or valid with the cap flag taken up once it has passed. |
| `VerifyService.Service.DeferExpiry` | `internal/verify/state.go:748-782` | Postpones only what the timer in force belongs to, keeping the first deferral and stopping at the cap. |
| `VerifyService.Service.Recover` | `internal/verify/state.go:934-994` | Every live pending, and only those, gets one fresh strike-free window or the capped retry, whatever the order of the loop. |
| `VerifyService.Service.CancelGroup` | `internal/verify/service.go:453-495` | Withdraws exactly the pendings the map holds for the group. |
| `VerifyService.Service.RemoveGroup` | `internal/verify/service.go:511-551` | Withdraws what the map holds and what is being settled, and drops the group's markers. |
| `VerifyService.Service.MarkChannel` | `internal/verify/service.go:2065-2071` | Sets the channel flag of the pending the map holds. |
| `VerifyService.Service.MarkFree` | `internal/verify/kernel.go:803-836` | Grants a free reply exactly when the live pending of that nonce has not spent it. |
| `VerifyService.Service.RecordTry` | `internal/verify/kernel.go:839-852` | Charges one try to the live pending of that nonce and returns what is left. |
| `VerifyService.Service.BeginFallback` | `internal/verify/kernel.go:783-800` | Switches to the fallback question once, with a strike-free delivery window. |
| `VerifyBot.Bot.Take` | `internal/verify/service.go:453-551` | A section that has run is one more step of the run the objects stand in. |
| `VerifyBot.Bot.ObjectsAreExclusive` | `internal/verify/service.go:2096-2146` | At every moment of the service at work: a claimed pending object in the map is exactly the one in `terminal`, an unclaimed one exactly the one in the map, and the cap holds. |
| `VerifyBot.Bot.Arrive` | `internal/verify/service.go:981-1023` | Starting a challenge on the objects is the arrival step of a run. |
| `VerifyBot.Bot.Answer` | `internal/verify/service.go:2250-2268` | Claiming for an answer on the objects is the answer step of a run, so what `SettlementAnswers` says of a right and of a wrong answer holds of them. |
| `VerifyBot.Bot.Expire` | `internal/verify/service.go:2128-2146` | Claiming for an expiry on the objects is the expiry step of a run. |
| `VerifyBot.Bot.Retry` | `internal/verify/service.go:2407-2436` | Reopening on the objects is the retry step of a run. |
| `VerifyBot.Bot.Weigh` | `internal/verify/service.go:2727-2733` | Reading reason, outcome and channel flag of the object, without the mutex, is the weighing step of a run. |
| `VerifyBot.Bot.PutStrike` | `internal/verify/service.go:2734-2739` | Recording what was weighed on the objects is the strike step of a run. |
| `VerifyBot.Bot.RecoverAll` | `internal/verify/state.go:934-994` | Recovery on the objects is the recovery step of a run. |
| `VerifyBot.Bot.Unregister` | `internal/verify/service.go:511-551` | Group removal on the objects is a step of a run of its own, apart from the change of the settings. |
| `Strikes.TableAnswersAsHistory` | `internal/verify/state.go:201-225` | With times in order and every failure recorded while there is room, the next count is the length of the failure streak it ends and the cooldown is the one the last failure calls for, as read off the full history. |
| `Strikes.PruningIsInvisible` | `internal/verify/state.go:201-225` | Two runs with the same failures and clearings give the same later answers however they were pruned. |
| `Strikes.RecordCountsExactlyWhen` | `internal/verify/state.go:313-330` | The count never exceeds the streak, and equals it if and only if the record is still there or nothing recent was lost. |
| `Strikes.StreakLengthIsLongest` | `internal/verify/state.go:313-330` | The streak length is the longest run of recent failures less than six hours apart. |
| `Strikes.StrikeTable.Prune` | `internal/verify/state.go:201-225` | The loop drops exactly the records that can neither count nor cool down. |
| `Strikes.StrikeTable.EvictOldest` | `internal/verify/state.go:228-267` | Down to the target size, nothing kept is older than anything dropped. |
| `Strikes.StrikeTable.Record` | `internal/verify/state.go:313-330` | Prunes, makes room, and stores the next count and time; where there is room the table becomes the one the history lemmas are about. |
| `Strikes.StrikeTable.CooldownRemaining` | `internal/verify/state.go:384-407` | What is left of the applicant's cooldown, never negative, none for settings that do not fit a duration. |
| `Settings.CompactKeepsEffective` | `internal/store/settings.go:1487-1513` | Compaction against the baseline changes no effective value, fallback interplay included. |
| `Settings.CompactStaysValid` | `internal/store/settings.go:1487-1513` | Accepted overrides are accepted in their stored form. |
| `Settings.CompactIsCanonical` | `internal/store/settings.go:1522-1527` | The stored form holds exactly the overrides that change a raw value; equal resolved values are stored alike, and storing twice changes nothing. |
| `Settings.CompactMendsExactlyWhen` | `internal/store/settings.go:1487-1513` | Where the stored form is acceptable, the overrides themselves are refused if and only if they repeat a baseline value no override may have, custom fallback questions beside built-in ones, or an unreachable channel. |
| `Settings.GateWindowSurvivesExactlyWhen` | `internal/verify/service.go:619-641` | Compaction keeps the verification window if and only if the applicant waits outside, the timeout is not a repetition of the baseline's, or the baseline's is the longer default. |
| `Settings.ChosenWindowIsForgotten` | `internal/verify/service.go:619-641` | Five minutes chosen where the baseline says five come out as ten for members inside. |
| `SettingsCheck.EffectiveIs` | `internal/store/settings.go:1008-1067` | A field is its override if there is one and the baseline otherwise; only the custom fallback questions are hidden, exactly while the built-in ones are on. |
| `SettingsCheck.ValuesRead` | `internal/store/settings.go:1055-1067` | A value is read back as it was written. |
| `SettingsCheck.WindowIs` | `internal/verify/service.go:619-641` | The window is the override, ten minutes for members inside, or the baseline, in nanoseconds, and nothing for a number that does not fit. |
| `SettingsCheck.ValidateGroup` | `internal/store/settings.go:1131-1191` | The checks one after the other accept exactly the valid settings. |
| `SettingsCheck.CheckNumbers` | `internal/store/settings.go:1131-1160` | The checks on numbers accept exactly what the lemmas call good. |
| `SettingsCheck.CheckLists` | `internal/store/settings.go:1160-1191` | And so do the checks on lists. |
| `SettingsCheck.CheckIDs` | `internal/store/settings.go:1225-1237` | No zero and no repetition, found with a growing set. |
| `SettingsCheck.CheckQuestions` | `internal/store/settings.go:1193-1206` | A prompt, two options and an answer among them, for every question. |
| `SettingsCheck.CheckFallbacks` | `internal/store/settings.go:1208-1223` | A prompt and answers, none of them blank. |
| `SettingsCheck.SpaceByCode` | `internal/store/settings.go:1193-1223` | White space by code point. |
| `SettingsCheck.TimedBan` | `internal/store/settings.go:1131-1160` | A timed ban is kept as it is exactly from thirty seconds to 366 days, or for none. |
| `RegistrationRules.ChangeValidExactlyWhen` | `cmd/gentoo-zh-verify-bot/registration.go:620-818` | For real groups and actors every registration closure maps a valid record to a valid one if and only if it does not register a configured group. |
| `RegistrationRules.AddGroupValidExactlyWhen` | `cmd/gentoo-zh-verify-bot/registration.go:620-640` | Adding a group gives a valid record if and only if it was registered already, or is a real unconfigured group added by a positive actor. |
| `RegistrationRules.PutPendingValidExactlyWhen` | `cmd/gentoo-zh-verify-bot/registration.go:642-651` | Putting a pending registration gives a valid record if and only if its group, actor and deadline are real. |
| `RegistrationRules.ReconcileMendsDrift` | `internal/store/settings.go:456-487` | A record valid under one configuration is reconciled into a valid one under any other, losing exactly the groups now configured. |
| `RegistrationLaws.ClaimAcceptedExactlyWhen` | `internal/store/settings.go:728-748` | A claim is accepted if and only if the user is real, there is no owner, and the token shown is the open, non-empty, unexpired one; it makes that user the owner, uses the claim up, and changes nothing else. |
| `RegistrationLaws.ClaimOpenedExactlyWhen` | `internal/store/settings.go:703-726` | A claim is opened if and only if there is neither an owner nor an open claim, for as long as asked. |
| `RegistrationLaws.OpenedClaimIsAccepted` | `internal/store/settings.go:703-748` | The token just opened is accepted until its end and no longer, and no other token is. |
| `RegistrationLaws.IssuedExactlyWhen` | `internal/store/settings.go:751-780` | Capabilities are issued by the owner alone and for as long as asked; the expired ones go and nothing else changes. |
| `RegistrationLaws.EnrolledExactlyWhen` | `cmd/gentoo-zh-verify-bot/registration.go:358-404` | An enrollment is accepted if and only if the bot is at least a member and the capability is there, issued by the present owner and not expired; afterwards it is gone and every other one is left. |
| `RegistrationLaws.EntryLeadsTo` | `cmd/gentoo-zh-verify-bot/registration.go:358-404` | What enters is registered where the bot is an administrator and waits where it is a member, with the actor and for ten minutes. |
| `RegistrationLaws.CompletedExactlyWhen` | `cmd/gentoo-zh-verify-bot/registration.go:671-697` | A waiting group is registered if and only if its entry is the expected one, in time, and the bot has become an administrator. |
| `RegistrationLaws.UnregisteredExactlyWhen` | `cmd/gentoo-zh-verify-bot/registration.go:781-818` | A group is unregistered if and only if it was registered; then it is gone everywhere and to be left. |
| `RegistrationLaws.LeaveTakenBack` | `cmd/gentoo-zh-verify-bot/registration.go:929-937` | A noted leave is taken back, and nothing else. |
| `RegistrationDraft.Draft.Enroll` | `cmd/gentoo-zh-verify-bot/registration.go:358-404` | The in-place edit of the draft is the proposed change: the nonce is spent and the group enters or waits. |
| `RegistrationDraft.Draft.Authorize` | `cmd/gentoo-zh-verify-bot/registration.go:587-618` | The in-place edit is the proposed change. |
| `RegistrationDraft.Draft.Complete` | `cmd/gentoo-zh-verify-bot/registration.go:671-697` | The in-place edit is the proposed change, for the pending entry expected and not expired. |
| `RegistrationDraft.Draft.ExpirePending` | `cmd/gentoo-zh-verify-bot/registration.go:699-715` | The in-place edit moves the entry from awaiting promotion to awaiting leave. |
| `RegistrationDraft.Draft.NoteLeave` | `cmd/gentoo-zh-verify-bot/registration.go:747-779` | The in-place edit notes the leave of a group that is neither pending nor registered. |
| `RegistrationDraft.Draft.Unregister` | `cmd/gentoo-zh-verify-bot/registration.go:781-818` | The in-place edit drops the group, its pending entry and its role, and notes the leave. |
| `RegistrationDraft.Draft.IssueNonce` | `internal/store/settings.go:751-780` | Expired capabilities go, the new one is added, for the owner only. |
| `RegistrationDraft.Draft.EnsureClaim` | `internal/store/settings.go:703-726` | The in-place edit opens the proposed claim, and only where none is open. |
| `RegistrationDraft.Draft.ClaimOwner` | `internal/store/settings.go:728-748` | The in-place edit is the proposed change, its refusals included. |
| `RegistrationDraft.Draft.ClearLeave` | `cmd/gentoo-zh-verify-bot/registration.go:929-937` | The in-place edit drops the noted leave of the group. |
| `RegistrationDraft.Validate` | `internal/store/settings.go:1239-1305` | The loops accept exactly the valid records. |
| `RegistrationRuns.RegistrationIsSafe` | `cmd/gentoo-zh-verify-bot/registration.go:898-1030` | For any threads in any interleaving, enrollments sent in configured groups included: the record stays valid, `LeaveChat` is never called for a configured group or one registered at that moment, no nonce is spent twice or comes back, and at most one owner claim succeeds. |
| `RegistrationRuns.OwnerStays` | `internal/store/settings.go:728-748` | Once there is an owner, no continuation changes it or accepts another claim; how one is accepted is `RegistrationLaws.ClaimAcceptedExactlyWhen`. |
| `RegistrationRuns.ClaimsWereOffered` | `internal/store/settings.go:703-780` | In every run: whoever became the owner showed a token that the record at the start or a committed opening since had offered, before its end; and every capability used had been issued by the owner of that moment and had not expired. |
| `RegistrationRuns.CommitsAsTheStore` | `internal/store/settings.go:642-698` | What a run commits the store commits, with the same record and revision, and the store takes over nothing else. |
| `RegistrationRuns.UndisturbedChangeCommits` | `cmd/gentoo-zh-verify-bot/registration.go:835-857` | A change read and made with nobody in between is committed if it is proposed, valid and written, and otherwise nothing is; no other thread notices. |
| `RegistrationRuns.StaleChangeIsDropped` | `cmd/gentoo-zh-verify-bot/registration.go:835-857` | What was read before another thread changed the record is committed by nobody. |
| `RegistrationRuns.LockIsTakenAndGivenBack` | `cmd/gentoo-zh-verify-bot/registration.go:55-77` | A free lock can be taken by whoever holds none, and by nobody else until it is given back. |
| `RegistrationRuns.UnknownGroupIsLeft` | `cmd/gentoo-zh-verify-bot/registration.go:898-927` | Under its lock a group is left if and only if it is neither configured nor registered nor needed for others. |
| `TransitionLocks.LockIsExclusive` | `cmd/gentoo-zh-verify-bot/registration.go:45-78` | For any number of threads: at most one is inside a group, all threads at work on it share one transition whose references are their number, and the map lists a group only while some thread is at work on it. |
| `TransitionLocks.Locks.Enter` | `cmd/gentoo-zh-verify-bot/registration.go:55-67` | The first critical section finds or makes the group's transition and takes a reference. |
| `TransitionLocks.Locks.Exit` | `cmd/gentoo-zh-verify-bot/registration.go:69-77` | The last critical section gives the reference back and drops an unused transition. |
| `SettingsStore.CommitsAreAtomic` | `internal/store/settings.go:586-607` | A commit ends at its candidate, built and written, at the next revision, or leaves the state as it was. |
| `SettingsStore.CommitsStayConsistent` | `internal/store/settings.go:586-607` | After any sequence of commits, of any kind, at any revision, with any disk, the committed state builds and the published snapshot is the one built from it. |
| `SettingsStore.RevisionsCountChanges` | `internal/store/settings.go:572-698` | Bot-wide, registration and group revisions grow by exactly one per change of what they count, for a group effective before and after. |
| `SettingsStore.GroupCommitTouchesOneRecord` | `internal/store/settings.go:572-607` | A group commit changes its own record, compacted, and nothing else. |
| `SettingsStore.RegistrationCommitKeepsRetained` | `internal/store/settings.go:642-698` | A registration commit keeps the record of every group that stays effective and drops exactly the others. |
| `SettingsStore.UnchangedExactlyWhen` | `internal/store/settings.go:655-664` | A registration commit at the current revision is recognised as no change if and only if it says what the record says and hands over no nil list. |
| `SettingsStore.AsReadIsUnchanged` | `internal/store/settings.go:567-570` | The record handed back as it was read is recognised. |
| `SettingsStore.FreshCopyIsUnchangedExactlyWhen` | `cmd/gentoo-zh-verify-bot/registration.go:859-866` | A fresh copy of the record is recognised if and only if none of its lists is empty, and otherwise is a new revision; both ways of cloning what was read give that copy. |
| `SettingsStore.NothingChangedAndStillNew` | `internal/store/settings.go:655-664` | A record that builds, committed as it is, and counted as a new revision. |
| `SettingsStore.BaseIs` | `internal/store/settings.go:1008-1053` | A configured group follows its own baseline, any other the defaults. |
| `SettingsStore.OrderIsEffective` | `internal/store/settings.go:952-1006` | The snapshot lists exactly the effective groups, configured ones first. |
| `SettingsStore.Store.CommitGroup` | `internal/store/settings.go:572-607` | State, snapshot and outcome after the method are those of the commit function; the snapshot is always the one built from the state. |
| `SettingsStore.Store.CommitGlobal` | `internal/store/settings.go:610-639` | As above for the bot-wide settings, which are stored compacted. |
| `SettingsStore.CompactGlobalKeepsEffective` | `internal/store/settings.go:1515-1527` | Compacting the bot-wide overrides changes no effective value, leaves no repetition of the baseline, and stores equal effective values alike. |
| `SettingsStore.EffectiveGlobalFollows` | `internal/store/settings.go:835-850` | Without overrides the effective bot-wide settings are the baseline, with all of them they are the overrides. |
| `SettingsStore.BuildsExactlyWhen` | `internal/store/settings.go:952-1006` | A state builds if and only if its registration record is valid, every configured or registered group has valid settings, and the effective number of private queries is positive. |
| `SettingsStore.SnapshotTells` | `internal/store/settings.go:952-1006` | The snapshot has exactly the configured and registered groups, each with its own baseline, overrides and revision. |
| `SettingsLaws.GroupChangeAcceptedExactlyWhen` | `internal/store/settings.go:572-607` | A group's settings are changed if and only if writing is allowed, the bot serves the group, the revision is current, and they are stored already or valid and written; then every field comes to what was asked for, and otherwise nothing changes. |
| `SettingsLaws.GlobalChangeAcceptedExactlyWhen` | `internal/store/settings.go:610-639` | The bot-wide settings likewise; what must stay positive is the effective number of private queries. |
| `SettingsLaws.RegistrationChangeAcceptedExactlyWhen` | `internal/store/settings.go:642-698` | The registration record is changed if and only if it is on disk, the revision current, and it is recognised as unchanged or valid, written, and every group that enters good. |
| `SettingsStore.Store.CommitRegistrations` | `internal/store/settings.go:642-698` | As above for the registration record. |
| `SettingsClients.ReadingIsSafeExactlyWhen` | `internal/store/settings.go:572-698` | In any interleaving, the group coming and going: every write ever accepted on a reading is computed from the group's current overrides if and only if the group is configured or was read at its first revision. |
| `SettingsClients.StaleWritesWereReadEarlier` | `internal/store/settings.go:572-607` | An accepted write that was computed from anything else was read in an earlier lifetime of the group, at the same revision. |
| `SettingsClients.NoUpdateIsLost` | `internal/verify/service.go:378-387` | When everything accepted was read in the current lifetime, the group's overrides are the accepted changes applied one after the other. |
| `SettingsLaws.UndisturbedWriteIsAccepted` | `internal/store/settings.go:572-607` | A client that reads and writes with nobody in between is accepted whenever the change is already there, or valid and written, and leaves what it computed. |
| `SettingsClients.ConfiguredGroupsLoseNothing` | `internal/store/settings.go:572-607` | For a configured group that is so in every interleaving. |
| `SettingsClients.UpdateCanBeLost` | `internal/store/settings.go:642-698` | From any reading of a later revision of a group that is not configured, a run in which the group returns, comes to that revision with other settings, and a write on the old reading is accepted. |
| `SettingsGlobals.NoUpdateIsLost` | `internal/store/settings.go:610-639` | In any interleaving there is a chain of states from the first to the last in which each accepted change gives the effective settings it asked for, of those before it. |
| `SettingsLaws.UndisturbedGlobalWriteIsAccepted` | `internal/store/settings.go:610-639` | Such a client of the bot-wide settings too. |
| `Lexicographic.LexIsLawful` | `internal/lookup/packages.go:233-268` | Element-by-element comparison by a lawful comparison is lawful. |
| `VersionOrder.CmpNumIsNumeric` | `internal/lookup/packages.go:271-286` | `cmpNum` compares the numbers its digits stand for, of any length and with any leading zeros. |
| `VersionOrder.CmpToken` | `internal/lookup/packages.go:233-268` | The loop over two indices computes the lexicographic order of digit runs and single bytes. |
| `VersionOrder.VerLess` | `internal/lookup/packages.go:148-173` | The layered comparison computes the order the lemmas here and in `DottedVersions` are about. |
| `VersionOrder.LessIsStrictWeakOrder` | `internal/lookup/packages.go:148-218` | `verLess` is irreflexive and transitive, and so is being neither less nor greater, on all strings. |
| `VersionOrder.PreReleasesComeFirst` | `internal/lookup/packages.go:192-218` | alpha < beta < pre < rc < p for any version, whatever the numbers, which decide among equals; the version itself comes before p, and after rc if and only if it has no revision. |
| `VersionOrder.SuffixDecides` | `internal/lookup/packages.go:192-209` | Of any version with one more suffix each the suffixes decide; against the version itself the suffix's sign does, unless that ends in a revision and comes first. |
| `VersionOrder.RevisionDecides` | `internal/lookup/packages.go:175-190` | Revisions of any version sort by number; the version itself comes first unless the number is zero and it had no revision. |
| `VersionOrder.PreReleaseIsEarlierExactlyWhen` | `internal/lookup/packages.go:175-218` | A pre-release suffix makes a version earlier if and only if the version has no revision. |
| `VersionOrder.RevisedAlphaIsNotEarlier` | `internal/lookup/packages.go:175-218` | An alpha of 1-r1 is not earlier than 1-r1, an alpha of 1 is earlier than 1. |
| `VersionOrder.UnknownSuffixesComeLast` | `internal/lookup/packages.go:192-218` | A suffix of no known name comes after the version and after its known suffixes; two of them compare as tokens. |
| `DottedVersions.FieldsAreTheFields` | `internal/lookup/packages.go:131-133` | Text made of fields between dots and dashes splits into those fields in order, the empty ones dropped. |
| `DottedVersions.EveryTextIsJoined` | `internal/lookup/packages.go:131-133` | And every text is made that way. |
| `DottedVersions.BaseIsTheNumbers` | `internal/lookup/packages.go:175-190` | What is compared first is what stands before the suffixes and the revision. |
| `DottedVersions.NumbersDecide` | `internal/lookup/packages.go:148-173` | Where the numbers differ they decide, with any suffixes or revision behind them. |
| `DottedVersions.DottedOrder` | `internal/lookup/packages.go:148-173` | Versions of dotted decimal numbers, of any length and with any leading zeros, are ordered as the lists of their numbers, a prefix first. |
| `DottedVersions.NumbersAreNotText` | `internal/lookup/packages.go:271-286` | 1.9 comes before 1.10, and that before 2.0. |
| `Tiers.BetterExactlyWhen` | `internal/lookup/distros.go:128-145` | A version is better if and only if it is a real release and the other is not, or a date and the other live or transitional, or of the same kind and later by the version order. |
| `Tiers.IsAllNines` | `internal/lookup/distros.go:99-111` | The loop finds exactly the non-empty versions of nines and dots with a nine. |
| `Tiers.SnapAnywhere` | `internal/lookup/distros.go:113-117` | Digits, "snap" in any case and digits make a transitional version wherever they stand. |
| `Tiers.SnapSomewhere` | `internal/lookup/distros.go:113-117` | And every transitional version has them somewhere. |
| `Tiers.LowerIsByLetter` | `internal/lookup/distros.go:113-114` | Upper-case letters are folded to lower case, one by one. |
| `Tiers.LowerElsewhere` | `internal/lookup/distros.go:113-114` | Everything else is left alone. |
| `Tiers.IsBareDate` | `internal/lookup/distros.go:83-96` | Eight digits that are a plausible date. |
| `Tiers.IsDateSnapshot` | `internal/lookup/distros.go:60-80` | A plausible eight-digit date, or ten characters of a date with equal dashes or dots. |
| `Tiers.BetterIsStrictWeakOrder` | `internal/lookup/distros.go:128-145` | `betterVer` is a strict weak order too. |
| `Channels.NewestIsMaximal` | `internal/lookup/distros.go:151-158` | For rows with versions, in any order, no row is better than the newest. |
| `Channels.NewestByKind` | `internal/lookup/distros.go:151-158` | The newest row is a real release if and only if there is one, live or transitional if and only if there is nothing else, and no row of its kind is later by the version order. |
| `Channels.RollingNames` | `internal/lookup/distros.go:161-171` | The labels that roll, one by one. |
| `Channels.Listed` | `internal/lookup/distros.go:366-372` | What is listed for a family: exactly the packages of that family that name a version, which is what the newest row and the channels require. |
| `Channels.NewestRow` | `internal/lookup/distros.go:151-158` | The loop returns the row the lemmas are about. |
| `Channels.FamilyChannels` | `internal/lookup/distros.go:174-218` | One line or two: the numbered line has a release no eligible row exceeds and the best version within it, two lines appear exactly when the best rolling version is strictly better. |
| `Feed.CursorFollowsUpstream` | `internal/feed/feed.go:674-716` | Over any polls of an upstream that grows upward, the bugs above the baseline and up to the cursor are exactly those posted, filtered or rejected for good, in strictly ascending order, so none twice and none passed undelivered. |
| `Feed.UpstreamCanGrow` | `internal/feed/feed.go:674-716` | Such a run goes on: upstream may gain any higher bug, and the cursor reaches it unless sending it fails. |
| `Feed.PassIsExact` | `internal/feed/feed.go:674-716` | One pass handles exactly the bugs between old and new cursor, once and ascending, and stops early only at a failed one or a full batch. |
| `Feed.PassTells` | `internal/feed/feed.go:674-716` | Every event of a pass is what became of one of its bugs: posted, turned down for good, or passed over because it does not match. |
| `Feed.LogHappened` | `internal/feed/feed.go:674-716` | So whatever a run has on record as posted was posted in one of its polls. |
| `Feed.CollectedAnswers` | `internal/feed/feed.go:264-291` | When upstream answers with its lowest bugs beyond the cursor, so does the collected batch. |
| `Feed.Collect` | `internal/feed/feed.go:264-291` | Every bug returned is one of the batch; with a cursor they are the lowest hundred ids beyond it, once each and in order; without one, only the newest. |
| `Feed.FeedState.PostBugs` | `internal/feed/feed.go:674-716` | A first run records the highest id, any other is one pass over the sorted batch; tracked is exactly what was posted. |
| `Feed.FeedState.TrackBug` | `internal/feed/feed.go:134-147` | The bug is tracked unless its message has no id; below the limit nothing else changes, from the limit on 199 are kept, and none was given up for one that should have gone before it. |
| `Feed.FollowedWasPosted` | `internal/feed/feed.go:674-716` | After any pass, what is tracked was tracked before or was posted, with that message; at most two hundred stay at most two hundred. |
| `Feed.PostedIsFollowed` | `internal/feed/feed.go:134-147` | While there is room, every posted bug is tracked and nothing tracked before is given up. |
| `Feed.FeedState.EvictOne` | `internal/feed/feed.go:152-177` | The lowest resolved bug goes, or the lowest open one when none is resolved; false only for an empty map. |
| `Callback.ParseUndoesEncode` | `internal/panel/codec.go:55-99` | Every valid transition, for every int64 group, encodes in at most 59 bytes and parses back to itself. |
| `Callback.EncodesExactlyTheValid` | `internal/panel/codec.go:55-72` | Encoding succeeds if and only if the data is valid; the length guard never decides. |
| `Callback.EncodeUndoesParse` | `internal/panel/codec.go:74-99` | Whatever parses is valid and encodes to a form that parses to the same, with the same bytes if and only if the group has no leading zero. |
| `Callback.ParseNeverMeetsTheLimit` | `internal/panel/codec.go:74-99` | Nothing that passes the other checks is too long. |
| `Callback.ParsesExactlyWhen` | `internal/panel/codec.go:74-99` | A callback parses if and only if it has six fields, a token of sixteen digits, a group of at most sixteen, and a line of the table allows the rest; what comes out is what the fields say. |
| `Callback.FirstFaultIsReported` | `internal/panel/codec.go:74-99` | Of several faults the token is reported before the group and that before the screen. |
| `Callback.Transition` | `internal/panel/codec.go:26-45` | Known screens, two-byte fields, and every `go` leads to a known screen. |
| `Callback.TransitionTable` | `internal/panel/codec.go:26-45` | Entry by entry the rules are those of the table, and there are no others. |
| `Callback.RulesAccept` | `internal/panel/codec.go:101-147` | Nothing is written `_`, a choice is one of its words, an index fits 64 bits and a page 31. |
| `Callback.ZigZagIsABijection` | `internal/panel/codec.go:149-165` | Zig-zag maps int64 onto uint64 and back. |
| `Callback.ZigZagIs` | `internal/panel/codec.go:149-165` | Non-negative numbers become the even ones, negative numbers the odd ones. |
| `Callback.SignedRoundTrip` | `internal/panel/codec.go:149-165` | Every int64, the minimum included, is written in one to sixteen digits and read back. |
| `Callback.FormatUndoesParse` | `internal/panel/codec.go:115-126` | Digits come back from their number if and only if they had no leading zero. |
| `Callback.HexDigits` | `internal/panel/codec.go:115-126` | The sixteen digits and what each stands for. |
| `Callback.SplitUndoesJoin` | `internal/panel/codec.go:74-78` | Splitting at colons undoes joining parts without colons. |
| `Forwarder.NothingIsLost` | `cmd/gentoo-zh-verify-bot/main.go:459-514` | At any moment of any run, whenever cancelled: what was emitted is a prefix of what was polled, at most one update is held, one slot and one send per update, at most 64 handlers, and everything emitted on return. |
| `Forwarder.DrainsCompletely` | `cmd/gentoo-zh-verify-bot/main.go:459-514` | Once the source is closed, going as far as the loop and the handlers can takes a bounded number of steps and ends with everything emitted. |
| `Forwarder.WaitsForHandlers` | `cmd/gentoo-zh-verify-bot/main.go:422-431` | At any moment of any run an update has to wait for its slot if and only if sixty-four handlers are at work. |
| `Forwarder.StepIsSound` | `cmd/gentoo-zh-verify-bot/main.go:422-431` | Every step of the loop, the handlers and the source keeps order, slots and prefix. |
| `Forwarder.ForwardUpdates` | `cmd/gentoo-zh-verify-bot/main.go:459-514` | The loop with its flags, over a source that fills while it runs and closes at some point, for any outcome of its selects: it is such a run and emits all that was polled. |
| `QueryCrowds.AtMostLimitPerWindow` | `internal/lookup/http.go:208-235` | While never more than ten thousand users are let through within a minute, at most the limit of a user's requests is accepted in any minute-long window, wherever it starts. |
| `QueryCrowds.NeverWipedExactlyWhenCalm` | `internal/lookup/http.go:224-233` | The map is never wiped if and only if the requests are that calm, by the history alone; then what is accepted is what the whole history allows. |
| `QueryCrowds.ExceededExactlyWhen` | `internal/lookup/http.go:208-235` | At any moment of any run, after any crowds: the next request passes if and only if its user was let through fewer times than the limit within the last minute since the last crowd, and then exceeds the limit if and only if the user had reached it counting what was forgotten. |
| `QueryCrowds.LimitCanBeExceeded` | `internal/lookup/http.go:224-233` | For every limit, a run in which a user is accepted once more than that within a minute. |
| `QueryRate.VerdictsAreDeserved` | `internal/lookup/http.go:208-235` | Every verdict is the one the full history of accepted requests gives. |
| `QueryRate.EvictionIsInvisible` | `internal/lookup/http.go:224-229` | Dropping stale users never changes a later verdict. |
| `QueryRate.WipesExactlyWhenCrowded` | `internal/lookup/http.go:224-233` | A request wipes the map if and only if it is accepted and more than ten thousand users were within the last minute. |
| `QueryRate.FilterInPlace` | `internal/lookup/http.go:213-218` | The filter that overwrites the slice it reads keeps exactly the live hits, in order. |
| `QueryRate.RateLimiter.QueryRateOK` | `internal/lookup/http.go:208-235` | Verdict and map after the method are those of the functions the lemmas are about. |

## Left out

- Telegram, HTTP, systemd and file calls: each is a result that may be anything; transport retries, JSON and fsync are not modelled.
- Message texts, translations, HTML, menus and panel screens: user interface.
- Regular expressions: kernel answers, news, wiki and ebuild parsing; the release and "snap" patterns of the selections are parameters or plain scans, without Unicode case folding.
- Timers: a stopped timer may still fire in the model, so more interleavings are covered than can happen; real goroutines and mutexes appear only as lock sections.
- Machine integers: epochs, revisions and versions do not wrap around; the callback codec is the one place where 64 bits matter and are written out.
- Strings: bytes, without Unicode; applicant locales and their stored tags are not part of a pending here.
- Retry loops of `mutateRegistrations`: each attempt is a step of its own; that a loop gives up after a number of conflicts is not stated.
- Duplicate keys in the stored list of pendings: a record is restored only when its key is free, as in every list this program writes.
- Legacy mirror fields and migrations of the settings file; the stored failure table and heartbeat.
- `sort.Slice`, here and in the eviction of old failure records: modelled as insertion and as repeated choice of the oldest, which fixes the result up to ties.
- Feed: the news cursor, editing of tracked bugs, and junk keys in the tracked map.
- `deriveDebianReleaseData`, `parseMadison` and the package caches: bookkeeping around the selections.
- Rate limit: the limit is fixed during a run; the settings may change it between requests in the program.
- VerifyBot.Bot.Arrive: reading pendings back from disk, which fills the map before anything else runs, is a step of the runs without a method over the objects.
- RegistrationRuns.RegistrationIsSafe: enrollment nonces are issued fresh; group membership answers may be anything.
