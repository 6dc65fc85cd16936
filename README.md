# Pomodoro focus blocker: session state machine and blocklist editor

This project models the core of a browser extension that runs Pomodoro
sessions and blocks a user's list of sites while a focus phase runs.

- **The background worker** (`background.js`) is `Session.Extension`. It keeps:
  - the timer settings and the blocklist in synced storage;
  - the session record in local storage: phase, end time, paused flag, time left, completed pomodoros, tracked rule ids;
  - the browser's dynamic blocking-rule table;
  - one expiry alarm.

  The storage keys, the rule table and the alarm are fields of the class. Every
  timer operation is a method taking the clock as a `now` parameter. Each method
  is proved to:
  - leave exactly the session record given by a pure transition function
    (`FocusStarted`, `BreakStarted`, `TimerPaused`, `TimerResumed`);
  - leave the stated rule table and alarm;
  - keep the worker's invariant. The installed rules are exactly the tracked
    ids, one per domain of the blocklist last applied. During focus, that
    blocklist is the stored one.
- **The rule bookkeeping** (`Rules`) gives rule `1000 + i` to the `i`-th domain.
  Its lemmas show that the ids are distinct and that they are exactly the range.
  They also show that one update (remove the tracked ids, add the new rules)
  leaves exactly the new rules.
- **The options page's list** (`options.js`) is `Options.BlocklistEditor`: a
  `seq<string>` of domains. Its methods are:
  - the "Add" button: trim, lower-case, validate against `^[a-z0-9.-]+$`,
    ignore duplicates, append;
  - an entry's "Remove" button;
  - `load`, which rebuilds the list by adding each stored entry in turn.

  The timer form's fallback to 25 and 5 minutes is a pure function.
- **Scenarios** (`Scenarios`) are client methods. They drive the worker and the
  editor through their contracts only. They show the observable behaviour,
  including the as-written quirks of resume:
  - the phase stays `Paused`;
  - the time left stays recorded;
  - after a paused break, the resumed session blocks sites;
  - the resumed session never expires.

Dafny's `int` is unbounded. The source's timestamps and counters are JavaScript
numbers, exact up to 2^53. For any focus or break length a user could actually
wait out, `now + minutes * 60000` stays far below that bound, so no rounding is
modelled. A typed length of about 1.5·10^11 minutes or more would be rounded
by JavaScript, and the model computes it exactly.

## Model

| member | source | states |
|---|---|---|
| Rules.RuleIds | background.js:71 | `domains.map((_, i) => 1000 + i)`: one id per domain, and the first is 1000 |
| Rules.BlockTable | background.js:72-92 | the `addRules` list as a table from rule id to domain; it is empty exactly when the blocklist is |
| Rules.Updated | background.js:98-101 | one `updateDynamicRules` call: the removals happen first, then the additions. Every added rule is in the result with its own domain, every removed id that is not added again is gone, every rule neither removed nor added stays with its domain, and every result rule was either kept or added; removing nothing and adding nothing leaves the table as it was |
| Rules.UpdateAccepted | background.js:98-101 | the platform refuses an update that re-adds an id still present once the removals are done; this is the only refusal modelled, so the predicate holds exactly when no such clash occurs |
| Rules.RuleIdsSpec | background.js:71 | a blocklist of n domains gets n rule ids; the ids are pairwise distinct; an id is among them iff it lies in 1000 .. 1000+n-1 |
| Rules.BlockTableSpec | background.js:72-92 | the added rules are keyed by exactly the blocklist's ids; rule 1000+i blocks the i-th domain |
| Rules.UpdateReplaces | background.js:94-103 | when the tracked ids are the installed rules, removing them and adding the new rules leaves exactly the new blocklist's rules; no old rule survives |
| Rules.InstallThenClear | background.js:106-115 | removing the tracked ids with no rule added empties the table |
| Rules.ReapplyIsStable | background.js:70-104 | two blocklists get the same ids iff they have the same length; re-applying the installed blocklist leaves the table as it was |
| Rules.TrackedUpdateAccepted | background.js:94-101 | when the tracked ids are exactly the installed rules, no added id is still present after the removals, so the platform accepts every update |
| Rules.UntrackedRuleBlocksUpdates | background.js:94-101 | a rule at id 1000 that is not tracked makes every update that removes nothing and adds a non-empty blocklist invalid: id 1000 is added again while still present |
| Session.FocusStarted | background.js:118-126 | the record after start focus: phase focus, not paused, no time left, end = now + focusMinutes*60000, ids for the blocklist, counter unchanged |
| Session.BreakStarted | background.js:128-144 | the record after start break: phase break, no ids, end = now + breakMinutes*60000; the counter goes up by exactly 1 iff the prior phase was focus, and otherwise is unchanged |
| Session.RemainingAt | background.js:155 | the time left is never negative and is at least end - now (absent end read as 0); it is 0 or exactly end - now |
| Session.TimerPaused | background.js:152-165 | a phase other than focus or break is left as it is; a running phase becomes paused, with the time left recorded, no end time, no ids and the counter kept |
| Session.TimerResumed | background.js:167-181 | nothing changes unless paused with a time left; otherwise end = now + time left and paused = false, while the phase stays paused and the time left stays set; with no tracked id, the ids become those of the whole blocklist |
| Session.PauseThenResume | background.js:152-181 | after pausing a running focus or break and resuming, the phase is paused, the time left is both kept and added to the resume time, and the whole blocklist's ids are tracked, even when a break was paused |
| Session.Running | background.js:154 | pauseTimer's guard: exactly the focus and break phases, never idle or paused |
| Session.Resumable | background.js:169 | resumeTimer's guard: the phase is paused (so not running) and a time left is recorded |
| Session.AlarmDue | background.js:201 | an absent end time and an end time of 0 (falsy in JavaScript) are never due; any other end time is due exactly when it is at most 500 ms after now |
| Session.Extension.CurrentSettings | background.js:40-43 | the stored settings, or 25/5 minutes when none are stored |
| Session.Extension.CurrentBlocklist | background.js:47-50 | the stored blocklist, or the empty list when none is stored |
| Session.Extension.State | background.js:54-57 | the stored record, or an idle, unpaused record with no times, counter 0 and no ids when none is stored |
| Session.Extension.SetState | background.js:58-67 | the local record becomes the patched record |
| Session.Extension.ScheduleEndAlarm | background.js:191-194 | the one alarm is re-armed at the given end time |
| Session.Extension.ClearEndAlarm | background.js:195-197 | no alarm is armed |
| Session.Extension.ApplyBlockRules | background.js:70-104 | the table is one removal-then-add update of the previous table, and the platform accepts it; the result is exactly the new blocklist's rules; only the tracked ids change in the record; the invariant is kept |
| Session.Extension.ClearBlockRules | background.js:106-115 | the table is emptied and the ids cleared; with no tracked id, neither the table nor storage is touched |
| Session.Extension.StartFocus | background.js:118-126 | the record becomes FocusStarted; the table is exactly the stored blocklist's rules; the alarm is the new end time; the invariant is kept |
| Session.Extension.StartBreak | background.js:128-144 | the record becomes BreakStarted; no rule is installed; the alarm is the new end time; the invariant is kept |
| Session.Extension.ResetTimer | background.js:146-150 | the record is the default one (counter 0, no ids), with no rule and no alarm |
| Session.Extension.PauseTimer | background.js:152-165 | the record becomes TimerPaused; from focus or break, rules and alarm are cleared; otherwise storage, table and alarm are unchanged |
| Session.Extension.ResumeTimer | background.js:167-181 | the record becomes TimerResumed; when resumable, the alarm is the new end time, and the rules become the stored blocklist's exactly when no id was tracked; otherwise nothing changes |
| Session.Extension.SwitchPhase | background.js:183-187 | from focus, the record is BreakStarted with no rules; from any other phase, FocusStarted with the blocklist's rules; the alarm is the new end time |
| Session.Extension.OnAlarm | background.js:198-209 | another alarm name changes nothing; when due (end set, non-zero, at most 500 ms ahead), focus becomes BreakStarted and break becomes FocusStarted; idle, paused or not yet due leaves storage and rules alone and only drops the fired alarm |
| Session.Extension.SetBlocklist | background.js:265-271 | the blocklist is stored; during focus, the ids and rules become the new blocklist's; in any other phase, the record and table are unchanged |
| Session.Extension.SetSettings | background.js:258-261 | the settings are stored as given and the invariant is kept |
| Session.Extension.OnInstalled | background.js:25-37 | corrected seeding: every key is present afterwards; a present key keeps its value; what the three getters return does not change |
| Session.Extension.OnInstalledAsWritten | background.js:25-37 | seeding as written: absent settings and blocklist get defaults; the local session record is overwritten with the default whenever synced storage has no state, which is always |
| Session.Extension.HandleMessage | background.js:225-277 | each message type gets its reply: the record, the settings, the blocklist, true, or false for an unknown type. Read-only and unknown messages change nothing, and only the two "set" messages write synced storage. Each timer command leaves the record of its transition, built from the settings and blocklist held before the message, together with its method's rules and alarm. Switch goes from focus to a break and from any other phase to focus. Saving settings touches nothing else. Saving a blocklist re-blocks only during focus. The invariant is kept |
| Options.ValidDomain | options.js:27 | `^[a-z0-9.-]+$`: non-empty, every character in the class; `$` anchors at the end of input only, so a valid domain holds no white space, not even a final line break |
| Options.IsJsWhitespace | options.js:14 | the characters `trim()` strips (ECMAScript white space and line terminators); none of them may appear in a domain |
| Options.LowerChar | options.js:14 | `toLowerCase()` on one character: no capital A-Z is left; domain characters and white space are unchanged; only A-Z and the Kelvin sign become domain characters |
| Options.TrimStart | options.js:14 | the result is a suffix of the input; every dropped character is white space; the result is empty or starts with a non-space |
| Options.TrimEnd | options.js:14 | the result is a prefix of the input; every dropped character is white space; the result is empty or ends with a non-space |
| Options.Trim | options.js:14 | the trimmed text is empty iff the input is all white space |
| Options.ToLower | options.js:14 | same length, each character lowered, and no capital A-Z left |
| Options.Normalize | options.js:14-15 | the normalised domain is empty iff the input is all white space, and has no capital A-Z |
| Options.NormalizeKeepsValid | options.js:14-16 | a valid domain normalises to itself, so typing it adds it exactly as typed |
| Options.WithItem | options.js:26-39 | `addItem` on the list: the list either stays as it was or gains the domain at the end, and it gains it exactly when the domain is valid and not yet listed |
| Options.Rebuilt | options.js:46-48 | the list `load` builds by adding the stored entries in turn; it is never longer than the stored blocklist |
| Options.WithItemSpec | options.js:26-39 | adding keeps a duplicate-free, all-valid list so; the existing entries keep their places; the result holds exactly the old entries plus the domain when it is valid |
| Options.RebuiltMembers | options.js:46-48 | the loaded list is duplicate-free and all-valid, and holds exactly the valid stored entries |
| Options.RebuiltOrder | options.js:46-48 | the loaded list keeps the stored order of first occurrences |
| Options.AddOutcomeOf | options.js:27-31 | addItem's outcome: never "empty"; rejected exactly when the domain fails the check; appended exactly when the list gains the domain at the end; otherwise the list is unchanged |
| Options.BlocklistEditor.AddItem | options.js:26-39 | an invalid domain is rejected and a listed one reported as a duplicate, the list unchanged in both cases; a valid new one is appended with the rest kept in order; the list stays duplicate-free and valid |
| Options.BlocklistEditor.SubmitDomain | options.js:13-18 | input that normalises to nothing leaves the list unchanged; otherwise the normalised text goes through AddItem |
| Options.BlocklistEditor.RemoveAt | options.js:37 | exactly that entry is removed; the others keep their order; the list stays valid |
| Options.BlocklistEditor.Load | options.js:41-49 | the list is the stored blocklist (empty if absent) folded through AddItem; it is valid afterwards |
| Options.OrDefault | options.js:7-8 | NaN and 0 give the fallback; any other integer passes through |
| Options.TimerSettingsToSave | options.js:6-9 | neither saved value is 0; focus falls back to 25 and break to 5; negatives pass through |
| Scenarios.SingleDomain | background.js:71-92 | a one-domain blocklist gets id 1000 and one rule for that domain |
| Scenarios.Installed | background.js:25-37 | a first install yields default settings, an empty blocklist, the idle record, no rule and no alarm |
| Scenarios.FreshInstall | background.js:225-264 | after install, the get messages answer 25/5 minutes, an empty blocklist and an idle record with counter 0 |
| Scenarios.FocusPauseResumeRules | background.js:152-181 | with one blocked site, focus installs rule 1000, pause removes it, resume installs it again, and the phase stays paused |
| Scenarios.PauseResumeKeepsTimeLeft | background.js:152-181 | paused 10 minutes into a 25-minute focus, 15 minutes are kept; resuming at minute 12 ends at minute 27; the time left stays recorded |
| Scenarios.ResumedSessionNeverExpires | background.js:167-209 | a resumed session's alarm does nothing: it stays paused and no pomodoro is counted |
| Scenarios.ResumedBreakBlocks | background.js:167-181 | resuming a paused break installs the blocklist's rules |
| Scenarios.FocusExpires | background.js:191-209 | assuming the browser fires the alarm before its deadline (every path arms it at the stored end time): the alarm 501 ms before the end is ignored, and no alarm is left, so that focus never ends by itself; an alarm 500 ms before the end starts a break, counts one pomodoro and removes the rules |
| Scenarios.PomodoroCounter | background.js:128-150 | the counter runs 0, 1, 1, 2, 2 over focus, switch, alarm, alarm, start break, and reset puts it back to 0 |
| Scenarios.SetBlocklistTwice | background.js:265-271 | saving the same blocklist twice during focus leaves the same ids and rules |
| Scenarios.UpdateDuringFocusAsWritten | background.js:25-37 | an update event during focus, with seeding as written, leaves the record idle with no tracked id while rule 1000 stays installed. A clear of the tracked ids then removes nothing, and the platform refuses the next focus start's update |
| Scenarios.UpdateDuringFocus | background.js:25-37 | with corrected seeding, the focus record and its rule survive the update |
| Scenarios.EditorLoad | options.js:41-49 | loading `AB.io, x.com, x.com, a b` shows only `x.com` |
| Scenarios.TrimPadded | options.js:14 | a word padded by one space each side trims to the word |
| Scenarios.ToLowerExample | options.js:14 | `AB.io` lower-cases to `ab.io` |
| Scenarios.NormalizeExample | options.js:14 | ` AB.io ` normalises to `ab.io` |
| Scenarios.AddExample | options.js:26-39 | `ab.io` is added after `x.com` |
| Scenarios.EditorAdd | options.js:13-18 | typing ` AB.io ` after adding `x.com` appends `ab.io` |

## Left out

- Browser APIs are fields, not I/O: synced and local storage, the dynamic rule table, alarms, notifications and runtime messaging. A failed storage write is not modelled.
- A rule update the platform rejects is modelled only as `Rules.UpdateAccepted`. The worker's methods are proved to issue accepted updates only; a refused update and the exception it raises are not modelled. The id clash is the only refusal modelled; others, such as the limit on the number of dynamic rules, are not.
- The rule table records only each rule's id and domain. The redirect action, priority, `||domain` URL filter and resource types belong to the platform's matching.
- The browser is assumed free to fire the alarm at any time; `OnAlarm` does not tie `now` to the armed deadline.
- Each message handler runs to completion before the next starts. Interleavings of concurrent asynchronous handlers are not modelled.
- The state-update broadcast from `setState` and `notify` are fire-and-forget side effects, so they are left out.
- The install listener that opens the options page is left out; it is interface plumbing.
- Stored records are merged with the defaults as whole records. A stored record that lacks some fields would be merged field by field by the source; nothing in the model stores one.
- Messages missing their payload (`settings:set` without settings) are not modelled. `blocklist:set` without a blocklist is also left out; the source falls back to an empty list only for the rule update.
- JavaScript number rounding above 2^53 is left out. It is reached only by end times from timer lengths of about 1.5·10^11 minutes or more.
- `parseInt` is left out: the timer form takes an already parsed `Option<int>`, with `None` for NaN.
- Options.ToLower: lower-cases A-Z and the Kelvin sign only. Other characters keep their case, since no other character's lower case can pass the domain check.
- DOM and `alert` are left out: the list's `<li>` elements, the input box being cleared after "Add", the alert on an invalid domain, and `load` filling in the settings fields.
- The options page's "Save blocklist" button is left out. It sends the list's entries, which are the editor's `items`.
- popup.js, content.js and blocked.js are view code and are not part of this model.

## Findings

| source | as written | input that shows it | evidently intended | confidence | as-written member | corrected member |
|---|---|---|---|---|---|---|
| background.js:25-36 | install-time seeding tests for "state" in synced storage, but the session record is only ever kept in local storage, so the default record overwrites local storage on every install, update or browser-update event | an extension update during a focus phase with one blocked site: the record becomes idle with no tracked id while rule 1000 stays installed. A later clear removes nothing, because no id is tracked. The next focus start removes nothing and adds id 1000 again, which the platform refuses, so focus cannot start and the site stays blocked | seed the record only when local storage has none, so an update keeps the running session and its rules tracked | not executed | Session.Extension.OnInstalledAsWritten, Scenarios.UpdateDuringFocusAsWritten | Session.Extension.OnInstalled |
