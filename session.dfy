/**
 * The extension's background service worker (background.js): the Pomodoro
 * session state machine and the blocking-rule bookkeeping that goes with it.
 *
 * The browser APIs become fields of one `Extension` object: the two storage
 * buckets are optional values, the dynamic rule table is a map from rule id to
 * domain, and the single "phaseEnd" alarm is an optional deadline. The clock is
 * the `now` parameter (epoch milliseconds) of every operation.
 */
module Session {
  import opened Common
  import opened Rules

  /** The phase of a session (background.js:11). */
  datatype Phase = Idle | Focus | Break | Paused

  /** Timer settings in minutes (background.js:9): whatever integers were last saved. */
  datatype Settings = Settings(focusMinutes: int, breakMinutes: int)

  /**
   * The stored session record (background.js:10-17); `endTime` is an epoch
   * time in milliseconds and `remainingMs` a duration.
   */
  datatype SessionState = SessionState(
    phase: Phase,
    endTime: Option<int>,
    paused: bool,
    remainingMs: Option<int>,
    pomodorosCompleted: int,
    activeRuleIds: seq<int>)

  const DefaultSettings := Settings(25, 5)
  const DefaultState := SessionState(Idle, None, false, None, 0, [])

  /** Name of the one alarm the worker arms (background.js:190). */
  const AlarmName := "phaseEnd"
  /** How early an expiry alarm may fire and still be honoured (background.js:201). */
  const ExpiryToleranceMs := 500
  const MsPerMinute := 60 * 1000

  // ---------------------------------------------------------------------------
  // The session record after each transition. The worker's methods below are
  // proved to leave exactly these records in storage.
  // ---------------------------------------------------------------------------

  /** `startFocus` (background.js:118-126): a focus phase of `focusMinutes`, blocking `blocklist`. */
  function FocusStarted(st: SessionState, settings: Settings, blocklist: seq<string>, now: int): (r: SessionState)
    ensures r.phase == Focus && !r.paused && r.remainingMs == None
    ensures r.endTime == Some(now + settings.focusMinutes * MsPerMinute)
    ensures r.activeRuleIds == RuleIds(blocklist)
    ensures r.pomodorosCompleted == st.pomodorosCompleted
  {
    st.(phase := Focus, endTime := Some(now + settings.focusMinutes * MsPerMinute),
        paused := false, remainingMs := None, activeRuleIds := RuleIds(blocklist))
  }

  /**
   * `startBreak` (background.js:128-144): a break of `breakMinutes` with no rules;
   * a pomodoro is counted exactly when the break follows a focus phase.
   */
  function BreakStarted(st: SessionState, settings: Settings, now: int): (r: SessionState)
    ensures r.phase == Break && !r.paused && r.remainingMs == None && r.activeRuleIds == []
    ensures r.endTime == Some(now + settings.breakMinutes * MsPerMinute)
    ensures st.phase == Focus <==> r.pomodorosCompleted == st.pomodorosCompleted + 1
    ensures st.phase != Focus <==> r.pomodorosCompleted == st.pomodorosCompleted
  {
    var add := if st.phase == Focus then 1 else 0;
    st.(phase := Break, endTime := Some(now + settings.breakMinutes * MsPerMinute),
        paused := false, remainingMs := None, activeRuleIds := [],
        pomodorosCompleted := st.pomodorosCompleted + add)
  }

  /** `Math.max(0, (endTime || 0) - now)` (background.js:155). */
  function RemainingAt(endTime: Option<int>, now: int): (r: int)
    ensures r >= 0 && r >= endTime.GetOr(0) - now
    ensures r == 0 || r == endTime.GetOr(0) - now
  {
    var left := endTime.GetOr(0) - now;
    if left > 0 then left else 0
  }

  /** Whether a phase can be paused: only a running focus or break. */
  predicate Running(phase: Phase)
    ensures Running(phase) <==> phase != Idle && phase != Paused
  {
    phase == Focus || phase == Break
  }

  /**
   * `pauseTimer` (background.js:152-165): a running phase becomes `Paused`
   * with the time left recorded and the end time and rules dropped; any
   * other phase is left as it is.
   */
  function TimerPaused(st: SessionState, now: int): (r: SessionState)
    ensures !Running(st.phase) ==> r == st
    ensures Running(st.phase) ==>
      && r.phase == Paused && r.paused && r.endTime == None && r.activeRuleIds == []
      && r.remainingMs == Some(RemainingAt(st.endTime, now))
      && r.pomodorosCompleted == st.pomodorosCompleted
  {
    if Running(st.phase) then
      st.(paused := true, phase := Paused, remainingMs := Some(RemainingAt(st.endTime, now)),
          endTime := None, activeRuleIds := [])
    else st
  }

  /** Whether `resumeTimer` acts on a record (background.js:169). */
  predicate Resumable(st: SessionState)
    ensures Resumable(st) ==> !Running(st.phase) && st.remainingMs != None
  {
    st.phase == Paused && st.remainingMs.Some?
  }

  /**
   * `resumeTimer` (background.js:167-181), as written: the end time is set
   * from the remembered time left, but the phase stays `Paused` and the time
   * left stays recorded; when no rule is tracked, the whole blocklist is
   * blocked again, whichever phase was paused.
   */
  function TimerResumed(st: SessionState, blocklist: seq<string>, now: int): (r: SessionState)
    ensures !Resumable(st) ==> r == st
    ensures Resumable(st) ==>
      && r.phase == Paused && r.remainingMs == st.remainingMs && !r.paused
      && r.endTime == Some(now + st.remainingMs.value)
      && r.activeRuleIds == (if st.activeRuleIds == [] then RuleIds(blocklist) else st.activeRuleIds)
      && r.pomodorosCompleted == st.pomodorosCompleted
  {
    if Resumable(st) then
      var ids := if |st.activeRuleIds| == 0 then RuleIds(blocklist) else st.activeRuleIds;
      st.(endTime := Some(now + st.remainingMs.value), paused := false, activeRuleIds := ids)
    else st
  }

  /**
   * Pausing and then resuming a running phase, as written: the "no tracked
   * rule means focus" test always holds, so the whole blocklist is blocked
   * again even after a break; the session ends up `Paused`, with the time
   * left at pause both recorded and added to the resume time.
   */
  lemma PauseThenResume(st: SessionState, blocklist: seq<string>, pausedAt: int, resumedAt: int)
    requires Running(st.phase)
    ensures var r := TimerResumed(TimerPaused(st, pausedAt), blocklist, resumedAt);
      && r.phase == Paused && !r.paused
      && r.activeRuleIds == RuleIds(blocklist)
      && r.remainingMs == Some(RemainingAt(st.endTime, pausedAt))
      && r.endTime == Some(resumedAt + RemainingAt(st.endTime, pausedAt))
      && r.pomodorosCompleted == st.pomodorosCompleted
  {
    var p := TimerPaused(st, pausedAt);
    assert Resumable(p) && p.activeRuleIds == [];
  }

  /**
   * The alarm listener's guard (background.js:201): an end time is set, is
   * not 0 (JavaScript treats 0 as absent), and is at most 500 ms away.
   */
  predicate AlarmDue(st: SessionState, now: int)
    ensures st.endTime == None || st.endTime == Some(0) ==> !AlarmDue(st, now)
    ensures st.endTime.Some? && st.endTime.value != 0 ==>
      (AlarmDue(st, now) <==> st.endTime.value - now <= ExpiryToleranceMs)
  {
    st.endTime.Some? && st.endTime.value != 0 && now >= st.endTime.value - ExpiryToleranceMs
  }

  /** A runtime message the worker answers (background.js:227-273). */
  datatype Message =
    | StateGet
    | TimerStartFocus
    | TimerStartBreak
    | TimerPause
    | TimerResume
    | TimerReset
    | TimerSwitch
    | SettingsGet
    | SettingsSet(settings: Settings)
    | BlocklistGet
    | BlocklistSet(blocklist: seq<string>)
    | Unrecognised

  /** What `sendResponse` is called with. */
  datatype Response =
    | StateReply(state: SessionState)
    | SettingsReply(settings: Settings)
    | BlocklistReply(blocklist: seq<string>)
    | Ack(ok: bool)

  /** The background worker with the browser state it owns. */
  class Extension {
    /** `storage.sync` key "settings". */
    var syncSettings: Option<Settings>
    /** `storage.sync` key "blocklist". */
    var syncBlocklist: Option<seq<string>>
    /** `storage.sync` key "state": read at install time, written by nothing. */
    var syncState: Option<SessionState>
    /** `storage.local` key "state". */
    var localState: Option<SessionState>
    /** The dynamic rule table of `declarativeNetRequest`. */
    var rules: RuleTable
    /** Deadline of the armed "phaseEnd" alarm, if any. */
    var alarm: Option<int>
    /** The blocklist whose rules are installed. */
    ghost var applied: seq<string>

    /** `getSettings` (background.js:40-43): the stored settings, else the defaults. */
    function CurrentSettings(): (s: Settings)
      reads this
      ensures syncSettings.Some? ==> s == syncSettings.value
      ensures syncSettings.None? ==> s == Settings(25, 5)
    {
      syncSettings.GetOr(DefaultSettings)
    }

    /** `getBlocklist` (background.js:47-50): the stored blocklist, else empty. */
    function CurrentBlocklist(): (b: seq<string>)
      reads this
      ensures syncBlocklist.Some? ==> b == syncBlocklist.value
      ensures syncBlocklist.None? ==> b == []
    {
      syncBlocklist.GetOr([])
    }

    /** `getState` (background.js:54-57): the stored record, else the default one. */
    function State(): (st: SessionState)
      reads this
      ensures localState.Some? ==> st == localState.value
      ensures localState.None? ==>
        && st.phase == Idle && st.endTime == None && !st.paused && st.remainingMs == None
        && st.pomodorosCompleted == 0 && st.activeRuleIds == []
    {
      localState.GetOr(DefaultState)
    }

    /** The tracked rule ids are exactly the rules installed, for the blocklist last applied. */
    ghost predicate Tracked()
      reads this
    {
      rules == BlockTable(applied) && State().activeRuleIds == RuleIds(applied)
    }

    /** The worker's invariant: rules are tracked, and a focus phase blocks the current blocklist. */
    ghost predicate Valid()
      reads this
    {
      Tracked() && (State().phase == Focus ==> applied == CurrentBlocklist())
    }

    /** A freshly installed worker: nothing stored, no rule, no alarm. */
    constructor ()
      ensures Valid()
      ensures syncSettings == None && syncBlocklist == None && syncState == None && localState == None
      ensures rules == map[] && alarm == None
    {
      syncSettings, syncBlocklist, syncState, localState := None, None, None, None;
      rules, alarm := map[], None;
      applied := [];
    }

    /** `setState` (background.js:58-67); callers pass the current record with their patch applied. */
    method SetState(next: SessionState)
      modifies this`localState
      ensures localState == Some(next)
    {
      localState := Some(next);
    }

    /** `scheduleEndAlarm` (background.js:191-194): the one alarm now fires at `endTime`. */
    method ScheduleEndAlarm(endTime: int)
      modifies this`alarm
      ensures alarm == Some(endTime)
    {
      alarm := Some(endTime);
    }

    /** `clearEndAlarm` (background.js:195-197). */
    method ClearEndAlarm()
      modifies this`alarm
      ensures alarm == None
    {
      alarm := None;
    }

    /**
     * `applyBlockRules` (background.js:70-104): removes every tracked rule and
     * adds one rule per domain, then tracks the new ids.
     */
    method ApplyBlockRules(domains: seq<string>)
      requires Tracked()
      modifies this`rules, this`localState, this`applied
      ensures Tracked() && applied == domains
      ensures UpdateAccepted(old(rules), old(State()).activeRuleIds, domains)
      ensures rules == Updated(old(rules), old(State()).activeRuleIds, domains)
      ensures rules == BlockTable(domains)
      ensures State() == old(State()).(activeRuleIds := RuleIds(domains))
    {
      var toRemove := State().activeRuleIds;
      UpdateReplaces(applied, domains);
      TrackedUpdateAccepted(applied, domains);
      rules := Updated(rules, toRemove, domains);
      SetState(State().(activeRuleIds := RuleIds(domains)));
      applied := domains;
    }

    /**
     * `clearBlockRules` (background.js:106-115): removes exactly the tracked
     * rules; with none tracked it neither touches the table nor writes storage.
     */
    method ClearBlockRules()
      requires Tracked()
      modifies this`rules, this`localState, this`applied
      ensures Tracked() && applied == [] && rules == map[]
      ensures State() == old(State()).(activeRuleIds := [])
      ensures old(State()).activeRuleIds == [] ==> rules == old(rules) && localState == old(localState)
    {
      var ids := State().activeRuleIds;
      if |ids| > 0 {
        InstallThenClear(applied);
        rules := Updated(rules, ids, []);
        SetState(State().(activeRuleIds := []));
      } else {
        assert BlockTable(applied) == map[];
      }
      applied := [];
    }

    /** `startFocus` (background.js:118-126). */
    method StartFocus(now: int)
      requires Valid()
      modifies this`rules, this`localState, this`applied, this`alarm
      ensures Valid()
      ensures State() == FocusStarted(old(State()), CurrentSettings(), CurrentBlocklist(), now)
      ensures rules == BlockTable(CurrentBlocklist())
      ensures alarm == State().endTime
    {
      var focusMinutes := CurrentSettings().focusMinutes;
      var endTime := now + focusMinutes * MsPerMinute;
      var blocklist := CurrentBlocklist();
      ApplyBlockRules(blocklist);
      SetState(State().(phase := Focus, endTime := Some(endTime), paused := false, remainingMs := None));
      ScheduleEndAlarm(endTime);
    }

    /** `startBreak` (background.js:128-144). */
    method StartBreak(now: int)
      requires Valid()
      modifies this`rules, this`localState, this`applied, this`alarm
      ensures Valid()
      ensures State() == BreakStarted(old(State()), CurrentSettings(), now)
      ensures rules == map[]
      ensures alarm == State().endTime
    {
      var breakMinutes := CurrentSettings().breakMinutes;
      var endTime := now + breakMinutes * MsPerMinute;
      ClearBlockRules();
      var st := State();
      var add := if st.phase == Focus then 1 else 0;
      SetState(st.(phase := Break, endTime := Some(endTime), paused := false, remainingMs := None,
                   pomodorosCompleted := st.pomodorosCompleted + add));
      ScheduleEndAlarm(endTime);
    }

    /** `resetTimer` (background.js:146-150): every field back to its default. */
    method ResetTimer()
      requires Valid()
      modifies this`rules, this`localState, this`applied, this`alarm
      ensures Valid()
      ensures State() == DefaultState && rules == map[] && alarm == None
    {
      ClearBlockRules();
      ClearEndAlarm();
      SetState(DefaultState);
    }

    /** `pauseTimer` (background.js:152-165). */
    method PauseTimer(now: int)
      requires Valid()
      modifies this`rules, this`localState, this`applied, this`alarm
      ensures Valid()
      ensures State() == TimerPaused(old(State()), now)
      ensures Running(old(State()).phase) ==> rules == map[] && alarm == None
      ensures !Running(old(State()).phase) ==>
        localState == old(localState) && rules == old(rules) && alarm == old(alarm)
    {
      var st := State();
      if st.phase == Focus || st.phase == Break {
        var remainingMs := RemainingAt(st.endTime, now);
        ClearEndAlarm();
        SetState(State().(paused := true, phase := Paused, remainingMs := Some(remainingMs), endTime := None));
        ClearBlockRules();
      }
    }

    /** `resumeTimer` (background.js:167-181), as written. */
    method ResumeTimer(now: int)
      requires Valid()
      modifies this`rules, this`localState, this`applied, this`alarm
      ensures Valid()
      ensures State() == TimerResumed(old(State()), CurrentBlocklist(), now)
      ensures Resumable(old(State())) ==> alarm == State().endTime
      ensures Resumable(old(State())) && old(State()).activeRuleIds == [] ==> rules == BlockTable(CurrentBlocklist())
      ensures Resumable(old(State())) && old(State()).activeRuleIds != [] ==> rules == old(rules)
      ensures !Resumable(old(State())) ==>
        localState == old(localState) && rules == old(rules) && alarm == old(alarm)
    {
      var st := State();
      if st.phase == Paused && st.remainingMs.Some? {
        var endTime := now + st.remainingMs.value;
        SetState(State().(endTime := Some(endTime), paused := false));
        // The pre-pause phase is not stored: "no tracked rule" is taken to mean focus.
        var toReblock := |st.activeRuleIds| == 0;
        if toReblock {
          var blocklist := CurrentBlocklist();
          ApplyBlockRules(blocklist);
          assert State() == TimerResumed(st, blocklist, now);
        } else {
          assert st.activeRuleIds != [];
          assert State().activeRuleIds == st.activeRuleIds;
        }
        assert Tracked() && State().phase == Paused;
        ScheduleEndAlarm(endTime);
      }
    }

    /** `switchPhase` (background.js:183-187): focus goes to a break, every other phase to focus. */
    method SwitchPhase(now: int)
      requires Valid()
      modifies this`rules, this`localState, this`applied, this`alarm
      ensures Valid()
      ensures old(State()).phase == Focus ==> State() == BreakStarted(old(State()), CurrentSettings(), now) && rules == map[]
      ensures old(State()).phase != Focus ==>
        State() == FocusStarted(old(State()), CurrentSettings(), CurrentBlocklist(), now)
        && rules == BlockTable(CurrentBlocklist())
      ensures alarm == State().endTime
    {
      var st := State();
      if st.phase == Focus {
        StartBreak(now);
      } else {
        StartFocus(now);
      }
    }

    /**
     * The alarm listener (background.js:198-209). An alarm named "phaseEnd"
     * is the worker's one-shot alarm, which the browser has dropped once it
     * fires; if the session is due, a focus phase moves to a break and a break
     * to focus, while idle and paused sessions are left alone.
     */
    method OnAlarm(name: string, now: int)
      requires Valid()
      modifies this`rules, this`localState, this`applied, this`alarm
      ensures Valid()
      ensures name != AlarmName ==> localState == old(localState) && rules == old(rules) && alarm == old(alarm)
      ensures name == AlarmName && AlarmDue(old(State()), now) && old(State()).phase == Focus ==>
        State() == BreakStarted(old(State()), CurrentSettings(), now) && rules == map[] && alarm == State().endTime
      ensures name == AlarmName && AlarmDue(old(State()), now) && old(State()).phase == Break ==>
        && State() == FocusStarted(old(State()), CurrentSettings(), CurrentBlocklist(), now)
        && rules == BlockTable(CurrentBlocklist()) && alarm == State().endTime
      ensures name == AlarmName && !(AlarmDue(old(State()), now) && Running(old(State()).phase)) ==>
        localState == old(localState) && rules == old(rules) && alarm == None
    {
      if name != AlarmName {
        return;
      }
      alarm := None;
      var st := State();
      if st.endTime.None? || st.endTime.value == 0 || now < st.endTime.value - ExpiryToleranceMs {
        return;
      }
      if st.phase == Focus {
        StartBreak(now);
      } else if st.phase == Break {
        StartFocus(now);
      }
    }

    /** The "blocklist:set" handler (background.js:265-269): store, and re-block only during focus. */
    method SetBlocklist(blocklist: seq<string>)
      requires Valid()
      modifies this`syncBlocklist, this`rules, this`localState, this`applied
      ensures Valid()
      ensures syncBlocklist == Some(blocklist)
      ensures old(State()).phase == Focus ==>
        State() == old(State()).(activeRuleIds := RuleIds(blocklist)) && rules == BlockTable(blocklist)
      ensures old(State()).phase != Focus ==> localState == old(localState) && rules == old(rules)
    {
      syncBlocklist := Some(blocklist);
      var st := State();
      if st.phase == Focus {
        ApplyBlockRules(blocklist);
      }
    }

    /** The "settings:set" handler (background.js:258-261). */
    method SetSettings(settings: Settings)
      requires Valid()
      modifies this`syncSettings
      ensures Valid()
      ensures syncSettings == Some(settings)
    {
      syncSettings := Some(settings);
    }

    /**
     * Install-time seeding (background.js:25-37) with the state looked up
     * where it is kept, in `storage.local`: each key is written with its
     * default only when absent, so what the getters return never changes.
     */
    method OnInstalled()
      requires Valid()
      modifies this`syncSettings, this`syncBlocklist, this`localState
      ensures Valid()
      ensures syncSettings.Some? && syncBlocklist.Some? && localState.Some?
      ensures old(syncSettings).Some? ==> syncSettings == old(syncSettings)
      ensures old(syncBlocklist).Some? ==> syncBlocklist == old(syncBlocklist)
      ensures old(localState).Some? ==> localState == old(localState)
      ensures CurrentSettings() == old(CurrentSettings())
      ensures CurrentBlocklist() == old(CurrentBlocklist())
      ensures State() == old(State())
    {
      if syncSettings.None? {
        syncSettings := Some(DefaultSettings);
      }
      if syncBlocklist.None? {
        syncBlocklist := Some([]);
      }
      if localState.None? {
        localState := Some(DefaultState);
      }
    }

    /**
     * Install-time seeding as written (background.js:25-37): the presence of
     * "state" is checked in `storage.sync`, where nothing ever stores it, so
     * the default record overwrites `storage.local` on every install or
     * update event, whatever rules are installed.
     */
    method OnInstalledAsWritten()
      requires Valid()
      modifies this`syncSettings, this`syncBlocklist, this`localState
      ensures syncSettings == (if old(syncSettings).Some? then old(syncSettings) else Some(DefaultSettings))
      ensures syncBlocklist == (if old(syncBlocklist).Some? then old(syncBlocklist) else Some([]))
      ensures localState == (if syncState.Some? then old(localState) else Some(DefaultState))
    {
      if syncSettings.None? {
        syncSettings := Some(DefaultSettings);
      }
      if syncBlocklist.None? {
        syncBlocklist := Some([]);
      }
      if syncState.None? {
        localState := Some(DefaultState);
      }
    }

    /** The message listener (background.js:225-277), each message handled to completion. */
    method HandleMessage(msg: Message, now: int) returns (resp: Response)
      requires Valid()
      modifies this`syncSettings, this`syncBlocklist, this`localState, this`rules, this`alarm, this`applied
      ensures Valid()
      ensures resp == match msg
        case StateGet => StateReply(old(State()))
        case SettingsGet => SettingsReply(old(CurrentSettings()))
        case BlocklistGet => BlocklistReply(old(CurrentBlocklist()))
        case Unrecognised => Ack(false)
        case _ => Ack(true)
      ensures msg.StateGet? || msg.SettingsGet? || msg.BlocklistGet? || msg.Unrecognised? ==>
        unchanged(this)
      // Only the two "set" messages write the synced keys.
      ensures !msg.SettingsSet? ==> syncSettings == old(syncSettings)
      ensures !msg.BlocklistSet? ==> syncBlocklist == old(syncBlocklist)
      ensures msg.TimerStartFocus? ==>
        && State() == FocusStarted(old(State()), old(CurrentSettings()), old(CurrentBlocklist()), now)
        && rules == BlockTable(old(CurrentBlocklist())) && alarm == State().endTime
      ensures msg.TimerStartBreak? ==>
        && State() == BreakStarted(old(State()), old(CurrentSettings()), now)
        && rules == map[] && alarm == State().endTime
      ensures msg.TimerPause? ==> State() == TimerPaused(old(State()), now)
      ensures msg.TimerPause? && Running(old(State()).phase) ==> rules == map[] && alarm == None
      ensures msg.TimerPause? && !Running(old(State()).phase) ==>
        localState == old(localState) && rules == old(rules) && alarm == old(alarm)
      ensures msg.TimerResume? ==> State() == TimerResumed(old(State()), old(CurrentBlocklist()), now)
      ensures msg.TimerResume? && Resumable(old(State())) ==> alarm == State().endTime
      ensures msg.TimerResume? && Resumable(old(State())) && old(State()).activeRuleIds == [] ==>
        rules == BlockTable(old(CurrentBlocklist()))
      ensures msg.TimerResume? && Resumable(old(State())) && old(State()).activeRuleIds != [] ==>
        rules == old(rules)
      ensures msg.TimerResume? && !Resumable(old(State())) ==>
        localState == old(localState) && rules == old(rules) && alarm == old(alarm)
      ensures msg.TimerReset? ==> State() == DefaultState && rules == map[] && alarm == None
      ensures msg.TimerSwitch? && old(State()).phase == Focus ==>
        && State() == BreakStarted(old(State()), old(CurrentSettings()), now)
        && rules == map[] && alarm == State().endTime
      ensures msg.TimerSwitch? && old(State()).phase != Focus ==>
        && State() == FocusStarted(old(State()), old(CurrentSettings()), old(CurrentBlocklist()), now)
        && rules == BlockTable(old(CurrentBlocklist())) && alarm == State().endTime
      ensures msg.SettingsSet? ==>
        && syncSettings == Some(msg.settings)
        && localState == old(localState) && rules == old(rules) && alarm == old(alarm)
      ensures msg.BlocklistSet? ==> syncBlocklist == Some(msg.blocklist) && alarm == old(alarm)
      ensures msg.BlocklistSet? && old(State()).phase == Focus ==>
        State() == old(State()).(activeRuleIds := RuleIds(msg.blocklist)) && rules == BlockTable(msg.blocklist)
      ensures msg.BlocklistSet? && old(State()).phase != Focus ==>
        localState == old(localState) && rules == old(rules)
    {
      match msg {
        case StateGet =>
          resp := StateReply(State());
        case TimerStartFocus =>
          StartFocus(now);
          resp := Ack(true);
        case TimerStartBreak =>
          StartBreak(now);
          resp := Ack(true);
        case TimerPause =>
          PauseTimer(now);
          resp := Ack(true);
        case TimerResume =>
          ResumeTimer(now);
          resp := Ack(true);
        case TimerReset =>
          ResetTimer();
          resp := Ack(true);
        case TimerSwitch =>
          SwitchPhase(now);
          resp := Ack(true);
        case SettingsGet =>
          resp := SettingsReply(CurrentSettings());
        case SettingsSet(settings) =>
          SetSettings(settings);
          resp := Ack(true);
        case BlocklistGet =>
          resp := BlocklistReply(CurrentBlocklist());
        case BlocklistSet(blocklist) =>
          SetBlocklist(blocklist);
          resp := Ack(true);
        case Unrecognised =>
          resp := Ack(false);
      }
    }
  }
}
