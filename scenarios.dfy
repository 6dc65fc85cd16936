/**
 * Runs of the background worker and the options page, driven only through the
 * contracts of their methods: what a user sees after a sequence of commands.
 * Times are milliseconds from an arbitrary origin; the settings are the
 * defaults (25-minute focus, 5-minute break).
 */
module Scenarios {
  import opened Common
  import opened Rules
  import opened Session
  import opened Options

  const Minute := MsPerMinute

  /** A one-domain blocklist gets the first id of the range, and one rule for that domain. */
  lemma SingleDomain(domain: string)
    ensures RuleIds([domain]) == [RuleBaseId]
    ensures BlockTable([domain]) == map[RuleBaseId := domain]
  {
    BlockTableSpec([domain]);
    RuleIdsSpec([domain]);
    assert RuleIds([domain])[0] == RuleBaseId;
  }

  /**
   * A worker right after its first install. Both storage areas are empty
   * then, so the seeding as written and the corrected one write the same
   * defaults; they differ only on later install or update events.
   */
  method Installed() returns (ext: Extension)
    ensures fresh(ext) && ext.Valid()
    ensures ext.CurrentSettings() == DefaultSettings && ext.CurrentBlocklist() == []
    ensures ext.State() == DefaultState && ext.rules == map[] && ext.alarm == None
    ensures ext.syncState == None
  {
    ext := new Extension();
    ext.OnInstalled();
  }

  /** A fresh install answers the defaults: 25/5 minutes, an empty blocklist, an idle session. */
  method FreshInstall() returns (settings: Settings, blocklist: seq<string>, state: SessionState)
    ensures settings == Settings(25, 5) && blocklist == []
    ensures state.phase == Idle && state.pomodorosCompleted == 0 && state.activeRuleIds == []
    ensures state.endTime == None && state.remainingMs == None
  {
    var ext := Installed();
    var r1 := ext.HandleMessage(SettingsGet, 0);
    var r2 := ext.HandleMessage(BlocklistGet, 0);
    var r3 := ext.HandleMessage(StateGet, 0);
    settings, blocklist, state := r1.settings, r2.blocklist, r3.state;
  }

  /**
   * One blocked site: focus installs exactly its rule, pausing removes it,
   * resuming installs it again. The phase after resuming is still `Paused`.
   */
  method FocusPauseResumeRules() returns (focusing: RuleTable, pausing: RuleTable, resumed: RuleTable, phase: Phase)
    ensures focusing == map[RuleBaseId := "youtube.com"]
    ensures pausing == map[]
    ensures resumed == map[RuleBaseId := "youtube.com"]
    ensures phase == Paused
  {
    SingleDomain("youtube.com");
    var ext := Installed();
    ext.SetBlocklist(["youtube.com"]);
    ext.StartFocus(0);
    focusing := ext.rules;
    ext.PauseTimer(10 * Minute);
    pausing := ext.rules;
    ext.ResumeTimer(11 * Minute);
    resumed := ext.rules;
    phase := ext.State().phase;
  }

  /**
   * Pause and resume keep the time left: 10 minutes into a 25-minute focus,
   * 15 minutes are recorded, and resuming at minute 12 ends at minute 27.
   * Afterwards both the end time and the time left are set.
   */
  method PauseResumeKeepsTimeLeft() returns (remaining: Option<int>, endTime: Option<int>, remainingAfter: Option<int>)
    ensures remaining == Some(15 * Minute)
    ensures endTime == Some(27 * Minute)
    ensures remainingAfter == Some(15 * Minute)
  {
    var ext := Installed();
    ext.StartFocus(0);
    ext.PauseTimer(10 * Minute);
    remaining := ext.State().remainingMs;
    ext.ResumeTimer(12 * Minute);
    endTime := ext.State().endTime;
    remainingAfter := ext.State().remainingMs;
  }

  /**
   * A resumed session never ends: its phase is still `Paused`, so when the
   * alarm fires at the new end time the listener does nothing and the
   * pomodoro is not counted.
   */
  method ResumedSessionNeverExpires() returns (phase: Phase, completed: int, alarm: Option<int>)
    ensures phase == Paused && completed == 0 && alarm == None
  {
    var ext := Installed();
    ext.StartFocus(0);
    ext.PauseTimer(10 * Minute);
    ext.ResumeTimer(11 * Minute);
    ext.OnAlarm(AlarmName, 26 * Minute);
    phase, completed, alarm := ext.State().phase, ext.State().pomodorosCompleted, ext.alarm;
  }

  /** Pausing a break and resuming it blocks the blocklist during the break. */
  method ResumedBreakBlocks() returns (rules: RuleTable, ids: seq<int>)
    ensures rules == map[RuleBaseId := "youtube.com"]
    ensures ids == [RuleBaseId]
  {
    SingleDomain("youtube.com");
    var ext := Installed();
    ext.SetBlocklist(["youtube.com"]);
    ext.StartBreak(0);
    assert ext.rules == map[];
    ext.PauseTimer(Minute);
    ext.ResumeTimer(2 * Minute);
    rules, ids := ext.rules, ext.State().activeRuleIds;
  }

  /**
   * The expiry alarm is one-shot. Every path arms it at exactly the stored end
   * time, so an early firing assumes the browser fires it before its deadline;
   * fired 501 ms before the end, it is ignored, and nothing arms it again: the
   * focus phase is stranded with no alarm. A
   * focus whose alarm fires 500 ms early starts a break that counts one
   * pomodoro and blocks nothing.
   */
  method FocusExpires() returns (tooEarly: Phase, stranded: Option<int>, phase: Phase, completed: int, rules: RuleTable)
    ensures tooEarly == Focus && stranded == None
    ensures phase == Break && completed == 1 && rules == map[]
  {
    var early := Installed();
    early.SetBlocklist(["youtube.com"]);
    early.StartFocus(0);
    early.OnAlarm(AlarmName, 25 * Minute - 501);
    tooEarly, stranded := early.State().phase, early.alarm;

    var due := Installed();
    due.SetBlocklist(["youtube.com"]);
    due.StartFocus(0);
    due.OnAlarm(AlarmName, 25 * Minute - 500);
    phase, completed, rules := due.State().phase, due.State().pomodorosCompleted, due.rules;
  }

  /**
   * The counter moves once per focus-to-break transition, by switch or by
   * alarm, never on break-to-focus, and reset returns it to 0.
   */
  method PomodoroCounter() returns (counts: seq<int>)
    ensures counts == [0, 1, 1, 2, 2, 0]
  {
    var ext := Installed();
    ext.StartFocus(0);
    var c0 := ext.State().pomodorosCompleted;
    ext.SwitchPhase(Minute);
    var c1 := ext.State().pomodorosCompleted;
    ext.OnAlarm(AlarmName, 6 * Minute);
    var c2 := ext.State().pomodorosCompleted;
    ext.OnAlarm(AlarmName, 31 * Minute);
    var c3 := ext.State().pomodorosCompleted;
    ext.StartBreak(32 * Minute);
    var c4 := ext.State().pomodorosCompleted;
    ext.ResetTimer();
    counts := [c0, c1, c2, c3, c4, ext.State().pomodorosCompleted];
  }

  /** Saving the same blocklist twice during focus leaves the same ids and the same rules. */
  method SetBlocklistTwice(blocklist: seq<string>) returns (ids1: seq<int>, ids2: seq<int>, rules1: RuleTable, rules2: RuleTable)
    ensures ids1 == ids2 == RuleIds(blocklist)
    ensures rules1 == rules2 == BlockTable(blocklist)
  {
    var ext := Installed();
    ext.StartFocus(0);
    ext.SetBlocklist(blocklist);
    ids1, rules1 := ext.State().activeRuleIds, ext.rules;
    ext.SetBlocklist(blocklist);
    ids2, rules2 := ext.State().activeRuleIds, ext.rules;
  }

  /**
   * An extension update during focus, with seeding as written: the session
   * record is reset to idle with no tracked rule while the focus rule stays
   * installed, so the worker's invariant is broken. With nothing tracked, a
   * clear removes nothing, and the update of the next focus start, which
   * removes nothing and re-adds rule 1000, is refused by the platform.
   */
  method UpdateDuringFocusAsWritten() returns (phase: Phase, tracked: seq<int>, rules: RuleTable)
    ensures phase == Idle && tracked == []
    ensures rules == map[RuleBaseId := "youtube.com"]
    ensures Updated(rules, tracked, []) == rules
    ensures !UpdateAccepted(rules, tracked, ["youtube.com"])
  {
    SingleDomain("youtube.com");
    var ext := Installed();
    ext.SetBlocklist(["youtube.com"]);
    ext.StartFocus(0);
    ext.OnInstalledAsWritten();
    phase, tracked, rules := ext.State().phase, ext.State().activeRuleIds, ext.rules;
    UntrackedRuleBlocksUpdates(rules, ["youtube.com"]);
  }

  /** The same update with seeding that looks for the state where it is kept: the focus session survives. */
  method UpdateDuringFocus() returns (phase: Phase, tracked: seq<int>, rules: RuleTable)
    ensures phase == Focus && tracked == [RuleBaseId]
    ensures rules == map[RuleBaseId := "youtube.com"]
  {
    SingleDomain("youtube.com");
    var ext := Installed();
    ext.SetBlocklist(["youtube.com"]);
    ext.StartFocus(0);
    ext.OnInstalled();
    phase, tracked, rules := ext.State().phase, ext.State().activeRuleIds, ext.rules;
  }

  /**
   * Loading the options page drops stored entries that are invalid (upper
   * case included, since loading does not normalise) or repeated.
   */
  method EditorLoad() returns (loaded: seq<string>)
    ensures loaded == ["x.com"]
  {
    var editor := new BlocklistEditor();
    var stored := ["AB.io", "x.com", "x.com", "a b"];
    editor.Load(Some(stored));
    loaded := editor.items;
    assert !DomainChar("AB.io"[0]) && !DomainChar("a b"[1]) && ValidDomain("x.com");
    assert Rebuilt(stored[..1]) == [] by {
      assert stored[..1][..0] == [];
    }
    assert Rebuilt(stored[..2]) == ["x.com"] by {
      assert stored[..2][..1] == stored[..1];
    }
    assert Rebuilt(stored[..3]) == ["x.com"] by {
      assert stored[..3][..2] == stored[..2];
    }
    assert stored[..4][..3] == stored[..3] && stored[..4] == stored;
  }

  /** One space on each side of a word is trimmed away. */
  lemma {:induction false} TrimPadded(core: string)
    requires |core| > 0 && !IsJsWhitespace(core[0]) && !IsJsWhitespace(core[|core| - 1])
    ensures Trim([' '] + core + [' ']) == core
  {
    var typed := [' '] + core + [' '];
    var inner := core + [' '];
    TrimStartStep(typed);
    assert typed[1..] == inner;
    TrimStartStep(inner);
    TrimEndStep(inner);
    assert inner[..|inner| - 1] == core;
    TrimEndStep(core);
  }

  /** Lower-casing a capitalised domain. */
  lemma ToLowerExample()
    ensures ToLower("AB.io") == "ab.io"
  {
    var lower := ToLower("AB.io");
    assert lower[0] == 'a' && lower[1] == 'b' && lower[2] == '.' && lower[3] == 'i' && lower[4] == 'o';
  }

  /** The "Add" button's normalisation on a padded, capitalised domain. */
  lemma NormalizeExample()
    ensures Normalize([' '] + "AB.io" + [' ']) == "ab.io"
  {
    TrimPadded("AB.io");
    ToLowerExample();
  }

  /** `ab.io` is a valid domain not yet in `["x.com"]`, so adding it appends it. */
  lemma AddExample()
    ensures AddOutcomeOf(["x.com"], "ab.io") == Added
    ensures WithItem(["x.com"], "ab.io") == ["x.com", "ab.io"]
  {
    var d := "ab.io";
    assert forall i :: 0 <= i < |d| ==> DomainChar(d[i]);
    assert d[0] != "x.com"[0];
  }

  /** Typing a domain with surrounding spaces and capitals adds its trimmed lower-case form at the end. */
  method EditorAdd() returns (outcome: AddOutcome, edited: seq<string>)
    ensures outcome == Added && edited == ["x.com", "ab.io"]
  {
    var editor := new BlocklistEditor();
    var first := editor.AddItem("x.com");
    assert editor.items == ["x.com"];
    NormalizeExample();
    AddExample();
    outcome := editor.SubmitDomain([' '] + "AB.io" + [' ']);
    edited := editor.items;
  }
}
