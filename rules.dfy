/**
 * The blocking rules the extension installs in the browser's dynamic rule
 * table (background.js:69-115), with the platform's table abstracted to a map
 * from rule id to the domain that rule blocks.
 */
module Rules {

  /** First id of the extension's rule range (background.js:6). */
  const RuleBaseId: int := 1000

  /** The dynamic rule table: rule id to blocked domain. */
  type RuleTable = map<int, string>

  /** Whether `id` lies in the rule range of a blocklist of `n` domains. */
  predicate InRange(id: int, n: nat) {
    RuleBaseId <= id < RuleBaseId + n
  }

  /** `domains.map((_, i) => RULE_BASE_ID + i)` (background.js:71). */
  function RuleIds(domains: seq<string>): (ids: seq<int>)
    ensures |ids| == |domains|
    ensures |domains| > 0 ==> ids[0] == RuleBaseId
  {
    seq(|domains|, i requires 0 <= i < |domains| => RuleBaseId + i)
  }

  /**
   * A blocklist gets one id per domain, the ids are pairwise distinct, and
   * they are exactly the range starting at `RuleBaseId`.
   */
  lemma {:induction false} RuleIdsSpec(domains: seq<string>)
    ensures |RuleIds(domains)| == |domains|
    ensures forall i, j :: 0 <= i < j < |domains| ==> RuleIds(domains)[i] != RuleIds(domains)[j]
    ensures forall id :: id in RuleIds(domains) <==> InRange(id, |domains|)
  {
    var ids := RuleIds(domains);
    forall id | InRange(id, |domains|) ensures id in ids {
      assert ids[id - RuleBaseId] == id;
    }
  }

  /** The `addRules` of `applyBlockRules` (background.js:72-92), as a table: rule `RuleBaseId + i` blocks `domains[i]`. */
  function BlockTable(domains: seq<string>): (table: RuleTable)
    ensures table == map[] <==> domains == []
  {
    var table := map id | InRange(id, |domains|) && id in RuleIds(domains) :: domains[id - RuleBaseId];
    assert |domains| > 0 ==> RuleIds(domains)[0] == RuleBaseId && RuleBaseId in table;
    table
  }

  /** Exactly one rule per domain: its id is the domain's id, and there is no other rule. */
  lemma {:induction false} BlockTableSpec(domains: seq<string>)
    ensures forall id :: id in BlockTable(domains) <==> id in RuleIds(domains)
    ensures forall i :: 0 <= i < |domains| ==> BlockTable(domains)[RuleIds(domains)[i]] == domains[i]
  {
    RuleIdsSpec(domains);
    var table := BlockTable(domains);
    forall i | 0 <= i < |domains| ensures RuleIds(domains)[i] in table {
      assert InRange(RuleIds(domains)[i], |domains|);
    }
  }

  /** The ids of a list, as the set the platform removes. */
  function IdSet(ids: seq<int>): set<int> {
    set id | id in ids
  }

  /**
   * One `updateDynamicRules` call: first every id in `removeIds` leaves the
   * table, then the rules for `domains` are added.
   */
  function Updated(table: RuleTable, removeIds: seq<int>, domains: seq<string>): (r: RuleTable)
    ensures BlockTable(domains).Keys <= r.Keys <= table.Keys + BlockTable(domains).Keys
    ensures removeIds == [] && domains == [] ==> r == table
    ensures forall id :: id in removeIds && id !in BlockTable(domains) ==> id !in r
    ensures forall id :: id in BlockTable(domains) ==> r[id] == BlockTable(domains)[id]
    ensures forall id :: id in table && id !in removeIds && id !in BlockTable(domains) ==>
      id in r && r[id] == table[id]
  {
    (table - IdSet(removeIds)) + BlockTable(domains)
  }

  /**
   * Reconciliation replaces rather than diffs: when the tracked ids are exactly
   * the installed rules, the table afterwards holds the new rules and nothing else.
   */
  lemma {:induction false} UpdateReplaces(previous: seq<string>, domains: seq<string>)
    ensures Updated(BlockTable(previous), RuleIds(previous), domains) == BlockTable(domains)
  {
    BlockTableSpec(previous);
    var kept := BlockTable(previous) - IdSet(RuleIds(previous));
    assert kept == map[] by {
      assert forall id :: id in BlockTable(previous) ==> id in IdSet(RuleIds(previous));
    }
  }

  /** Installing a blocklist and then removing the returned ids leaves no rule. */
  lemma {:induction false} InstallThenClear(domains: seq<string>)
    ensures Updated(BlockTable(domains), RuleIds(domains), []) == map[]
  {
    UpdateReplaces(domains, []);
    assert BlockTable([]) == map[];
  }

  /** Re-applying a blocklist gives ids that depend only on its length, and the same table. */
  lemma {:induction false} ReapplyIsStable(a: seq<string>, b: seq<string>)
    ensures RuleIds(a) == RuleIds(b) <==> |a| == |b|
    ensures Updated(BlockTable(a), RuleIds(a), a) == BlockTable(a)
  {
    UpdateReplaces(a, a);
  }

  /**
   * Whether the platform accepts an update: it refuses to add a rule whose id
   * is still in the table once the removals are done.
   */
  predicate UpdateAccepted(table: RuleTable, removeIds: seq<int>, domains: seq<string>)
    ensures UpdateAccepted(table, removeIds, domains) <==>
      (table - IdSet(removeIds)).Keys !! BlockTable(domains).Keys
  {
    BlockTableSpec(domains);
    forall id :: id in RuleIds(domains) ==> id !in table || id in removeIds
  }

  /** When the tracked ids are the installed rules, every update is accepted. */
  lemma {:induction false} TrackedUpdateAccepted(previous: seq<string>, domains: seq<string>)
    ensures UpdateAccepted(BlockTable(previous), RuleIds(previous), domains)
  {
    BlockTableSpec(previous);
  }

  /**
   * A rule left in the range without being tracked blocks every later focus
   * start: with nothing tracked nothing is removed, and re-adding its id is refused.
   */
  lemma {:induction false} UntrackedRuleBlocksUpdates(table: RuleTable, domains: seq<string>)
    requires RuleBaseId in table && |domains| > 0
    ensures !UpdateAccepted(table, [], domains)
  {
    assert RuleIds(domains)[0] == RuleBaseId;
  }
}
