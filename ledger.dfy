/** The token quota ledger, `TokenUsageManager`: per project a daily limit, a
    daily usage and a total usage, plus the date the daily counters belong to.
    The pure functions on `LedgerState` say what each operation does to the
    ledger; the class below mutates its fields in place as the source does and
    is proved against them. The clock is a parameter (`today`, a date string
    such as "2026-10-14"); the JSON file is the field `saved`. */
module Ledger {
  import opened Optional

  /** `register_project`'s default `daily_limit`. */
  const DefaultDailyLimit: int := 1000000

  /** One entry of `usage_data["projects"]`. */
  datatype Account = Account(dailyLimit: int, dailyUsage: int, totalUsage: int)

  /** `usage_data`: the projects in insertion order (the order in which a
      Python dict iterates), their counters, and `last_updated`. */
  datatype LedgerState = LedgerState(order: seq<string>, projects: map<string, Account>, lastUpdated: string)

  /** The order lists every project exactly once. */
  predicate WellFormed(s: LedgerState) {
    && (forall i, j :: 0 <= i < j < |s.order| ==> s.order[i] != s.order[j])
    && (forall id :: id in s.projects ==> id in s.order)
    && (forall k :: 0 <= k < |s.order| ==> s.order[k] in s.projects)
  }

  /** The ledger `_load_usage_data` builds when there is no readable file. */
  function EmptyLedger(today: string): (s: LedgerState)
    ensures WellFormed(s) && s.projects == map[] && s.lastUpdated == today
  {
    LedgerState([], map[], today)
  }

  /** `register_project(id, limit)`: an unknown project is appended with the
      limit and zero usage; a known one gets the new limit and keeps its usage.
      No other project changes. */
  function Register(s: LedgerState, id: string, limit: int): (r: LedgerState)
    ensures WellFormed(s) ==> WellFormed(r)
    ensures id in r.projects && r.projects[id].dailyLimit == limit
    ensures id !in s.projects ==> r.projects[id] == Account(limit, 0, 0) && r.order == s.order + [id]
    ensures id in s.projects ==> && r.order == s.order
                                 && r.projects[id].dailyUsage == s.projects[id].dailyUsage
                                 && r.projects[id].totalUsage == s.projects[id].totalUsage
    ensures r.projects.Keys == s.projects.Keys + {id}
    ensures forall p :: p in s.projects && p != id ==> r.projects[p] == s.projects[p]
    ensures r.lastUpdated == s.lastUpdated
  {
    if id !in s.projects then
      s.(order := s.order + [id], projects := s.projects[id := Account(limit, 0, 0)])
    else
      s.(projects := s.projects[id := s.projects[id].(dailyLimit := limit)])
  }

  /** `record_usage(id, tokens)`: an unknown project is first registered with
      the default limit; then the tokens are added to both its daily and its
      total usage. Usage over the limit is recorded, never rejected. No other
      project changes. */
  function AddUsage(s: LedgerState, id: string, tokens: int): (r: LedgerState)
    ensures WellFormed(s) ==> WellFormed(r)
    ensures id in r.projects
    ensures id in s.projects ==> && r.order == s.order
                                 && r.projects[id].dailyLimit == s.projects[id].dailyLimit
                                 && r.projects[id].dailyUsage == s.projects[id].dailyUsage + tokens
                                 && r.projects[id].totalUsage == s.projects[id].totalUsage + tokens
    ensures id !in s.projects ==> && r.order == s.order + [id]
                                  && r.projects[id] == Account(DefaultDailyLimit, tokens, tokens)
    ensures r.projects.Keys == s.projects.Keys + {id}
    ensures forall p :: p in s.projects && p != id ==> r.projects[p] == s.projects[p]
    ensures r.lastUpdated == s.lastUpdated
  {
    var s1 := if id !in s.projects then Register(s, id, DefaultDailyLimit) else s;
    var a := s1.projects[id];
    s1.(projects := s1.projects[id := a.(dailyUsage := a.dailyUsage + tokens, totalUsage := a.totalUsage + tokens)])
  }

  function ZeroDaily(a: Account): Account {
    a.(dailyUsage := 0)
  }

  /** `reset_daily_counters_if_needed()`: on a new day every project's daily
      usage becomes 0 (limits and totals are kept) and the date advances; on
      the same day nothing changes. */
  function ResetIfNeeded(s: LedgerState, today: string): (r: LedgerState)
    ensures WellFormed(s) ==> WellFormed(r)
    ensures r.lastUpdated == today && r.order == s.order && r.projects.Keys == s.projects.Keys
    ensures forall p :: p in s.projects ==>
              && r.projects[p].dailyLimit == s.projects[p].dailyLimit
              && r.projects[p].totalUsage == s.projects[p].totalUsage
              && r.projects[p].dailyUsage == (if today != s.lastUpdated then 0 else s.projects[p].dailyUsage)
    ensures today == s.lastUpdated ==> r == s
  {
    if today != s.lastUpdated then
      s.(projects := map p | p in s.projects :: ZeroDaily(s.projects[p]), lastUpdated := today)
    else
      s
  }

  /** Resetting twice on the same day is resetting once. */
  lemma ResetIdempotent(s: LedgerState, today: string)
    ensures ResetIfNeeded(ResetIfNeeded(s, today), today) == ResetIfNeeded(s, today)
  {
  }

  /** The test that `get_available_project` applies to each listed id: an id
      the ledger does not know, or one still under its daily limit. */
  predicate Available(s: LedgerState, id: string) {
    id !in s.projects || s.projects[id].dailyUsage < s.projects[id].dailyLimit
  }

  /** Every listed id is a known project that has used up its daily limit,
      so that none of them is available. */
  predicate Exhausted(s: LedgerState, ids: seq<string>) {
    forall j :: 0 <= j < |ids| ==>
      ids[j] in s.projects && s.projects[ids[j]].dailyUsage >= s.projects[ids[j]].dailyLimit
  }

  /** The position of the first available id in the list (the list's length
      when there is none). */
  function FirstAvailable(s: LedgerState, ids: seq<string>): (k: nat)
    ensures k <= |ids|
    ensures forall j :: 0 <= j < k ==> !Available(s, ids[j])
    ensures k < |ids| ==> Available(s, ids[k])
    decreases |ids|
  {
    if ids == [] then 0
    else if Available(s, ids[0]) then 0
    else 1 + FirstAvailable(s, ids[1..])
  }

  datatype Selection = Selection(ledger: LedgerState, chosen: Option<string>)

  /** `get_available_project(ids)`: reset for the day, then the first listed id
      that is unknown (and is registered with the default limit on the spot,
      saving the ledger) or under its limit. */
  function Select(s: LedgerState, ids: seq<string>, today: string): (r: Selection)
    ensures WellFormed(s) ==> WellFormed(r.ledger)
    ensures r.chosen.None? <==> forall j :: 0 <= j < |ids| ==> !Available(ResetIfNeeded(s, today), ids[j])
    ensures r.chosen.None? <==> Exhausted(r.ledger, ids)
    ensures r.chosen.Some? ==> r.chosen.value in ids && Available(ResetIfNeeded(s, today), r.chosen.value)
    ensures r.chosen.None? || r.chosen.value in ResetIfNeeded(s, today).projects ==> r.ledger == ResetIfNeeded(s, today)
    ensures r.chosen.Some? && r.chosen.value !in ResetIfNeeded(s, today).projects ==>
              r.ledger == Register(ResetIfNeeded(s, today), r.chosen.value, DefaultDailyLimit)
  {
    var s0 := ResetIfNeeded(s, today);
    var k := FirstAvailable(s0, ids);
    if k == |ids| then
      Selection(s0, None)
    else if ids[k] !in s0.projects then
      Selection(Register(s0, ids[k], DefaultDailyLimit), Some(ids[k]))
    else
      Selection(s0, Some(ids[k]))
  }

  /** List order is priority: the id chosen comes before every other
      available id of the list. */
  lemma SelectRespectsOrder(s: LedgerState, ids: seq<string>, today: string, j: nat)
    requires j < |ids| && Available(ResetIfNeeded(s, today), ids[j])
    ensures Select(s, ids, today).chosen.Some?
    ensures Select(s, ids, today).chosen.value in ids[..j + 1]
  {
    var k := FirstAvailable(ResetIfNeeded(s, today), ids);
    assert k <= j;
    assert ids[k] == ids[..j + 1][k];
  }

  /** A selection never changes any project's total usage nor forgets a project. */
  lemma SelectKeepsTotals(s: LedgerState, ids: seq<string>, today: string)
    ensures var r := Select(s, ids, today).ledger;
      && s.projects.Keys <= r.projects.Keys
      && forall p :: p in s.projects ==> r.projects[p].totalUsage == s.projects[p].totalUsage
  {
  }

  /** One row of `get_usage_summary()` without the floating-point
      `percent_used`. */
  datatype SummaryRow = SummaryRow(projectId: string, dailyLimit: int, dailyUsage: int, remaining: int, totalUsage: int)

  function RowOf(s: LedgerState, id: string): SummaryRow
    requires id in s.projects
  {
    var a := s.projects[id];
    SummaryRow(id, a.dailyLimit, a.dailyUsage, a.dailyLimit - a.dailyUsage, a.totalUsage)
  }

  /** The rows for the given ids, in their order. */
  function RowsOf(s: LedgerState, ids: seq<string>): (rows: seq<SummaryRow>)
    requires forall k :: 0 <= k < |ids| ==> ids[k] in s.projects
    decreases |ids|
  {
    if ids == [] then [] else RowsOf(s, ids[..|ids| - 1]) + [RowOf(s, ids[|ids| - 1])]
  }

  lemma {:induction false} RowsOfAt(s: LedgerState, ids: seq<string>)
    requires forall k :: 0 <= k < |ids| ==> ids[k] in s.projects
    ensures |RowsOf(s, ids)| == |ids|
    ensures forall k :: 0 <= k < |ids| ==> RowsOf(s, ids)[k] == RowOf(s, ids[k])
    decreases |ids|
  {
    if ids != [] {
      RowsOfAt(s, ids[..|ids| - 1]);
    }
  }

  /** `get_usage_summary`'s rows: one per project, in insertion order. */
  function SummaryRows(s: LedgerState): (rows: seq<SummaryRow>)
    requires WellFormed(s)
  {
    RowsOf(s, s.order)
  }

  /** The summary lists each project once, with its own counters and
      remaining = limit - usage. */
  lemma SummaryRowsFaithful(s: LedgerState)
    requires WellFormed(s)
    ensures var rows := SummaryRows(s);
      && |rows| == |s.projects|
      && (forall p :: p in s.projects <==> exists k :: 0 <= k < |rows| && rows[k].projectId == p)
      && (forall k :: 0 <= k < |rows| ==>
            && rows[k].projectId in s.projects
            && rows[k].dailyLimit == s.projects[rows[k].projectId].dailyLimit
            && rows[k].dailyUsage == s.projects[rows[k].projectId].dailyUsage
            && rows[k].totalUsage == s.projects[rows[k].projectId].totalUsage
            && rows[k].remaining + rows[k].dailyUsage == rows[k].dailyLimit)
  {
    var rows := SummaryRows(s);
    RowsOfAt(s, s.order);
    KeysMatchOrder(s);
    forall p | p in s.projects
      ensures exists k :: 0 <= k < |rows| && rows[k].projectId == p
    {
      var k :| 0 <= k < |s.order| && s.order[k] == p;
      assert rows[k].projectId == p;
    }
  }

  lemma KeysMatchOrder(s: LedgerState)
    requires WellFormed(s)
    ensures |s.projects| == |s.order|
  {
    DistinctSeqCard(s.order);
    assert s.projects.Keys == set p | p in s.order;
  }

  /** A sequence without repetitions has as many distinct elements as entries. */
  lemma {:induction false} DistinctSeqCard(q: seq<string>)
    requires forall i, j :: 0 <= i < j < |q| ==> q[i] != q[j]
    ensures |set p | p in q| == |q|
    decreases |q|
  {
    if q != [] {
      var rest := q[1..];
      DistinctSeqCard(rest);
      assert (set p | p in q) == (set p | p in rest) + {q[0]};
      forall j | 0 <= j < |rest|
        ensures rest[j] != q[0]
      {
        assert rest[j] == q[j + 1];
      }
    }
  }

  /** Recording 100 tokens twice gives 200 daily and 200 in total; after the
      date changes the daily counter is 0 and the total is still 200. */
  lemma ExampleRecordTwiceThenNewDay()
    ensures var s := AddUsage(AddUsage(EmptyLedger("2026-10-13"), "p1", 100), "p1", 100);
      && s.projects["p1"].dailyUsage == 200 && s.projects["p1"].totalUsage == 200
      && ResetIfNeeded(s, "2026-10-14").projects["p1"].dailyUsage == 0
      && ResetIfNeeded(s, "2026-10-14").projects["p1"].totalUsage == 200
  {
  }

  /** The ledger object. `saved` is the content of the JSON file: every
      mutation writes the whole ledger to it at once. */
  class TokenUsageManager {
    var order: seq<string>
    var projects: map<string, Account>
    var lastUpdated: string
    var saved: Option<LedgerState>

    function State(): LedgerState
      reads this
    {
      LedgerState(order, projects, lastUpdated)
    }

    predicate Valid()
      reads this
    {
      WellFormed(State())
    }

    /** `__init__` / `_load_usage_data`: the stored ledger when the file could
        be read, a fresh one dated today otherwise. Loading writes nothing. */
    constructor (stored: Option<LedgerState>, today: string)
      requires stored.Some? ==> WellFormed(stored.value)
      ensures Valid()
      ensures State() == (if stored.Some? then stored.value else EmptyLedger(today))
      ensures saved == stored
    {
      if stored.Some? {
        order, projects, lastUpdated := stored.value.order, stored.value.projects, stored.value.lastUpdated;
      } else {
        order, projects, lastUpdated := [], map[], today;
      }
      saved := stored;
    }

    /** `_save_usage_data`. */
    method Save()
      modifies this`saved
      ensures saved == Some(State())
    {
      saved := Some(State());
    }

    /** `reset_daily_counters_if_needed`, with the zeroing loop over the
        projects; it saves only when the date changed. */
    method ResetDailyCountersIfNeeded(today: string)
      requires Valid()
      modifies this
      ensures Valid()
      ensures State() == ResetIfNeeded(old(State()), today)
      ensures saved == if today != old(lastUpdated) then Some(State()) else old(saved)
    {
      if today != lastUpdated {
        ghost var before := projects;
        var i := 0;
        while i < |order|
          invariant 0 <= i <= |order|
          invariant order == old(order) && lastUpdated == old(lastUpdated)
          invariant projects.Keys == before.Keys
          invariant forall p :: p in before ==>
                      projects[p] == if p in order[..i] then ZeroDaily(before[p]) else before[p]
        {
          var id := order[i];
          assert forall p :: p in order[..i + 1] <==> p in order[..i] || p == id;
          projects := projects[id := projects[id].(dailyUsage := 0)];
          i := i + 1;
        }
        assert order[..i] == order;
        assert projects == map p | p in before :: ZeroDaily(before[p]);
        lastUpdated := today;
        Save();
      }
    }

    /** `register_project`; it always saves. */
    method RegisterProject(id: string, limit: int)
      requires Valid()
      modifies this
      ensures Valid()
      ensures State() == Register(old(State()), id, limit)
      ensures saved == Some(State())
    {
      if id !in projects {
        projects := projects[id := Account(limit, 0, 0)];
        order := order + [id];
      } else {
        projects := projects[id := projects[id].(dailyLimit := limit)];
      }
      Save();
    }

    /** `record_usage`; it always saves. */
    method RecordUsage(id: string, tokens: int)
      requires Valid()
      modifies this
      ensures Valid()
      ensures State() == AddUsage(old(State()), id, tokens)
      ensures saved == Some(State())
    {
      ghost var s0 := State();
      if id !in projects {
        RegisterProject(id, DefaultDailyLimit);
      }
      ghost var s1 := State();
      assert s1 == if id !in s0.projects then Register(s0, id, DefaultDailyLimit) else s0;
      var a := projects[id];
      projects := projects[id := a.(dailyUsage := a.dailyUsage + tokens, totalUsage := a.totalUsage + tokens)];
      assert State() == s1.(projects := s1.projects[id := a.(dailyUsage := a.dailyUsage + tokens, totalUsage := a.totalUsage + tokens)]);
      Save();
    }

    /** `get_available_project`: reset, then scan the list in order. The ledger
        is saved whenever it changed. */
    method GetAvailableProject(ids: seq<string>, today: string) returns (chosen: Option<string>)
      requires Valid()
      modifies this
      ensures Valid()
      ensures Selection(State(), chosen) == Select(old(State()), ids, today)
      ensures (State() == old(State()) && saved == old(saved)) || saved == Some(State())
    {
      ResetDailyCountersIfNeeded(today);
      ghost var s0 := State();
      var i := 0;
      while i < |ids|
        invariant 0 <= i <= |ids|
        invariant State() == s0
        invariant forall j :: 0 <= j < i ==> !Available(s0, ids[j])
        invariant (State() == old(State()) && saved == old(saved)) || saved == Some(State())
      {
        var id := ids[i];
        if id !in projects {
          RegisterProject(id, DefaultDailyLimit);
          assert FirstAvailable(s0, ids) == i;
          return Some(id);
        }
        if projects[id].dailyUsage < projects[id].dailyLimit {
          assert FirstAvailable(s0, ids) == i;
          return Some(id);
        }
        i := i + 1;
      }
      assert FirstAvailable(s0, ids) == |ids|;
      chosen := None;
    }

    /** The integer columns of `get_usage_summary`, after the daily reset. */
    method GetUsageSummary(today: string) returns (rows: seq<SummaryRow>)
      requires Valid()
      modifies this
      ensures Valid()
      ensures State() == ResetIfNeeded(old(State()), today)
      ensures saved == if today != old(lastUpdated) then Some(State()) else old(saved)
      ensures rows == SummaryRows(State())
    {
      ResetDailyCountersIfNeeded(today);
      rows := [];
      var i := 0;
      while i < |order|
        invariant 0 <= i <= |order|
        invariant rows == RowsOf(State(), order[..i])
      {
        assert order[..i + 1][..i] == order[..i];
        var a := projects[order[i]];
        rows := rows + [SummaryRow(order[i], a.dailyLimit, a.dailyUsage, a.dailyLimit - a.dailyUsage, a.totalUsage)];
        i := i + 1;
      }
      assert order[..i] == order;
    }
  }
}
