/** The repair sweep: one bounded page of undelivered resolutions a minute. */
module ApprovalSweep {
  import opened Wrappers
  import opened ApprovalModel

  const APPROVAL_SWEEP_PAGE_SIZE: nat := 10

  /** The columns the sweep selects on. */
  datatype Row = Row(decision: Decision, decidedAt: int, resolvedAt: Option<int>)

  type Table = map<CardId, Row>

  /** How one `notify` ends: it applied, it did not, or it threw. */
  datatype Outcome = Applied | NotApplied | Threw

  predicate IsDue(r: Row) {
    Resolvable(r.decision) && r.resolvedAt.None?
  }

  function Due(t: Table): set<CardId> {
    set id | id in t && IsDue(t[id])
  }

  /** What the sweep owes: the rows a human approved, edited or rejected whose resolution no run has been told of. */
  function Owed(t: Table): set<CardId> {
    set id | id in t && (t[id].decision == Approved || t[id].decision == Edited || t[id].decision == Rejected) && t[id].resolvedAt == None
  }

  function SetOf(page: seq<CardId>): set<CardId> {
    set i | 0 <= i < |page| :: page[i]
  }

  ghost predicate Distinct(page: seq<CardId>) {
    forall i, j :: 0 <= i < j < |page| ==> page[i] != page[j]
  }

  function Age(t: Table, id: CardId): int {
    if id in t then t[id].decidedAt else 0
  }

  ghost predicate Ordered(t: Table, page: seq<CardId>) {
    forall i, j :: 0 <= i < j < |page| ==> Age(t, page[i]) <= Age(t, page[j])
  }

  /** No row left out was decided before a row on the page. */
  ghost predicate Oldest(t: Table, page: seq<CardId>, rest: set<CardId>) {
    forall i, id :: 0 <= i < |page| && id in rest ==> Age(t, page[i]) <= Age(t, id)
  }

  lemma DueIsOwed(t: Table)
    ensures Due(t) == Owed(t)
  {
    forall id | id in t ensures id in Due(t) <==> id in Owed(t) { }
  }

  /** `listUndeliveredResolutions`: the oldest due rows, oldest first, at most `limit` of them. */
  ghost predicate IsPage(t: Table, page: seq<CardId>, limit: nat) {
    && Distinct(page) && SetOf(page) <= Owed(t)
    && |page| == (if |Owed(t)| < limit then |Owed(t)| else limit)
    && Ordered(t, page) && Oldest(t, page, Owed(t) - SetOf(page))
  }

  function Mark(t: Table, ids: set<CardId>, now: int): Table {
    map id | id in t :: if id in ids then t[id].(resolvedAt := Some(now)) else t[id]
  }

  /** The rows named got the time, and nothing else changed. */
  ghost predicate Marked(t: Table, u: Table, ids: set<CardId>, now: int) {
    && u.Keys == t.Keys
    && (forall id :: id in t ==> u[id].decision == t[id].decision && u[id].decidedAt == t[id].decidedAt)
    && (forall id :: id in t && id in ids ==> u[id].resolvedAt == Some(now))
    && (forall id :: id in t && id !in ids ==> u[id].resolvedAt == t[id].resolvedAt)
  }

  function AppliedIn(page: seq<CardId>, notify: CardId -> Outcome): set<CardId> {
    set i | 0 <= i < |page| && notify(page[i]) == Applied :: page[i]
  }

  lemma {:induction false} DistinctSize(page: seq<CardId>)
    requires Distinct(page)
    ensures |SetOf(page)| == |page|
  {
    if page != [] {
      var front, last := page[..|page| - 1], page[|page| - 1];
      DistinctSize(front);
      SetOfSnoc(front, last);
      assert page == front + [last] && last !in SetOf(front);
    }
  }

  lemma SetOfSnoc(page: seq<CardId>, next: CardId)
    ensures SetOf(page + [next]) == SetOf(page) + {next}
  {
    var longer := page + [next];
    forall x | x in SetOf(page) ensures x in SetOf(longer) {
      var i :| 0 <= i < |page| && page[i] == x;
      assert longer[i] == x;
    }
    assert longer[|page|] == next;
  }

  /** The rows listed so far, and those still to come. */
  ghost predicate Listed(t: Table, page: seq<CardId>, rest: set<CardId>) {
    && Distinct(page) && rest == Owed(t) - SetOf(page) && SetOf(page) <= Owed(t)
    && |page| + |rest| == |Owed(t)| && Ordered(t, page) && Oldest(t, page, rest)
  }

  lemma ListedNext(t: Table, page: seq<CardId>, rest: set<CardId>, next: CardId)
    requires Listed(t, page, rest) && next in rest && forall id :: id in rest ==> Age(t, next) <= Age(t, id)
    ensures Listed(t, page + [next], rest - {next})
  {
    assert next !in SetOf(page);
    SetOfSnoc(page, next);
    forall i | 0 <= i < |page| ensures page[i] != next { assert page[i] in SetOf(page); }
  }

  /** One sweep in which every notify of the page applies. */
  ghost predicate Drained(t: Table, u: Table) {
    exists page, now :: IsPage(t, page, 10) && Marked(t, u, SetOf(page), now)
  }

  class Sweeper {
    var rows: Table

    constructor (rows: Table)
      ensures this.rows == rows
    {
      this.rows := rows;
    }

    method OldestOf(ids: set<CardId>) returns (oldest: CardId)
      requires ids != {} && ids <= rows.Keys
      ensures oldest in ids && forall id :: id in ids ==> Age(rows, oldest) <= Age(rows, id)
    {
      oldest :| oldest in ids;
      var rest := ids - {oldest};
      while rest != {}
        invariant rest <= ids && oldest in ids
        invariant forall id :: id in ids - rest ==> Age(rows, oldest) <= Age(rows, id)
        decreases rest
      {
        var id :| id in rest;
        if rows[id].decidedAt < rows[oldest].decidedAt { oldest := id; }
        rest := rest - {id};
      }
    }

    method ListUndeliveredResolutions(limit: nat) returns (page: seq<CardId>)
      ensures IsPage(rows, page, limit)
    {
      page := [];
      var rest := Due(rows);
      DueIsOwed(rows);
      while |page| < limit && rest != {}
        invariant |page| <= limit && Listed(rows, page, rest)
        decreases rest
      {
        var next := OldestOf(rest);
        ListedNext(rows, page, rest, next);
        page, rest := page + [next], rest - {next};
      }
    }

    method MarkResolutionDelivered(id: CardId, now: int)
      modifies this
      ensures rows == Mark(old(rows), {id}, now) && Marked(old(rows), rows, {id}, now)
    {
      if id in rows { rows := rows[id := rows[id].(resolvedAt := Some(now))]; }
    }

    /**
     `sweepUndeliveredApprovals`: every row of the page is either delivered or
     failed, exactly the rows whose notify applied are marked, and one row that
     throws does not abandon the others.
     */
    method SweepUndeliveredApprovals(notify: CardId -> Outcome, now: int)
      returns (due: nat, delivered: nat, failed: nat, ghost page: seq<CardId>)
      modifies this
      ensures IsPage(old(rows), page, 10)
      ensures due == |page| == delivered + failed && delivered == |AppliedIn(page, notify)|
      ensures Marked(old(rows), rows, AppliedIn(page, notify), now)
      ensures (forall i :: 0 <= i < |page| ==> notify(page[i]) == Applied) ==> failed == 0 && Drained(old(rows), rows)
    {
      ghost var before := rows;
      var listed := ListUndeliveredResolutions(APPROVAL_SWEEP_PAGE_SIZE);
      page := listed;
      delivered, failed := 0, 0;
      for i := 0 to |listed|
        invariant delivered + failed == i
        invariant delivered == |AppliedIn(listed[..i], notify)|
        invariant rows == Mark(before, AppliedIn(listed[..i], notify), now)
      {
        SweptNext(before, listed, i, notify, now);
        var id := listed[i];
        if notify(id) == Applied {
          MarkResolutionDelivered(id, now);
          delivered := delivered + 1;
        } else {
          failed := failed + 1;
        }
      }
      due := |listed|;
      assert listed[..|listed|] == listed;
      PageSwept(before, listed, notify, now);
    }
  }

  lemma AllApplied(page: seq<CardId>, notify: CardId -> Outcome)
    requires Distinct(page)
    ensures (forall i :: 0 <= i < |page| ==> notify(page[i]) == Applied) ==>
      AppliedIn(page, notify) == SetOf(page) && |AppliedIn(page, notify)| == |page|
  {
    DistinctSize(page);
  }

  lemma PageSwept(t: Table, page: seq<CardId>, notify: CardId -> Outcome, now: int)
    requires IsPage(t, page, 10)
    ensures var u := Mark(t, AppliedIn(page, notify), now);
      && Marked(t, u, AppliedIn(page, notify), now)
      && ((forall i :: 0 <= i < |page| ==> notify(page[i]) == Applied) ==> |AppliedIn(page, notify)| == |page| && Drained(t, u))
  {
    AllApplied(page, notify);
    MarkMarks(t, AppliedIn(page, notify), now);
    if AppliedIn(page, notify) == SetOf(page) { assert Marked(t, Mark(t, SetOf(page), now), SetOf(page), now); }
  }

  lemma MarkMarks(t: Table, ids: set<CardId>, now: int)
    ensures Marked(t, Mark(t, ids, now), ids, now)
  {
    assert Mark(t, ids, now).Keys == t.Keys;
  }

  lemma MarkSnoc(t: Table, ids: set<CardId>, id: CardId, now: int)
    ensures Mark(Mark(t, ids, now), {id}, now) == Mark(t, ids + {id}, now)
  {
  }

  lemma AppliedSnoc(page: seq<CardId>, i: nat, notify: CardId -> Outcome)
    requires i < |page| && Distinct(page)
    ensures page[i] !in AppliedIn(page[..i], notify)
    ensures AppliedIn(page[..i + 1], notify) ==
      AppliedIn(page[..i], notify) + (if notify(page[i]) == Applied then {page[i]} else {})
  {
    var a, b := page[..i], page[..i + 1];
    forall x | x in AppliedIn(a, notify) ensures x in AppliedIn(b, notify) {
      var k :| 0 <= k < |a| && notify(a[k]) == Applied && a[k] == x;
      assert b[k] == x;
    }
    forall x | x in AppliedIn(b, notify) && x != page[i] ensures x in AppliedIn(a, notify) {
      var k :| 0 <= k < |b| && notify(b[k]) == Applied && b[k] == x;
      assert a[k] == x;
    }
    assert b[i] == page[i];
  }

  /** One more row of the page: marked, and counted, exactly if its notify applied. */
  lemma SweptNext(t: Table, page: seq<CardId>, i: nat, notify: CardId -> Outcome, now: int)
    requires i < |page| && Distinct(page)
    ensures var a, b := AppliedIn(page[..i], notify), AppliedIn(page[..i + 1], notify);
      if notify(page[i]) == Applied then Mark(t, b, now) == Mark(Mark(t, a, now), {page[i]}, now) && |b| == |a| + 1 else b == a
  {
    AppliedSnoc(page, i, notify);
    MarkSnoc(t, AppliedIn(page[..i], notify), page[i], now);
  }

  /* ----------------------------------------------------- draining a backlog -- */

  lemma SweepDrains(t: Table, u: Table)
    requires Drained(t, u)
    ensures |Owed(u)| == if |Owed(t)| < APPROVAL_SWEEP_PAGE_SIZE then 0 else |Owed(t)| - APPROVAL_SWEEP_PAGE_SIZE
  {
    var page, now :| IsPage(t, page, 10) && Marked(t, u, SetOf(page), now);
    DistinctSize(page);
    assert Owed(u) == Owed(t) - SetOf(page);
    assert |Owed(t)| == |Owed(t) - SetOf(page)| + |SetOf(page)|;
  }

  /**
   With every notify applying and no new decisions, a backlog is empty after k
   sweeps if and only if k is at least the backlog over ten, rounded up.
   */
  lemma {:induction false} BacklogEmptyIff(states: seq<Table>)
    requires states != [] && forall i :: 0 <= i < |states| - 1 ==> Drained(states[i], states[i + 1])
    ensures var k, n := |states| - 1, |Owed(states[0])|;
      Owed(states[k]) == {} <==> k >= (n + 9) / 10
    decreases |states|
  {
    BacklogSize(states);
  }

  lemma {:induction false} BacklogSize(states: seq<Table>)
    requires states != [] && forall i :: 0 <= i < |states| - 1 ==> Drained(states[i], states[i + 1])
    ensures var k, n := |states| - 1, |Owed(states[0])|;
      |Owed(states[k])| == if n < k * APPROVAL_SWEEP_PAGE_SIZE then 0 else n - k * APPROVAL_SWEEP_PAGE_SIZE
    decreases |states|
  {
    if |states| > 1 {
      BacklogSize(states[..|states| - 1]);
      SweepDrains(states[|states| - 2], states[|states| - 1]);
    }
  }
}
