/** The append-only log of form submissions and the two queries the workflow
    runs against it: all rows of one (process, step) pair, and the row with
    the greatest id of every step of one process. */
module FormDataRepository {
  import opened Common

  /** One row of the form_data table. */
  datatype FormData = FormData(id: int, processId: ProcessId, step: string, payload: Payload)

  /** Identity-generated ids: every row's id exceeds the ids of the rows
      stored before it. */
  predicate IdsIncreasing(rows: seq<FormData>) {
    forall i, j :: 0 <= i < j < |rows| ==> rows[i].id < rows[j].id
  }

  lemma UniqueIds(rows: seq<FormData>, x: FormData, y: FormData)
    requires IdsIncreasing(rows) && x in rows && y in rows && x.id == y.id
    ensures x == y
  {
    var i :| 0 <= i < |rows| && rows[i] == x;
    var j :| 0 <= j < |rows| && rows[j] == y;
    assert !(i < j) && !(j < i);
  }

  /** A WHERE clause: the rows that satisfy `keep`, in stored order. */
  function Where(rows: seq<FormData>, keep: FormData -> bool): (r: seq<FormData>)
    ensures forall x :: x in r <==> x in rows && keep(x)
    ensures |r| <= |rows|
  {
    if rows == [] then []
    else
      assert forall x :: x in rows <==> x == rows[0] || x in rows[1..];
      (if keep(rows[0]) then [rows[0]] else []) + Where(rows[1..], keep)
  }

  /** Filtering keeps the stored order, so the ids stay increasing. */
  lemma {:induction false} WhereKeepsOrder(rows: seq<FormData>, keep: FormData -> bool)
    requires IdsIncreasing(rows)
    ensures IdsIncreasing(Where(rows, keep))
  {
    if rows != [] {
      var tail := rows[1..];
      var rest := Where(tail, keep);
      assert IdsIncreasing(tail) by {
        forall i, j | 0 <= i < j < |tail| ensures tail[i].id < tail[j].id {
          assert tail[i] == rows[i + 1] && tail[j] == rows[j + 1];
        }
      }
      WhereKeepsOrder(tail, keep);
      if keep(rows[0]) {
        var r := [rows[0]] + rest;
        assert r == Where(rows, keep);
        forall i, j | 0 <= i < j < |r| ensures r[i].id < r[j].id {
          if i == 0 {
            assert r[j] in tail;
            var k :| 0 <= k < |tail| && tail[k] == r[j];
            assert rows[k + 1] == r[j];
          } else {
            assert r[i] == rest[i - 1] && r[j] == rest[j - 1];
          }
        }
      } else {
        assert rest == Where(rows, keep);
      }
    }
  }

  // ---------------------------------------------------------------------------
  // findByProcessIdAndStep
  // ---------------------------------------------------------------------------

  /** The rows stored for `step` of process `processId`, in stored order. */
  function FindByProcessIdAndStep(rows: seq<FormData>, processId: ProcessId, step: string): (r: seq<FormData>)
    ensures forall x :: x in r <==> x in rows && x.processId == processId && x.step == step
    ensures IdsIncreasing(rows) ==> IdsIncreasing(r)
  {
    var keep := (x: FormData) => x.processId == processId && x.step == step;
    if IdsIncreasing(rows) then WhereKeepsOrder(rows, keep); Where(rows, keep) else Where(rows, keep)
  }

  // ---------------------------------------------------------------------------
  // findLatestFormDataByProcess
  // ---------------------------------------------------------------------------

  /** `SELECT MAX(id) ... WHERE processId = :processId` for one group of
      `GROUP BY step`: None when the group is empty. */
  function MaxId(rows: seq<FormData>, processId: ProcessId, step: string): (m: Option<int>)
    ensures m.None? <==> forall x :: x in rows ==> !(x.processId == processId && x.step == step)
    ensures m.Some? ==> exists x :: x in rows && x.processId == processId && x.step == step && x.id == m.value
    ensures m.Some? ==> forall x :: x in rows && x.processId == processId && x.step == step ==> x.id <= m.value
    decreases |rows|
  {
    if rows == [] then None
    else
      var last := rows[|rows| - 1];
      var before := rows[..|rows| - 1];
      assert forall x :: x in rows <==> x == last || x in before;
      var prev := MaxId(before, processId, step);
      if last.processId == processId && last.step == step then
        if prev.Some? && prev.value > last.id then prev else Some(last.id)
      else prev
  }

  /** `id IN (SELECT MAX(f2.id) ... GROUP BY f2.step)`: `id` is the greatest
      id of some step of the process. */
  predicate InMaxIds(rows: seq<FormData>, processId: ProcessId, id: int) {
    exists x :: x in rows && x.processId == processId && MaxId(rows, processId, x.step) == Some(id)
  }

  /** The rows of `processId` whose id is the greatest of some step. */
  function FindLatestFormDataByProcess(rows: seq<FormData>, processId: ProcessId): (r: seq<FormData>)
    ensures forall x :: x in r <==> x in rows && x.processId == processId && InMaxIds(rows, processId, x.id)
    ensures IdsIncreasing(rows) ==> IdsIncreasing(r)
  {
    var keep := (x: FormData) => x.processId == processId && InMaxIds(rows, processId, x.id);
    if IdsIncreasing(rows) then WhereKeepsOrder(rows, keep); Where(rows, keep) else Where(rows, keep)
  }

  /** Some row is stored for `step` of process `processId`. */
  predicate HasRowFor(rows: seq<FormData>, processId: ProcessId, step: string) {
    exists y :: y in rows && y.processId == processId && y.step == step
  }

  /** `x` is a stored row of `processId` and no row of its step has a greater id. */
  ghost predicate IsLatest(rows: seq<FormData>, processId: ProcessId, x: FormData) {
    && x in rows
    && x.processId == processId
    && forall y :: y in rows && y.processId == processId && y.step == x.step ==> y.id <= x.id
  }

  /** Two latest rows of the same step are the same row. */
  lemma LatestIsUnique(rows: seq<FormData>, processId: ProcessId, x: FormData, y: FormData)
    requires IdsIncreasing(rows)
    requires IsLatest(rows, processId, x) && IsLatest(rows, processId, y) && x.step == y.step
    ensures x == y
  {
    UniqueIds(rows, x, y);
  }

  /** The query returns exactly the latest row of every step of the process. */
  lemma LatestQueryIsLatestRows(rows: seq<FormData>, processId: ProcessId, x: FormData)
    requires IdsIncreasing(rows)
    ensures x in FindLatestFormDataByProcess(rows, processId) <==> IsLatest(rows, processId, x)
  {
    if x in FindLatestFormDataByProcess(rows, processId) {
      QueryRowIsLatest(rows, processId, x);
    }
    if IsLatest(rows, processId, x) {
      LatestRowIsInQuery(rows, processId, x);
    }
  }

  /** A row whose id is the greatest of some step is the latest of its own step. */
  lemma QueryRowIsLatest(rows: seq<FormData>, processId: ProcessId, x: FormData)
    requires IdsIncreasing(rows)
    requires x in rows && x.processId == processId && InMaxIds(rows, processId, x.id)
    ensures IsLatest(rows, processId, x)
  {
    var y :| y in rows && y.processId == processId && MaxId(rows, processId, y.step) == Some(x.id);
    var z :| z in rows && z.processId == processId && z.step == y.step && z.id == x.id;
    UniqueIds(rows, x, z);
  }

  /** The latest row of a step carries that step's greatest id. */
  lemma LatestRowIsInQuery(rows: seq<FormData>, processId: ProcessId, x: FormData)
    requires IsLatest(rows, processId, x)
    ensures InMaxIds(rows, processId, x.id)
  {
    var m := MaxId(rows, processId, x.step);
    var z :| z in rows && z.processId == processId && z.step == x.step && z.id == m.value;
    assert m == Some(x.id);
  }

  /** Some step has a row of the process exactly when the query returns a row
      for that step. */
  lemma LatestQueryCoversSteps(rows: seq<FormData>, processId: ProcessId, step: string)
    requires IdsIncreasing(rows)
    ensures (exists x :: x in FindLatestFormDataByProcess(rows, processId) && x.step == step)
        <==> HasRowFor(rows, processId, step)
  {
    var m := MaxId(rows, processId, step);
    if m.Some? {
      var z :| z in rows && z.processId == processId && z.step == step && z.id == m.value;
      LatestQueryIsLatestRows(rows, processId, z);
    }
  }

  /** The query returns at most one row per step. */
  lemma LatestQueryOnePerStep(rows: seq<FormData>, processId: ProcessId)
    requires IdsIncreasing(rows)
    ensures StepsDistinct(FindLatestFormDataByProcess(rows, processId))
  {
    var r := FindLatestFormDataByProcess(rows, processId);
    forall i, j | 0 <= i < j < |r| ensures r[i].step != r[j].step {
      LatestQueryIsLatestRows(rows, processId, r[i]);
      LatestQueryIsLatestRows(rows, processId, r[j]);
    }
  }

  // ---------------------------------------------------------------------------
  // Collecting the latest rows by step
  // ---------------------------------------------------------------------------

  predicate StepsDistinct(rows: seq<FormData>) {
    forall i, j :: 0 <= i < j < |rows| ==> rows[i].step != rows[j].step
  }

  /** `Collectors.toMap(FormData::getStep, identity())`, whose duplicate-key
      failure is excluded by the precondition. */
  function ToStepMap(rows: seq<FormData>): (r: map<string, FormData>)
    requires StepsDistinct(rows)
    ensures forall s :: s in r <==> exists x :: x in rows && x.step == s
    ensures forall x :: x in rows ==> x.step in r && r[x.step] == x
    decreases |rows|
  {
    if rows == [] then map[]
    else
      var last := rows[|rows| - 1];
      var before := rows[..|rows| - 1];
      assert forall x :: x in rows <==> x == last || x in before;
      assert forall x :: x in before ==> x.step != last.step by {
        forall x | x in before ensures x.step != last.step {
          var k :| 0 <= k < |before| && before[k] == x;
          assert rows[k] == x;
        }
      }
      ToStepMap(before)[last.step := last]
  }

  /** `m` maps exactly the steps that have a row of `processId` to the row
      with the greatest id among that step's rows. */
  ghost predicate IsLatestByStep(rows: seq<FormData>, processId: ProcessId, m: map<string, FormData>) {
    && (forall s :: s in m <==> HasRowFor(rows, processId, s))
    && (forall s :: s in m ==> m[s].step == s && IsLatest(rows, processId, m[s]))
  }

  /** The service's view of the latest rows: the query's result collected
      into a map keyed by step. */
  function LatestByStep(rows: seq<FormData>, processId: ProcessId): (r: map<string, FormData>)
    requires IdsIncreasing(rows)
    ensures IsLatestByStep(rows, processId, r)
  {
    var latest := FindLatestFormDataByProcess(rows, processId);
    LatestQueryOnePerStep(rows, processId);
    var r := ToStepMap(latest);
    assert forall s :: s in r <==> HasRowFor(rows, processId, s) by {
      forall s ensures s in r <==> HasRowFor(rows, processId, s) {
        LatestQueryCoversSteps(rows, processId, s);
      }
    }
    assert forall s :: s in r ==> r[s].step == s && IsLatest(rows, processId, r[s]) by {
      forall s | s in r ensures r[s].step == s && IsLatest(rows, processId, r[s]) {
        var x :| x in latest && x.step == s;
        LatestQueryIsLatestRows(rows, processId, x);
      }
    }
    r
  }

  /** There is only one map from steps to latest rows. */
  lemma LatestByStepIsUnique(rows: seq<FormData>, processId: ProcessId, m: map<string, FormData>, m': map<string, FormData>)
    requires IdsIncreasing(rows) && IsLatestByStep(rows, processId, m) && IsLatestByStep(rows, processId, m')
    ensures m == m'
  {
    forall s | s in m ensures m[s] == m'[s] {
      LatestIsUnique(rows, processId, m[s], m'[s]);
    }
  }

  /** Storing a new row with a greater id replaces the latest row of its own
      step (for its own process) and leaves every other step as it was. */
  lemma LatestByStepAppend(rows: seq<FormData>, row: FormData, processId: ProcessId)
    requires IdsIncreasing(rows + [row])
    ensures IdsIncreasing(rows)
    ensures LatestByStep(rows + [row], processId) ==
      if row.processId == processId then LatestByStep(rows, processId)[row.step := row]
      else LatestByStep(rows, processId)
  {
    AppendFacts(rows, row);
    var before := LatestByStep(rows, processId);
    var expected := if row.processId == processId then before[row.step := row] else before;
    AppendKeepsLatest(rows, row, processId, before);
    LatestByStepIsUnique(rows + [row], processId, LatestByStep(rows + [row], processId), expected);
  }

  lemma AppendKeepsLatest(rows: seq<FormData>, row: FormData, processId: ProcessId, before: map<string, FormData>)
    requires IdsIncreasing(rows + [row]) && IsLatestByStep(rows, processId, before)
    ensures IsLatestByStep(rows + [row], processId,
              if row.processId == processId then before[row.step := row] else before)
  {
    var all := rows + [row];
    AppendFacts(rows, row);
    var expected := if row.processId == processId then before[row.step := row] else before;
    forall s ensures s in expected <==> HasRowFor(all, processId, s) {
      if s in before {
        assert before[s] in all;
      }
      if HasRowFor(all, processId, s) && !(row.processId == processId && s == row.step) {
        var y :| y in all && y.processId == processId && y.step == s;
        assert y in rows;
      }
    }
    forall s | s in expected ensures expected[s].step == s && IsLatest(all, processId, expected[s]) {
      if row.processId == processId && s == row.step {
        assert row in all;
      } else {
        LatestExtends(rows, row, processId, before[s]);
      }
    }
  }

  lemma AppendFacts(rows: seq<FormData>, row: FormData)
    requires IdsIncreasing(rows + [row])
    ensures IdsIncreasing(rows)
    ensures forall x :: x in rows + [row] <==> x == row || x in rows
    ensures forall x :: x in rows ==> x.id < row.id
  {
    var all := rows + [row];
    forall i, j | 0 <= i < j < |rows| ensures rows[i].id < rows[j].id {
      assert rows[i] == all[i] && rows[j] == all[j];
    }
    forall x | x in rows ensures x.id < row.id {
      var k :| 0 <= k < |rows| && rows[k] == x;
      assert all[k] == x && all[|rows|] == row;
    }
  }

  /** A latest row stays latest when a row of another step or process is appended. */
  lemma LatestExtends(rows: seq<FormData>, row: FormData, processId: ProcessId, x: FormData)
    requires IdsIncreasing(rows + [row])
    requires IsLatest(rows, processId, x) && !(row.processId == processId && row.step == x.step)
    ensures IsLatest(rows + [row], processId, x)
  {
    AppendFacts(rows, row);
  }

  // ---------------------------------------------------------------------------
  // The stored table
  // ---------------------------------------------------------------------------

  /** The form_data table: its rows in insertion order and the next identity
      value. */
  class FormDataStore {
    var rows: seq<FormData>
    var nextId: int

    ghost predicate Valid()
      reads this
    {
      IdsIncreasing(rows) && forall x :: x in rows ==> x.id < nextId
    }

    constructor ()
      ensures Valid() && rows == []
    {
      rows := [];
      nextId := 1;
    }

    /** `save` of a new entity: appends one row with a fresh, greater id and
        leaves every stored row as it was. */
    method Save(processId: ProcessId, step: string, payload: Payload) returns (saved: FormData)
      requires Valid()
      modifies this
      ensures Valid()
      ensures saved == FormData(old(nextId), processId, step, payload)
      ensures rows == old(rows) + [saved]
    {
      saved := FormData(nextId, processId, step, payload);
      rows := rows + [saved];
      nextId := nextId + 1;
    }
  }
}
