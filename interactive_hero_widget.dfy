/**
 * The simulated operations dashboard: a feed of tasks whose status a button toggles,
 * and a timer that moves an efficiency figure within a band and counts processed
 * tasks. Both updates are pure: each builds a new list or a new record from the old.
 * The two draws of `Math.random()` a timer tick makes are parameters.
 */
module InteractiveHeroWidget {
  datatype Status = Completed | Pending | Processing
  datatype Task = Task(id: int, kind: string, title: string, status: Status, time: string)
  datatype Stats = Stats(efficiency: real, uptime: real, tasks: int)

  const MinEfficiency: real := 90.0
  const MaxEfficiency: real := 100.0
  const TaskRoll: real := 0.7   // a roll above this counts one more processed task

  /** The feed the dashboard starts with: four tasks numbered 1 to 4. */
  function InitialTasks(): (ts: seq<Task>)
    ensures |ts| == 4
    ensures forall i :: 0 <= i < |ts| ==> ts[i].id == i + 1
  {
    [ Task(1, "Automación", "Sincronización de Inventario", Completed, "Hace 2m"),
      Task(2, "Alerta", "Stock bajo: Ref. 4829", Pending, "Ahora"),
      Task(3, "Reporte", "Cierre diario generado", Processing, "Hace 5m"),
      Task(4, "Sistema", "Backup base de datos", Completed, "Hace 15m") ]
  }

  /** The figures the dashboard starts with; the efficiency already lies in its band. */
  function InitialStats(): (s: Stats)
    ensures MinEfficiency <= s.efficiency <= MaxEfficiency
  {
    Stats(94.0, 99.9, 128)
  }

  // ---------------------------------------------------------------------------
  // Resolving a task
  // ---------------------------------------------------------------------------

  /** A pending task is resolved; any other task is set back to pending. */
  function NextStatus(s: Status): Status
  {
    if s == Pending then Completed else Pending
  }

  function Act(t: Task, id: int): Task
  {
    if t.id == id then t.(status := NextStatus(t.status)) else t
  }

  /** `handleAction(id)`: the status of every task with that id moves on. The page
      calls it only from the button of a pending task; the function is defined for
      every list and every id. */
  function HandleAction(ts: seq<Task>, id: int): seq<Task>
  {
    if |ts| == 0 then [] else [Act(ts[0], id)] + HandleAction(ts[1..], id)
  }

  /** Applying handleAction keeps the list's length and order and every field but the
      status; tasks with another id are untouched; a pending task with that id is
      completed and any other task with that id becomes pending. */
  lemma {:induction false} HandleActionEffect(ts: seq<Task>, id: int)
    ensures |HandleAction(ts, id)| == |ts|
    ensures forall i :: 0 <= i < |ts| ==> HandleAction(ts, id)[i] == ts[i].(status := HandleAction(ts, id)[i].status)
    ensures forall i :: 0 <= i < |ts| && ts[i].id != id ==> HandleAction(ts, id)[i] == ts[i]
    ensures forall i :: 0 <= i < |ts| && ts[i].id == id && ts[i].status == Pending ==>
              HandleAction(ts, id)[i].status == Completed
    ensures forall i :: 0 <= i < |ts| && ts[i].id == id && ts[i].status != Pending ==>
              HandleAction(ts, id)[i].status == Pending
  {
    if |ts| > 0 {
      HandleActionEffect(ts[1..], id);
      var r := HandleAction(ts, id);
      assert r == [Act(ts[0], id)] + HandleAction(ts[1..], id);
      assert forall i :: 1 <= i < |ts| ==> r[i] == HandleAction(ts[1..], id)[i - 1] && ts[i] == ts[1..][i - 1];
    }
  }

  /** An id that names no task leaves the list as it is. */
  lemma {:induction false} HandleActionUnknownId(ts: seq<Task>, id: int)
    requires forall t <- ts :: t.id != id
    ensures HandleAction(ts, id) == ts
  {
    if |ts| > 0 {
      assert ts[0] in ts;
      assert forall t <- ts[1..] :: t in ts;
      HandleActionUnknownId(ts[1..], id);
      assert ts == [ts[0]] + ts[1..];
    }
  }

  /** Applying handleAction twice with the same id restores the list, provided no task
      with that id is processing (a processing task ends up completed, see
      ProcessingNotRestored). */
  lemma {:induction false} HandleActionTwice(ts: seq<Task>, id: int)
    requires forall t <- ts :: t.id == id ==> t.status != Processing
    ensures HandleAction(HandleAction(ts, id), id) == ts
  {
    if |ts| > 0 {
      assert ts[0] in ts;
      assert forall t <- ts[1..] :: t in ts;
      HandleActionTwice(ts[1..], id);
      var once := HandleAction(ts, id);
      assert once == [Act(ts[0], id)] + HandleAction(ts[1..], id);
      assert once[1..] == HandleAction(ts[1..], id);
      assert ts == [ts[0]] + ts[1..];
    }
  }

  /** The "Reporte" task of the initial feed is processing: applying handleAction twice
      with its id leaves it completed rather than processing. (The page shows no button
      for it, so this happens only through a direct call.) */
  lemma ProcessingNotRestored()
    ensures InitialTasks()[2].status == Processing
    ensures HandleAction(HandleAction(InitialTasks(), 3), 3)[2].status == Completed
  {
  }

  // ---------------------------------------------------------------------------
  // The timer tick
  // ---------------------------------------------------------------------------

  function Min(a: real, b: real): real { if a <= b then a else b }
  function Max(a: real, b: real): real { if a >= b then a else b }

  /** One tick of the interval, with `noise` and `roll` the two draws of
      `Math.random()`: the efficiency moves by `noise - 0.5`, and a step that would
      leave [90, 100] stops exactly at the nearer bound; the task counter grows by one exactly when the roll passes, and the
      uptime stays as it is. */
  function Tick(s: Stats, noise: real, roll: real): (r: Stats)
    ensures MinEfficiency <= r.efficiency <= MaxEfficiency
    ensures r.uptime == s.uptime
    ensures r.tasks == (if roll > TaskRoll then s.tasks + 1 else s.tasks)
    ensures MinEfficiency <= s.efficiency + (noise - 0.5) <= MaxEfficiency ==>
              r.efficiency == s.efficiency + (noise - 0.5)
    ensures s.efficiency + (noise - 0.5) > MaxEfficiency ==> r.efficiency == MaxEfficiency
    ensures s.efficiency + (noise - 0.5) < MinEfficiency ==> r.efficiency == MinEfficiency
    ensures MinEfficiency <= s.efficiency <= MaxEfficiency && 0.0 <= noise < 1.0 ==>
              -0.5 <= r.efficiency - s.efficiency <= 0.5
  {
    s.(efficiency := Min(MaxEfficiency, Max(MinEfficiency, s.efficiency + (noise - 0.5))),
       tasks := s.tasks + (if roll > TaskRoll then 1 else 0))
  }

  /** The interval firing once per pair of draws. */
  function Ticks(s: Stats, draws: seq<(real, real)>): Stats
    decreases |draws|
  {
    if |draws| == 0 then s else Ticks(Tick(s, draws[0].0, draws[0].1), draws[1..])
  }

  /** However many ticks pass, the counter never goes down and grows by at most one per
      tick, the uptime is untouched and the efficiency stays in its band. */
  lemma {:induction false} TicksBounds(s: Stats, draws: seq<(real, real)>)
    requires MinEfficiency <= s.efficiency <= MaxEfficiency
    ensures s.tasks <= Ticks(s, draws).tasks <= s.tasks + |draws|
    ensures Ticks(s, draws).uptime == s.uptime
    ensures MinEfficiency <= Ticks(s, draws).efficiency <= MaxEfficiency
    decreases |draws|
  {
    if |draws| > 0 {
      TicksBounds(Tick(s, draws[0].0, draws[0].1), draws[1..]);
    }
  }
}
