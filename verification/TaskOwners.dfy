/**
Whom an agent's background tasks report to: what the turn a task started in owes
is kept until the work that takes in its end names it, and is forgotten
when no later work can. What is owed is taken as a set of recipients.
*/
module TaskOwners {
  import opened Wrappers

  type TaskId = string
  type Owed = set<string>

  /** `number` tells a task from earlier ones with its id. */
  datatype Task = Task(id: TaskId, owed: Owed, number: nat)

  /** An ended task; `left` counts the works that may still end without naming it. */
  datatype Ended = Ended(task: Task, idle: bool, left: nat)

  datatype State = State(live: map<TaskId, Task>, ended: seq<Ended>)

  function Start(s: State, task: Task): State {
    s.(live := s.live[task.id := task])
  }

  function EndedTask(task: Task, working: bool): Ended {
    if working then Ended(task, false, 2) else Ended(task, true, 1)
  }

  function End(s: State, id: TaskId, working: bool): State {
    if id !in s.live then s else State(s.live - {id}, s.ended + [EndedTask(s.live[id], working)])
  }

  /** The ended tasks that the ids name, and those that they do not. */
  function Named(ended: seq<Ended>, ids: set<TaskId>): seq<Ended> {
    if ended == [] then [] else Named(ended[..|ended| - 1], ids) + if ended[|ended| - 1].task.id in ids then [ended[|ended| - 1]] else []
  }

  function NotNamed(ended: seq<Ended>, ids: set<TaskId>): seq<Ended> {
    if ended == [] then [] else NotNamed(ended[..|ended| - 1], ids) + if ended[|ended| - 1].task.id in ids then [] else [ended[|ended| - 1]]
  }

  /** The ended tasks that another work's end leaves, and those that it forgets. */
  function Kept(ended: seq<Ended>): seq<Ended> {
    if ended == [] then []
    else
      var last := ended[|ended| - 1];
      Kept(ended[..|ended| - 1]) + if last.left > 1 then [last.(left := last.left - 1)] else []
  }

  function Forgotten(ended: seq<Ended>): seq<Ended> {
    if ended == [] then [] else Forgotten(ended[..|ended| - 1]) + if ended[|ended| - 1].left > 1 then [] else [ended[|ended| - 1]]
  }

  /** What the tasks that ended while no work ran owe together. */
  function IdleOwed(ended: seq<Ended>): Owed {
    if ended == [] then {} else IdleOwed(ended[..|ended| - 1]) + if ended[|ended| - 1].idle then ended[|ended| - 1].task.owed else {}
  }

  function TasksOf(ended: seq<Ended>): seq<Task> {
    seq(|ended|, i requires 0 <= i < |ended| => ended[i].task)
  }

  class TaskOwners {
    var live: map<TaskId, Task>
    var ended: seq<Ended>

    function View(): State
      reads this
    {
      State(live, ended)
    }

    constructor ()
      ensures View() == State(map[], [])
    {
      live, ended := map[], [];
    }

    method Start(task: Task)
      modifies this
      ensures View().live == old(live)[task.id := task] && ended == old(ended)
    {
      live := live[task.id := task];
    }

    method End(id: TaskId, working: bool)
      modifies this
      ensures View() == if id in old(live) then State(old(live) - {id}, old(ended) + [EndedTask(old(live)[id], working)]) else old(View())
    {
      if id !in live {
        return;
      }
      var task := Ended(live[id], true, 1);
      live := live - {id};
      if working {
        task := task.(idle := false, left := 2);
      }
      ended := ended + [task];
    }

    method Take(ids: set<TaskId>) returns (owed: seq<Task>)
      modifies this
      ensures live == old(live) && ended == NotNamed(old(ended), ids) && owed == TasksOf(Named(old(ended), ids))
    {
      owed := [];
      var kept: seq<Ended> := [];
      for i := 0 to |ended|
        invariant ended == old(ended) && live == old(live)
        invariant kept == NotNamed(ended[..i], ids) && owed == TasksOf(Named(ended[..i], ids))
      {
        assert ended[..i + 1][..i] == ended[..i];
        TasksOne(Named(ended[..i], ids), ended[i]);
        if ended[i].task.id in ids {
          owed := owed + [ended[i].task];
        } else {
          kept := kept + [ended[i]];
        }
      }
      assert ended[..|ended|] == ended;
      ended := kept;
    }

    method WorkEnded()
      modifies this
      ensures live == old(live) && ended == Kept(old(ended))
    {
      var kept: seq<Ended> := [];
      for i := 0 to |ended|
        invariant ended == old(ended) && live == old(live) && kept == Kept(ended[..i])
      {
        assert ended[..i + 1][..i] == ended[..i];
        if ended[i].left > 1 {
          kept := kept + [ended[i].(left := ended[i].left - 1)];
        }
      }
      assert ended[..|ended|] == ended;
      ended := kept;
    }

    method Idle() returns (owed: Owed)
      ensures owed == IdleOwed(ended)
    {
      owed := {};
      for i := 0 to |ended|
        invariant owed == IdleOwed(ended[..i])
      {
        assert ended[..i + 1][..i] == ended[..i];
        if ended[i].idle {
          owed := owed + ended[i].task.owed;
        }
      }
      assert ended[..|ended|] == ended;
    }
  }

  // ---- Runs ----

  /** The owners with all tasks ever started, and those handed over or forgotten, in order. */
  datatype World = World(state: State, started: seq<Task>, handed: seq<Task>, forgotten: seq<Task>)

  datatype Event =
    | TaskStarts(id: TaskId, owed: Owed)
    | TaskEnds(id: TaskId, working: bool)
    | TakeIn(ids: set<TaskId>)
    | WorkEnds

  /** noteBackgroundWork starts no task that is known to run. */
  function Next(w: World, e: Event): World {
    match e
    case TaskStarts(id, owed) =>
      if id in w.state.live then w
      else
        var task := Task(id, owed, |w.started|);
        w.(state := Start(w.state, task), started := w.started + [task])
    case TaskEnds(id, working) => w.(state := End(w.state, id, working))
    case TakeIn(ids) => w.(state := w.state.(ended := NotNamed(w.state.ended, ids)), handed := w.handed + TasksOf(Named(w.state.ended, ids)))
    case WorkEnds => w.(state := w.state.(ended := Kept(w.state.ended)), forgotten := w.forgotten + TasksOf(Forgotten(w.state.ended)))
  }

  function Run(events: seq<Event>): World {
    if events == [] then World(State(map[], []), [], [], []) else Next(Run(events[..|events| - 1]), events[|events| - 1])
  }

  function LiveTasks(live: map<TaskId, Task>): set<Task> {
    set id | id in live :: live[id]
  }

  /** Every task that started, once each, is live, waiting, handed over or forgotten. */
  ghost predicate Accounted(w: World) {
    && multiset(w.started) == multiset(LiveTasks(w.state.live)) + multiset(TasksOf(w.state.ended)) + multiset(w.handed) + multiset(w.forgotten)
    && (forall id :: id in w.state.live ==> w.state.live[id].id == id)
    && (forall i :: 0 <= i < |w.started| ==> w.started[i].number == i)
  }

  lemma TasksOne(ended: seq<Ended>, e: Ended)
    ensures TasksOf(ended + [e]) == TasksOf(ended) + [e.task]
  {
  }

  lemma {:induction false} TakingPartitions(ended: seq<Ended>, ids: set<TaskId>)
    ensures multiset(TasksOf(ended)) == multiset(TasksOf(NotNamed(ended, ids))) + multiset(TasksOf(Named(ended, ids)))
    decreases |ended|
  {
    if ended != [] {
      var before, last := ended[..|ended| - 1], ended[|ended| - 1];
      TakingPartitions(before, ids);
      assert ended == before + [last];
      TasksOne(before, last);
      if last.task.id in ids {
        assert NotNamed(ended, ids) == NotNamed(before, ids);
        TasksOne(Named(before, ids), last);
      } else {
        assert Named(ended, ids) == Named(before, ids);
        TasksOne(NotNamed(before, ids), last);
      }
    }
  }

  lemma {:induction false} ForgettingPartitions(ended: seq<Ended>)
    ensures multiset(TasksOf(ended)) == multiset(TasksOf(Kept(ended))) + multiset(TasksOf(Forgotten(ended)))
    decreases |ended|
  {
    if ended != [] {
      var before, last := ended[..|ended| - 1], ended[|ended| - 1];
      ForgettingPartitions(before);
      assert ended == before + [last];
      TasksOne(before, last);
      if last.left > 1 {
        assert Forgotten(ended) == Forgotten(before);
        TasksOne(Kept(before), last.(left := last.left - 1));
      } else {
        assert Kept(ended) == Kept(before);
        TasksOne(Forgotten(before), last);
      }
    }
  }

  lemma EndingMoves(live: map<TaskId, Task>, id: TaskId)
    requires id in live && forall k :: k in live ==> live[k].id == k
    ensures multiset(LiveTasks(live)) == multiset(LiveTasks(live - {id})) + multiset{live[id]}
  {
    var rest := live - {id};
    forall t | t in LiveTasks(live)
      ensures t in LiveTasks(rest) + {live[id]}
    {
      var k :| k in live && live[k] == t;
      assert k != id ==> k in rest && rest[k] == t;
    }
    assert LiveTasks(live) == LiveTasks(rest) + {live[id]};
  }

  lemma StartingKeepsAccount(w: World, id: TaskId, owed: Owed)
    requires Accounted(w)
    ensures Accounted(Next(w, TaskStarts(id, owed)))
  {
    if id !in w.state.live {
      var task := Task(id, owed, |w.started|);
      var live := w.state.live[id := task];
      EndingMoves(live, id);
      assert live - {id} == w.state.live;
    }
  }

  lemma EndingKeepsAccount(w: World, id: TaskId, working: bool)
    requires Accounted(w)
    ensures Accounted(Next(w, TaskEnds(id, working)))
  {
    if id in w.state.live {
      EndingMoves(w.state.live, id);
      TasksOne(w.state.ended, EndedTask(w.state.live[id], working));
    }
  }

  lemma StepKeepsAccount(w: World, e: Event)
    requires Accounted(w)
    ensures Accounted(Next(w, e))
  {
    match e {
      case TaskStarts(id, owed) => StartingKeepsAccount(w, id, owed);
      case TaskEnds(id, working) => EndingKeepsAccount(w, id, working);
      case TakeIn(ids) => TakingPartitions(w.state.ended, ids);
      case WorkEnds => ForgettingPartitions(w.state.ended);
    }
  }

  lemma {:induction false} RunsAccount(events: seq<Event>)
    ensures Accounted(Run(events))
    decreases |events|
  {
    if events != [] {
      RunsAccount(events[..|events| - 1]);
      StepKeepsAccount(Run(events[..|events| - 1]), events[|events| - 1]);
    }
  }

  function Times(tasks: seq<Task>, t: Task): nat {
    multiset(tasks)[t]
  }

  /** Each started task is at every moment in exactly one place: live, waiting, handed over or forgotten. */
  lemma {:induction false} EachTaskOnce(events: seq<Event>, i: nat)
    requires i < |Run(events).started|
    ensures var w := Run(events);
            var t := w.started[i];
            (if t in LiveTasks(w.state.live) then 1 else 0) + Times(TasksOf(w.state.ended), t) + Times(w.handed, t) + Times(w.forgotten, t) == 1
  {
    RunsAccount(events);
    var w := Run(events);
    OnceStarted(w.started, i);
  }

  lemma {:induction false} OnceStarted(started: seq<Task>, i: nat)
    requires i < |started| && forall j :: 0 <= j < |started| ==> started[j].number == j
    ensures multiset(started)[started[i]] == 1
  {
    var (before, after) := (started[..i], started[i + 1..]);
    assert started == before + [started[i]] + after;
    assert started[i] !in before && started[i] !in after;
  }

  // ---- How long an ended task waits ----

  function WorksEnded(events: seq<Event>): nat {
    if events == [] then 0 else WorksEnded(events[..|events| - 1]) + if events[|events| - 1].WorkEnds? then 1 else 0
  }

  predicate TakenIn(events: seq<Event>, id: TaskId) {
    exists i :: 0 <= i < |events| && events[i].TakeIn? && id in events[i].ids
  }

  predicate Waits(ended: seq<Ended>, task: Task) {
    exists i :: 0 <= i < |ended| && ended[i].task == task
  }

  predicate WaitsWith(ended: seq<Ended>, task: Task, left: nat) {
    exists i :: 0 <= i < |ended| && ended[i].task == task && ended[i].left == left
  }

  lemma {:induction false} TakingLeaves(ended: seq<Ended>, ids: set<TaskId>, task: Task, left: nat)
    ensures WaitsWith(NotNamed(ended, ids), task, left) <==> WaitsWith(ended, task, left) && task.id !in ids
    decreases |ended|
  {
    if ended != [] {
      var before, last := ended[..|ended| - 1], ended[|ended| - 1];
      TakingLeaves(before, ids, task, left);
      WaitsWithOne(before, last, task, left);
      WaitsWithOne(NotNamed(before, ids), last, task, left);
      assert ended == before + [last];
      assert last.task.id in ids ==> NotNamed(ended, ids) == NotNamed(before, ids);
    }
  }

  lemma WaitsWithOne(ended: seq<Ended>, e: Ended, task: Task, left: nat)
    ensures WaitsWith(ended + [e], task, left) <==> WaitsWith(ended, task, left) || (e.task == task && e.left == left)
  {
    var more := ended + [e];
    assert more[|ended|] == e && forall i :: 0 <= i < |ended| ==> more[i] == ended[i];
  }

  lemma {:induction false} ForgettingLeaves(ended: seq<Ended>, task: Task, left: nat)
    ensures WaitsWith(Kept(ended), task, left) <==> left > 0 && WaitsWith(ended, task, left + 1)
    decreases |ended|
  {
    if ended != [] {
      var before, last := ended[..|ended| - 1], ended[|ended| - 1];
      ForgettingLeaves(before, task, left);
      WaitsWithOne(before, last, task, left + 1);
      assert ended == before + [last];
      if last.left > 1 {
        WaitsWithOne(Kept(before), last.(left := last.left - 1), task, left);
      } else {
        assert Kept(ended) == Kept(before);
      }
    }
  }

  lemma TakenInOne(before: seq<Event>, e: Event, id: TaskId)
    ensures TakenIn(before + [e], id) <==> TakenIn(before, id) || (e.TakeIn? && id in e.ids)
  {
    var all := before + [e];
    assert all[|before|] == e && forall i :: 0 <= i < |before| ==> all[i] == before[i];
  }

  /** A live task waits nowhere. */
  lemma LiveDoesNotWait(events: seq<Event>, id: TaskId)
    requires id in Run(events).state.live
    ensures var (w, task) := (Run(events), Run(events).state.live[id]);
            task.id == id && task.number < |w.started| && forall left: nat :: !WaitsWith(w.state.ended, task, left)
  {
    RunsAccount(events);
    var w := Run(events);
    var task := w.state.live[id];
    assert task in LiveTasks(w.state.live);
    assert multiset(w.started)[task] > 0 && task in w.started;
    var i :| 0 <= i < |w.started| && w.started[i] == task;
    EachTaskOnce(events, i);
    forall j | 0 <= j < |w.state.ended|
      ensures w.state.ended[j].task != task
    {
      assert TasksOf(w.state.ended)[j] == w.state.ended[j].task;
      assert TasksOf(w.state.ended)[j] in multiset(TasksOf(w.state.ended));
    }
  }

  /** A task that ended, `lasts` works before it is forgotten, as of some moment after. */
  ghost predicate Waiting(w: World, task: Task, taken: bool, ended: nat, lasts: nat) {
    && task.number < |w.started|
    && (forall id :: id in w.state.live ==> w.state.live[id] != task)
    && (forall left: nat :: WaitsWith(w.state.ended, task, left) <==> !taken && left > 0 && left + ended == lasts)
  }

  lemma EndsWaiting(w: World, id: TaskId, working: bool)
    requires id in w.state.live && Accounted(w) && w.state.live[id].number < |w.started|
    requires forall left: nat :: !WaitsWith(w.state.ended, w.state.live[id], left)
    ensures Waiting(Next(w, TaskEnds(id, working)), w.state.live[id], false, 0, if working then 2 else 1)
  {
    var task := w.state.live[id];
    forall left: nat
      ensures WaitsWith(Next(w, TaskEnds(id, working)).state.ended, task, left) <==> left == if working then 2 else 1
    {
      WaitsWithOne(w.state.ended, EndedTask(task, working), task, left);
    }
  }

  lemma StepWaiting(w: World, e: Event, task: Task, taken: bool, ended: nat, lasts: nat)
    requires Waiting(w, task, taken, ended, lasts)
    ensures Waiting(Next(w, e), task, taken || (e.TakeIn? && task.id in e.ids), ended + if e.WorkEnds? then 1 else 0, lasts)
  {
    var w' := Next(w, e);
    forall left: nat
      ensures WaitsWith(w'.state.ended, task, left)
         <==> !(taken || (e.TakeIn? && task.id in e.ids)) && left > 0 && left + (ended + if e.WorkEnds? then 1 else 0) == lasts
    {
      match e {
        case TaskEnds(id, working) =>
          if id in w.state.live {
            WaitsWithOne(w.state.ended, EndedTask(w.state.live[id], working), task, left);
          }
        case TakeIn(ids) => TakingLeaves(w.state.ended, ids, task, left);
        case WorkEnds => ForgettingLeaves(w.state.ended, task, left);
        case TaskStarts(_, _) =>
      }
    }
  }

  lemma {:induction false} WaitsLeft(events: seq<Event>, id: TaskId, working: bool, later: seq<Event>)
    requires id in Run(events).state.live
    ensures Waiting(Run(events + [TaskEnds(id, working)] + later), Run(events).state.live[id], TakenIn(later, id), WorksEnded(later),
                    if working then 2 else 1)
    decreases |later|
  {
    var (end, task) := (TaskEnds(id, working), Run(events).state.live[id]);
    RunsAccount(events);
    LiveDoesNotWait(events, id);
    if later == [] {
      assert events + [end] + later == events + [end] && (events + [end])[..|events|] == events;
      EndsWaiting(Run(events), id, working);
    } else {
      var before, e := later[..|later| - 1], later[|later| - 1];
      WaitsLeft(events, id, working, before);
      var all := events + [end] + later;
      assert all[..|all| - 1] == events + [end] + before && all[|all| - 1] == e && later == before + [e];
      TakenInOne(before, e, id);
      StepWaiting(Run(events + [end] + before), e, task, TakenIn(before, id), WorksEnded(before), if working then 2 else 1);
    }
  }

  /**
  An ended task is there to be taken as long as no work named it and fewer works
  ended since than it may outlast: two when it ended in a work, else one.
  */
  lemma WaitsExactly(events: seq<Event>, id: TaskId, working: bool, later: seq<Event>)
    requires id in Run(events).state.live
    ensures var task := Run(events).state.live[id];
            Waits(Run(events + [TaskEnds(id, working)] + later).state.ended, task)
            <==> !TakenIn(later, id) && WorksEnded(later) < if working then 2 else 1
  {
    WaitsLeft(events, id, working, later);
    var (task, ended, lasts) := (Run(events).state.live[id], Run(events + [TaskEnds(id, working)] + later).state.ended, if working then 2 else 1);
    if Waits(ended, task) {
      var i :| 0 <= i < |ended| && ended[i].task == task;
      assert WaitsWith(ended, task, ended[i].left);
    }
    if !TakenIn(later, id) && WorksEnded(later) < lasts {
      assert WaitsWith(ended, task, lasts - WorksEnded(later));
    }
  }
}
