/**
How shutdown misses no agent process: what may start holds the admission lock,
launches are counted, and Close takes what is registered once both are clear.
*/
module Admission {
  import opened Wrappers

  type Session = string
  type Process = nat
  type Thread = nat

  /** A launch: under its session's resume lock or not, and how far it is. */
  datatype Phase = Starting | Connected(process: Process) | Admitted(process: Process) | Added | Over

  datatype Launch = Launch(session: Session, locked: bool, phase: Phase)

  datatype Closing = Open | Closed | Waited | Taken

  /**
  `readers` hold the admission lock and `launches` are those counted; `live` are
  the registered processes. Of the processes ever registered, `torn` were torn
  down, `replaced` were displaced by another of their session, and `closing` are
  those that Close closes; `refused` were closed by their launch, unregistered.
  */
  datatype World = World(
    closing: Closing,
    readers: set<Thread>,
    launches: map<Thread, Launch>,
    locks: set<Session>,
    jobs: set<Session>,
    live: map<Session, Process>,
    nextProcess: Process,
    registered: set<Process>,
    torn: set<Process>,
    replaced: set<Process>,
    refused: set<Process>,
    toClose: set<Process>)

  datatype Event =
    | Admit(thread: Thread)
    | Release(thread: Thread)
    | BeginResume(thread: Thread, session: Session)
    | BeginStart(thread: Thread, session: Session)
    | BeginSpawn(thread: Thread, session: Session)
    | Connect(thread: Thread)
    | AdmitRegister(thread: Thread)
    | AddJob(thread: Thread, local: bool)
    | ReleaseRegister(thread: Thread)
    | EndLaunch(thread: Thread)
    | Teardown(session: Session)
    | CloseAdmission
    | WaitLaunches
    | TakeProcesses

  predicate At(w: World, n: Thread, phase: Phase) {
    n in w.launches && w.launches[n].phase == phase
  }

  function Moved(w: World, n: Thread, phase: Phase): World
    requires n in w.launches
  {
    w.(launches := w.launches[n := w.launches[n].(phase := phase)])
  }

  function Processes(live: map<Session, Process>): set<Process> {
    set s | s in live :: live[s]
  }

  /**
  A step; one that cannot happen changes nothing. A thread does one thing at a
  time. A resume launches only a session without a job; the start of a stored
  thread holds the session's lock too but looks for no job, and a spawn does
  neither.
  */
  function Next(w: World, e: Event): World {
    match e
    case Admit(n) => if w.closing != Open || n in w.readers || n in w.launches then w else w.(readers := w.readers + {n})
    case Release(n) => if n in w.launches then w else w.(readers := w.readers - {n})
    case BeginResume(n, session) =>
      if w.closing != Open || n in w.readers || n in w.launches || session in w.locks || session in w.jobs then w
      else w.(locks := w.locks + {session}, launches := w.launches[n := Launch(session, true, Starting)])
    case BeginStart(n, session) =>
      if w.closing != Open || n in w.readers || n in w.launches || session in w.locks then w
      else w.(locks := w.locks + {session}, launches := w.launches[n := Launch(session, true, Starting)])
    case BeginSpawn(n, session) =>
      if w.closing != Open || n in w.readers || n in w.launches then w
      else w.(launches := w.launches[n := Launch(session, false, Starting)])
    case Connect(n) => if !At(w, n, Starting) then w else Moved(w, n, Connected(w.nextProcess)).(nextProcess := w.nextProcess + 1)
    case AdmitRegister(n) =>
      if n !in w.launches || !w.launches[n].phase.Connected? then w
      else if w.closing != Open then Moved(w, n, Over).(refused := w.refused + {w.launches[n].phase.process})
      else Moved(w, n, Admitted(w.launches[n].phase.process)).(readers := w.readers + {n})
    case AddJob(n, local) =>
      if n !in w.launches || !w.launches[n].phase.Admitted? then w
      else
        var (s, p) := (w.launches[n].session, w.launches[n].phase.process);
        var w' := Moved(w, n, Added).(jobs := w.jobs + {s});
        if local then w'.(refused := w.refused + {p})
        else w'.(live := w.live[s := p], registered := w.registered + {p},
                 replaced := if s in w.live then w.replaced + {w.live[s]} else w.replaced)
    case ReleaseRegister(n) => if !At(w, n, Added) then w else Moved(w, n, Over).(readers := w.readers - {n})
    case EndLaunch(n) =>
      if n !in w.launches || w.launches[n].phase.Admitted? || w.launches[n].phase.Added? then w
      else
        var launch := w.launches[n];
        w.(launches := w.launches - {n}, locks := if launch.locked then w.locks - {launch.session} else w.locks,
           refused := if launch.phase.Connected? then w.refused + {launch.phase.process} else w.refused)
    case Teardown(session) =>
      w.(jobs := w.jobs - {session}, live := w.live - {session}, torn := if session in w.live then w.torn + {w.live[session]} else w.torn)
    case CloseAdmission => if w.closing != Open || w.readers != {} then w else w.(closing := Closed)
    case WaitLaunches => if w.closing != Closed || w.launches != map[] then w else w.(closing := Waited)
    case TakeProcesses => if w.closing != Waited then w else w.(closing := Taken, toClose := Processes(w.live), live := map[])
  }

  function Run(events: seq<Event>): World {
    if events == [] then World(Open, {}, map[], {}, {}, map[], 0, {}, {}, {}, {}, {})
    else Next(Run(events[..|events| - 1]), events[|events| - 1])
  }

  /** The registry of jobs and processes, changed under the manager's lock. */
  class Registry {
    var jobs: set<Session>
    var processes: map<Session, Process>

    constructor ()
      ensures jobs == {} && processes == map[]
    {
      jobs, processes := {}, map[];
    }

    method AddJob(session: Session, process: Option<Process>)
      modifies this
      ensures jobs == old(jobs) + {session}
      ensures processes == if process.Some? then old(processes)[session := process.value] else old(processes)
    {
      jobs := jobs + {session};
      if process.Some? {
        processes := processes[session := process.value];
      }
    }

    method Teardown(session: Session) returns (process: Option<Process>)
      modifies this
      ensures jobs == old(jobs) - {session} && processes == old(processes) - {session}
      ensures process == if session in old(processes) then Some(old(processes)[session]) else None
    {
      process := if session in processes then Some(processes[session]) else None;
      jobs, processes := jobs - {session}, processes - {session};
    }

    /** What Close takes: all processes there are. */
    method TakeProcesses() returns (taken: set<Process>)
      modifies this
      ensures taken == Processes(old(processes)) && processes == map[] && jobs == old(jobs)
    {
      taken := {};
      var left := processes.Keys;
      while left != {}
        invariant left <= processes.Keys && processes == old(processes) && jobs == old(jobs)
        invariant taken == set s | s in processes && s !in left :: processes[s]
        decreases left
      {
        var s :| s in left;
        left := left - {s};
        taken := taken + {processes[s]};
      }
      processes := map[];
    }
  }

  // ---- What holds of every run ----

  /** The admission lock is held by those that were admitted, and by none once it is closed; nothing is launched once Close waited. */
  ghost predicate Guarded(w: World) {
    && (w.closing != Open ==> w.readers == {})
    && (w.closing == Waited || w.closing == Taken ==> w.launches == map[])
    && (forall n :: n in w.launches ==> (n in w.readers <==> w.launches[n].phase.Admitted? || w.launches[n].phase.Added?))
  }

  function ProcessOf(phase: Phase): set<Process> {
    if phase.Connected? || phase.Admitted? then {phase.process} else {}
  }

  predicate Holds(w: World, n: Thread, p: Process) {
    n in w.launches && p in ProcessOf(w.launches[n].phase)
  }

  /** The processes of launches under way are new. */
  ghost predicate Fresh(w: World) {
    && (forall n, p: Process :: Holds(w, n, p) ==> p < w.nextProcess && p !in w.registered)
    && (forall m, n, p: Process :: Holds(w, m, p) && Holds(w, n, p) ==> m == n)
    && (forall p :: p in w.registered ==> p < w.nextProcess)
  }

  /** Every registered process is in one place: live, torn down, replaced or to be closed. */
  ghost predicate Accounted(w: World) {
    && w.registered == Processes(w.live) + w.torn + w.replaced + w.toClose
    && Processes(w.live) !! w.torn && Processes(w.live) !! w.replaced && Processes(w.live) !! w.toClose
    && w.torn !! w.replaced && w.torn !! w.toClose && w.replaced !! w.toClose
    && (forall s, t :: s in w.live && t in w.live && s != t ==> w.live[s] != w.live[t])
    && (w.closing == Taken ==> w.live == map[])
    && (w.closing != Taken ==> w.toClose == {})
  }

  lemma StepGuarded(w: World, e: Event)
    requires Guarded(w)
    ensures Guarded(Next(w, e))
  {
  }

  /** A step that connects and registers none: a launch holds what it held, or nothing. */
  lemma MovingKeepsFresh(w: World, w': World)
    requires Fresh(w) && w'.registered == w.registered && w'.nextProcess == w.nextProcess
    requires forall n :: n in w'.launches ==>
               ProcessOf(w'.launches[n].phase) == {} || (n in w.launches && ProcessOf(w'.launches[n].phase) == ProcessOf(w.launches[n].phase))
    ensures Fresh(w')
  {
    assert forall n, p: Process :: Holds(w', n, p) ==> Holds(w, n, p);
  }

  lemma ConnectingKeepsFresh(w: World, n: Thread)
    requires Fresh(w)
    ensures Fresh(Next(w, Connect(n)))
  {
    var w' := Next(w, Connect(n));
    if At(w, n, Starting) {
      assert forall m, p: Process :: Holds(w', m, p) <==> (m == n && p == w.nextProcess) || (m != n && Holds(w, m, p));
    }
  }

  lemma AddingKeepsFresh(w: World, n: Thread, local: bool)
    requires Fresh(w)
    ensures Fresh(Next(w, AddJob(n, local)))
  {
    if n in w.launches && w.launches[n].phase.Admitted? {
      var w' := Next(w, AddJob(n, local));
      assert Holds(w, n, w.launches[n].phase.process);
      assert forall m, p: Process :: Holds(w', m, p) <==> m != n && Holds(w, m, p);
    }
  }

  lemma StepFresh(w: World, e: Event)
    requires Fresh(w)
    ensures Fresh(Next(w, e))
  {
    match e {
      case Connect(n) => ConnectingKeepsFresh(w, n);
      case AddJob(n, local) => AddingKeepsFresh(w, n, local);
      case _ => MovingKeepsFresh(w, Next(w, e));
    }
  }

  lemma StepAccounted(w: World, e: Event)
    requires Guarded(w) && Fresh(w) && Accounted(w)
    ensures Accounted(Next(w, e))
  {
    match e {
      case AddJob(n, local) => AddingAccounts(w, n, local);
      case Teardown(session) => TearingAccounts(w, session);
      case _ =>
    }
  }

  lemma AddingAccounts(w: World, n: Thread, local: bool)
    requires Guarded(w) && Fresh(w) && Accounted(w)
    ensures Accounted(Next(w, AddJob(n, local)))
  {
    if n in w.launches && w.launches[n].phase.Admitted? && !local {
      var (s, p) := (w.launches[n].session, w.launches[n].phase.process);
      assert Holds(w, n, p);
      LivePut(w.live, s, p);
    }
  }

  lemma LivePut(live: map<Session, Process>, s: Session, p: Process)
    requires forall s, t :: s in live && t in live && s != t ==> live[s] != live[t]
    ensures Processes(live[s := p]) == Processes(live - {s}) + {p}
    ensures s in live ==> Processes(live) == Processes(live - {s}) + {live[s]} && live[s] !in Processes(live - {s})
    ensures s !in live ==> live - {s} == live
  {
    var rest := live - {s};
    assert forall t :: t in live && t != s ==> t in rest && rest[t] == live[t];
    forall q | q in Processes(live[s := p])
      ensures q in Processes(rest) + {p}
    {
      var t :| t in live[s := p] && live[s := p][t] == q;
      assert t != s ==> t in rest && rest[t] == q;
    }
    forall q | q in Processes(rest) + {p}
      ensures q in Processes(live[s := p])
    {
      if q != p {
        var t :| t in rest && rest[t] == q;
        assert live[s := p][t] == q;
      } else {
        assert live[s := p][s] == p;
      }
    }
    if s in live {
      forall q | q in Processes(live)
        ensures q in Processes(rest) + {live[s]}
      {
        var t :| t in live && live[t] == q;
        assert t != s ==> t in rest && rest[t] == q;
      }
    }
  }

  lemma TearingAccounts(w: World, session: Session)
    requires Accounted(w)
    ensures Accounted(Next(w, Teardown(session)))
  {
    if session in w.live {
      LivePut(w.live, session, w.live[session]);
    } else {
      assert w.live - {session} == w.live;
    }
  }

  lemma {:induction false} RunsHold(events: seq<Event>)
    ensures Guarded(Run(events)) && Fresh(Run(events)) && Accounted(Run(events))
    decreases |events|
  {
    if events != [] {
      var w, e := Run(events[..|events| - 1]), events[|events| - 1];
      RunsHold(events[..|events| - 1]);
      StepGuarded(w, e);
      StepFresh(w, e);
      StepAccounted(w, e);
    }
  }

  /** Once Close has closed admission nothing is registered, and once it has taken its processes nothing is launched or live. */
  lemma {:induction false} NothingAfterClose(events: seq<Event>, e: Event)
    ensures var (w, w') := (Run(events), Next(Run(events), e));
            && (w.closing != Open ==> w.readers == {} && w'.registered == w.registered && w'.jobs <= w.jobs)
            && (w.closing == Taken ==> w.launches == map[] && w.live == map[])
  {
    RunsHold(events);
  }

  /** A launch registers its process while its session has a live one. */
  predicate Displaces(w: World, e: Event) {
    && e.AddJob? && !e.local && e.thread in w.launches && w.launches[e.thread].phase.Admitted?
    && w.launches[e.thread].session in w.live
  }

  /** Whether a launch did so in the run. */
  predicate Displaced(events: seq<Event>) {
    exists k | 0 <= k < |events| :: Displaces(Run(events[..k]), events[k])
  }

  lemma DisplacedOne(before: seq<Event>, e: Event)
    ensures Displaced(before + [e]) <==> Displaced(before) || Displaces(Run(before), e)
  {
    var all := before + [e];
    assert all[|before|] == e && all[..|before|] == before;
    assert forall k :: 0 <= k < |before| ==> all[k] == before[k] && all[..k] == before[..k];
  }

  lemma {:induction false} ReplacedExactly(events: seq<Event>)
    ensures Run(events).replaced != {} <==> Displaced(events)
    decreases |events|
  {
    if events != [] {
      var before, e := events[..|events| - 1], events[|events| - 1];
      ReplacedExactly(before);
      assert events == before + [e];
      DisplacedOne(before, e);
      StepReplaces(Run(before), e);
      assert Run(events) == Next(Run(before), e);
    }
  }

  lemma StepReplaces(w: World, e: Event)
    ensures Next(w, e).replaced != {} <==> w.replaced != {} || Displaces(w, e)
  {
    if Displaces(w, e) {
      assert w.live[w.launches[e.thread].session] in Next(w, e).replaced;
    }
  }

  /**
  Every process ever registered was torn down or is closed by Close, if and only
  if no launch registered one while its session had one that was live.
  */
  lemma {:induction false} ShutdownMissesOnlyReplaced(events: seq<Event>)
    requires Run(events).closing == Taken
    ensures var w := Run(events);
            && w.registered == w.torn + w.toClose + w.replaced && w.replaced !! w.torn && w.replaced !! w.toClose
            && (w.registered == w.torn + w.toClose <==> !Displaced(events))
  {
    RunsHold(events);
    ReplacedExactly(events);
    var w := Run(events);
    assert Processes(w.live) == {};
    if w.replaced != {} {
      var p :| p in w.replaced;
      assert p in w.registered;
    }
  }

  // ---- Launches of different sessions ----

  /** A launch begins, in any of the three ways, for a session that has a job or another launch. */
  predicate Overlaps(w: World, e: Event) {
    && (e.BeginResume? || e.BeginStart? || e.BeginSpawn?) && Next(w, e) != w
    && (e.session in w.jobs || exists n | n in w.launches :: w.launches[n].session == e.session)
  }

  predicate Overlapped(events: seq<Event>) {
    exists k | 0 <= k < |events| :: Overlaps(Run(events[..k]), events[k])
  }

  lemma OverlappedOne(before: seq<Event>, e: Event)
    ensures Overlapped(before + [e]) <==> Overlapped(before) || Overlaps(Run(before), e)
  {
    var all := before + [e];
    assert all[|before|] == e && all[..|before|] == before;
    assert forall k :: 0 <= k < |before| ==> all[k] == before[k] && all[..k] == before[..k];
  }

  /** A session has one launch, and no job before that is added. */
  ghost predicate OneLaunch(w: World) {
    && (forall m, n :: m in w.launches && n in w.launches && m != n ==> w.launches[m].session != w.launches[n].session)
    && (forall n :: n in w.launches && w.launches[n].phase != Added && w.launches[n].phase != Over ==> w.launches[n].session !in w.jobs)
    && w.live.Keys <= w.jobs && w.replaced == {}
  }

  lemma BeginningKeepsOneLaunch(w: World, e: Event)
    requires OneLaunch(w) && !Overlaps(w, e) && (e.BeginResume? || e.BeginStart? || e.BeginSpawn?)
    ensures OneLaunch(Next(w, e))
  {
    assert Next(w, e) != w ==> forall n :: n in w.launches ==> w.launches[n].session != e.session;
  }

  lemma AddingKeepsOneLaunch(w: World, n: Thread, local: bool)
    requires OneLaunch(w)
    ensures OneLaunch(Next(w, AddJob(n, local)))
  {
  }

  lemma MovingKeepsOneLaunch(w: World, e: Event)
    requires OneLaunch(w) && (e.Connect? || e.AdmitRegister? || e.ReleaseRegister? || e.EndLaunch?)
    ensures OneLaunch(Next(w, e))
  {
  }

  lemma StepOneLaunch(w: World, e: Event)
    requires OneLaunch(w) && !Overlaps(w, e)
    ensures OneLaunch(Next(w, e))
  {
    match e {
      case BeginResume(_, _) => BeginningKeepsOneLaunch(w, e);
      case BeginStart(_, _) => BeginningKeepsOneLaunch(w, e);
      case BeginSpawn(_, _) => BeginningKeepsOneLaunch(w, e);
      case AddJob(n, local) => AddingKeepsOneLaunch(w, n, local);
      case Connect(_) => MovingKeepsOneLaunch(w, e);
      case AdmitRegister(_) => MovingKeepsOneLaunch(w, e);
      case ReleaseRegister(_) => MovingKeepsOneLaunch(w, e);
      case EndLaunch(_) => MovingKeepsOneLaunch(w, e);
      case _ =>
    }
  }

  lemma {:induction false} LaunchesAreAlone(events: seq<Event>)
    requires !Overlapped(events)
    ensures OneLaunch(Run(events))
    decreases |events|
  {
    if events != [] {
      var before, e := events[..|events| - 1], events[|events| - 1];
      assert events == before + [e];
      OverlappedOne(before, e);
      LaunchesAreAlone(before);
      StepOneLaunch(Run(before), e);
    }
  }

  /** When no session is launched, in whatever way, while it has a job or another launch, shutdown misses nothing. */
  lemma {:induction false} ShutdownMissesNothing(events: seq<Event>)
    requires !Overlapped(events) && Run(events).closing == Taken
    ensures Run(events).registered == Run(events).torn + Run(events).toClose
  {
    LaunchesAreAlone(events);
    ShutdownMissesOnlyReplaced(events);
    ReplacedExactly(events);
  }

  predicate OnlyResumes(events: seq<Event>) {
    forall e :: e in events ==> !e.BeginSpawn? && !e.BeginStart?
  }

  ghost predicate Locked(w: World) {
    forall n :: n in w.launches ==> w.launches[n].locked && w.launches[n].session in w.locks
  }

  lemma StepLocked(w: World, e: Event)
    requires OneLaunch(w) && Locked(w) && !e.BeginSpawn? && !e.BeginStart?
    ensures Locked(Next(w, e)) && !Overlaps(w, e)
  {
  }

  /** A resume holds its session's lock and looks for its job, so resumes alone never overlap. */
  lemma {:induction false} ResumesDoNotOverlap(events: seq<Event>)
    requires OnlyResumes(events)
    ensures !Overlapped(events) && Locked(Run(events))
    decreases |events|
  {
    if events != [] {
      var before, e := events[..|events| - 1], events[|events| - 1];
      assert e in events && events == before + [e];
      ResumesDoNotOverlap(before);
      LaunchesAreAlone(before);
      StepLocked(Run(before), e);
      OverlappedOne(before, e);
    }
  }

  lemma RunStep(events: seq<Event>, e: Event)
    ensures Run(events + [e]) == Next(Run(events), e)
  {
    assert (events + [e])[..|events|] == events;
  }

  /** A spawn and a resume of its session begin; the spawn registers first. */
  const BEGINNING := [BeginSpawn(1, "s"), BeginResume(2, "s"), Connect(1), Connect(2)]
  const REGISTERING := [AdmitRegister(1), AddJob(1, false), AdmitRegister(2), AddJob(2, false)]

  lemma BeginningRun()
    ensures var w := Run(BEGINNING);
            && w.closing == Open && w.readers == {} && w.live == map[] && w.replaced == {}
            && w.launches == map[1 := Launch("s", false, Connected(0)), 2 := Launch("s", true, Connected(1))]
  {
    RunStep([], BEGINNING[0]);
    RunStep(BEGINNING[..1], BEGINNING[1]);
    RunStep(BEGINNING[..2], BEGINNING[2]);
    RunStep(BEGINNING[..3], BEGINNING[3]);
    assert [] + [BEGINNING[0]] == BEGINNING[..1] && BEGINNING[..1] + [BEGINNING[1]] == BEGINNING[..2];
    assert BEGINNING[..2] + [BEGINNING[2]] == BEGINNING[..3] && BEGINNING[..3] + [BEGINNING[3]] == BEGINNING;
  }

  lemma RegisteringRun()
    ensures var w := Run(BEGINNING + REGISTERING[..2]);
            && w.closing == Open && w.live == map["s" := 0] && w.replaced == {}
            && 2 in w.launches && w.launches[2] == Launch("s", true, Connected(1))
  {
    BeginningRun();
    RunStep(BEGINNING, REGISTERING[0]);
    RunStep(BEGINNING + REGISTERING[..1], REGISTERING[1]);
    assert BEGINNING + [REGISTERING[0]] == BEGINNING + REGISTERING[..1];
    assert BEGINNING + REGISTERING[..1] + [REGISTERING[1]] == BEGINNING + REGISTERING[..2];
  }

  /** A resume that found no job displaces the process of a spawn that registered since, which then neither a teardown nor Close finds. */
  lemma ALaunchReplaces()
    ensures Run(BEGINNING + REGISTERING).replaced == {0} && Run(BEGINNING + REGISTERING).live == map["s" := 1]
  {
    RegisteringRun();
    RunStep(BEGINNING + REGISTERING[..2], REGISTERING[2]);
    RunStep(BEGINNING + REGISTERING[..3], REGISTERING[3]);
    assert BEGINNING + REGISTERING[..2] + [REGISTERING[2]] == BEGINNING + REGISTERING[..3];
    assert BEGINNING + REGISTERING[..3] + [REGISTERING[3]] == BEGINNING + REGISTERING;
  }
}
