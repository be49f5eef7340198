/**
Requests for permission, and questions, that an agent's call waits on. A request
is taken from the table of pending ones once, by an answer, by a stop or steer
that cancels its session's requests, or by the end of its own call; who takes it
publishes the response and, except for the call itself, hands over the answer.
*/
module Permissions {
  import opened Wrappers

  type RequestId = string
  type Session = string

  datatype Request = Request(session: Session, options: set<string>, questions: set<string>)

  datatype Answer = NoAnswer | Chosen(option: string) | Structured(answers: map<string, seq<string>>)

  datatype Outcome = Outcome(selected: bool, answer: Answer)

  const CANCELLED := Outcome(false, NoAnswer)

  /** AnswerInteractive's request for a pending permission; blank fields are None. */
  datatype AnswerRequest = AnswerRequest(
    id: RequestId,
    session: Option<Session>,
    parentVisible: bool,
    answers: Option<map<string, seq<string>>>,
    option: Option<string>,
    text: Option<string>)

  datatype Refusal = NotFound | NoSession | WrongSession | NotStored | NoQuestions | NotPrepared | NothingSaid | UnknownOption

  datatype Resolution = Refused(reason: Refusal) | Resolves(outcome: Outcome)

  function Without(pending: map<RequestId, Request>, session: Session): map<RequestId, Request> {
    map id | id in pending && pending[id].session != session :: pending[id]
  }

  /** What an answer does to a pending request. `parents` are the registered sessions with their parents. */
  function Answering(pending: map<RequestId, Request>, parents: map<Session, Session>, req: AnswerRequest,
                     stored: bool, prepared: Option<map<string, seq<string>>>): Resolution
  {
    if req.id !in pending then Refused(NotFound)
    else
      var request := pending[req.id];
      if request.session !in parents then Refused(NoSession)
      else
        var parent := parents[request.session];
        if req.session.Some? && req.session.value != request.session && req.session.value != parent then Refused(WrongSession)
        else if (req.parentVisible || req.session == Some(parent)) && !stored then Refused(NotStored)
        else if req.answers.Some? then
          if request.questions == {} then Refused(NoQuestions)
          else if prepared.None? then Refused(NotPrepared)
          else Resolves(Outcome(true, Structured(prepared.value)))
        else if req.option.None? then
          if req.text.None? then Refused(NothingSaid) else Resolves(CANCELLED)
        else if req.option.value !in request.options then Refused(UnknownOption)
        else Resolves(Outcome(true, Chosen(req.option.value)))
  }

  /** The table of pending requests, changed under the permission lock. */
  class Table {
    var pending: map<RequestId, Request>

    constructor ()
      ensures pending == map[]
    {
      pending := map[];
    }

    method Register(id: RequestId, request: Request, ended: bool, successor: bool) returns (registered: bool)
      modifies this
      ensures registered == (!ended && !successor)
      ensures pending == if registered then old(pending)[id := request] else old(pending)
    {
      if ended || successor {
        return false;
      }
      pending := pending[id := request];
      return true;
    }

    /** A request's own call takes it back, unless someone else took it. */
    method Withdraw(id: RequestId) returns (withdrawn: bool)
      modifies this
      ensures withdrawn == (id in old(pending)) && pending == old(pending) - {id}
    {
      if id !in pending {
        return false;
      }
      pending := pending - {id};
      return true;
    }

    method TakeOf(session: Session) returns (taken: seq<RequestId>)
      modifies this
      ensures pending == Without(old(pending), session)
      ensures forall id :: id in taken <==> id in old(pending) && old(pending)[id].session == session
      ensures forall i, j :: 0 <= i < j < |taken| ==> taken[i] != taken[j]
    {
      taken := [];
      var left := pending.Keys;
      while left != {}
        invariant left <= old(pending).Keys
        invariant pending.Keys <= old(pending).Keys && forall id :: id in pending ==> pending[id] == old(pending)[id]
        invariant forall id :: id in old(pending) ==> (id !in pending <==> id !in left && old(pending)[id].session == session)
        invariant forall id :: id in taken <==> id in old(pending) && id !in pending
        invariant forall i, j :: 0 <= i < j < |taken| ==> taken[i] != taken[j]
        decreases left
      {
        var id :| id in left;
        left := left - {id};
        if pending[id].session == session {
          taken := taken + [id];
          pending := pending - {id};
        }
      }
      assert forall id :: id in pending <==> id in Without(old(pending), session);
    }

    method AnswerInteractive(parents: map<Session, Session>, req: AnswerRequest, stored: bool, prepared: Option<map<string, seq<string>>>)
      returns (result: Resolution)
      modifies this
      ensures result == Answering(old(pending), parents, req, stored, prepared)
      ensures pending == if result.Resolves? then old(pending) - {req.id} else old(pending)
    {
      if req.id !in pending {
        return Refused(NotFound);
      }
      var request := pending[req.id];
      if request.session !in parents {
        return Refused(NoSession);
      }
      var parent := parents[request.session];
      if req.session.Some? && req.session.value != request.session && req.session.value != parent {
        return Refused(WrongSession);
      }
      if (req.parentVisible || req.session == Some(parent)) && !stored {
        return Refused(NotStored);
      }
      var outcome := CANCELLED;
      if req.answers.Some? {
        if request.questions == {} {
          return Refused(NoQuestions);
        }
        if prepared.None? {
          return Refused(NotPrepared);
        }
        outcome := Outcome(true, Structured(prepared.value));
      } else if req.option.None? {
        if req.text.None? {
          return Refused(NothingSaid);
        }
      } else {
        if req.option.value !in request.options {
          return Refused(UnknownOption);
        }
        outcome := Outcome(true, Chosen(req.option.value));
      }
      pending := pending - {req.id};
      return Resolves(outcome);
    }
  }

  // ---- Runs ----

  /** The call that waits: registered, its request published, waiting, waiting for an answer under way, gone, answered. */
  datatype Phase = Registered | Announced | Waiting | Draining | Withdrawn(published: bool) | Answered(answer: Answer)

  /** Who took the request: none, or one that has yet to publish the response, to hand over the answer, or nothing more to do. */
  datatype Resolving = Untaken | Taken(outcome: Outcome, listed: bool) | Responded(outcome: Outcome) | Delivered(outcome: Outcome)

  /** Why an event of a request is not published: the store refused it, or a stop or steer found its session gone. */
  datatype Gap = RequestNotStored | ResponseNotStored | SessionGone

  /** `gaps` are the events of the request that were not published; `answer` is what is in its channel. */
  datatype Asked = Asked(request: Request, phase: Phase, resolving: Resolving, answer: Option<Answer>, gaps: set<Gap>)

  datatype Kind = RequestOf | ResponseOf(outcome: Outcome)

  datatype Published = Published(id: RequestId, kind: Kind)

  /** `cleared` are the sessions whose requests a steer took since their turn had but one prompt call. */
  datatype World = World(
    pending: map<RequestId, Request>,
    asked: map<RequestId, Asked>,
    events: seq<Published>,
    parents: map<Session, Session>,
    calls: map<Session, nat>,
    cleared: set<Session>)

  /** `stored` says whether the store takes the event; one that it refuses is not published. */
  datatype WaiterStep = Announce(stored: bool) | Open | ContextEnds | PublishWithdrawal(stored: bool) | ReceiveAnswer

  datatype ResolverStep = Respond(stored: bool) | Deliver

  datatype Event =
    | Ask(id: RequestId, request: Request, ended: bool)
    | OfWaiter(id: RequestId, waiter: WaiterStep)
    | AnswerPermission(req: AnswerRequest, stored: bool, prepared: Option<map<string, seq<string>>>)
    | CancelSession(session: Session)
    | OfResolver(id: RequestId, resolver: ResolverStep)
    | AddJob(session: Session, parent: Session)
    | RemoveJob(session: Session)
    | SetCalls(session: Session, calls: nat)
    | SteerByUser(session: Session)

  function Calls(w: World, session: Session): nat {
    if session in w.calls then w.calls[session] else 0
  }

  function Take(a: Asked, outcome: Outcome, listed: bool): Asked {
    a.(resolving := Taken(outcome, listed))
  }

  function CancelAll(w: World, session: Session): World {
    w.(pending := Without(w.pending, session),
       asked := map id | id in w.asked ::
         if id in w.pending && w.pending[id].session == session then Take(w.asked[id], CANCELLED, true) else w.asked[id])
  }

  predicate Shown(phase: Phase) {
    phase != Registered && phase != Announced
  }

  /** What a step makes of its request, what it publishes, and whether the request stays pending. */
  datatype Move = Move(asked: Asked, published: Option<Kind>, pending: bool)

  /** Takes a request on with an event of it, which is published unless there is a gap. */
  function Publishing(a: Asked, kind: Kind, gap: Option<Gap>, pending: bool): Move {
    if gap.Some? then Move(a.(gaps := a.gaps + {gap.value}), None, pending) else Move(a, Some(kind), pending)
  }

  function Storing(stored: bool, gap: Gap): Option<Gap> {
    if stored then None else Some(gap)
  }

  /** The waiting call's own steps. */
  function WaiterMove(a: Asked, e: WaiterStep, pending: bool): Move {
    var stays := Move(a, None, pending);
    match e
    case Announce(stored) =>
      if a.phase != Registered then stays
      else Publishing(a.(phase := Announced), RequestOf, Storing(stored, RequestNotStored), pending)
    case Open => if a.phase != Announced then stays else Move(a.(phase := Waiting), None, pending)
    case ContextEnds =>
      if a.phase != Waiting then stays
      else if pending then Move(a.(phase := Withdrawn(false)), None, false)
      else Move(a.(phase := Draining), None, pending)
    case PublishWithdrawal(stored) =>
      if a.phase != Withdrawn(false) then stays
      else Publishing(a.(phase := Withdrawn(true)), ResponseOf(CANCELLED), Storing(stored, ResponseNotStored), pending)
    case ReceiveAnswer =>
      if (a.phase != Waiting && a.phase != Draining) || a.answer.None? then stays
      else Move(a.(phase := Answered(a.answer.value), answer := None), None, pending)
  }

  /**
  The steps of who took the request: a response waits until the request was
  published, the answer until the response was. A stop or steer publishes none
  for a session that is registered no more.
  */
  function ResolverMove(a: Asked, e: ResolverStep, pending: bool, registered: bool): Move {
    var stays := Move(a, None, pending);
    match e
    case Respond(stored) =>
      if !a.resolving.Taken? || !Shown(a.phase) then stays
      else
        var gap := if a.resolving.listed && !registered then Some(SessionGone) else Storing(stored, ResponseNotStored);
        Publishing(a.(resolving := Responded(a.resolving.outcome)), ResponseOf(a.resolving.outcome), gap, pending)
    case Deliver =>
      if !a.resolving.Responded? then stays
      else Move(a.(resolving := Delivered(a.resolving.outcome), answer := Some(a.resolving.outcome.answer)), None, pending)
  }

  function Moved(w: World, id: RequestId, move: Move): World {
    w.(asked := w.asked[id := move.asked],
       events := if move.published.Some? then w.events + [Published(id, move.published.value)] else w.events,
       pending := if move.pending then w.pending else w.pending - {id})
  }

  function Waits(w: World, e: WaiterStep, id: RequestId): World {
    if id in w.asked then Moved(w, id, WaiterMove(w.asked[id], e, id in w.pending)) else w
  }

  function Resolve(w: World, e: ResolverStep, id: RequestId): World {
    if id in w.asked then Moved(w, id, ResolverMove(w.asked[id], e, id in w.pending, w.asked[id].request.session in w.parents)) else w
  }

  /** A step; one that cannot happen changes nothing. A request has an id of its own. */
  function Next(w: World, e: Event): World {
    match e
    case Ask(id, request, ended) =>
      if id in w.asked || ended || Calls(w, request.session) > 1 then w
      else w.(asked := w.asked[id := Asked(request, Registered, Untaken, None, {})], pending := w.pending[id := request])
    case OfWaiter(id, step) => Waits(w, step, id)
    case OfResolver(id, step) => Resolve(w, step, id)
    case AnswerPermission(req, stored, prepared) =>
      var result := Answering(w.pending, w.parents, req, stored, prepared);
      if result.Refused? || req.id !in w.asked then w
      else Moved(w, req.id, Move(Take(w.asked[req.id], result.outcome, false), None, false))
    case CancelSession(session) => CancelAll(w, session)
    case AddJob(session, parent) => w.(parents := w.parents[session := parent])
    case RemoveJob(session) => w.(parents := w.parents - {session})
    case SetCalls(session, calls) =>
      w.(calls := w.calls[session := calls], cleared := if Calls(w, session) <= 1 || calls <= 1 then w.cleared - {session} else w.cleared)
    case SteerByUser(session) => CancelAll(w, session).(cleared := w.cleared + {session})
  }

  function Run(events: seq<Event>): World {
    if events == [] then World(map[], map[], [], map[], map[], {})
    else Next(Run(events[..|events| - 1]), events[|events| - 1])
  }

  /** What was published of one request, in order. */
  function Of(events: seq<Published>, id: RequestId): seq<Kind> {
    if events == [] then []
    else
      var last := events[|events| - 1];
      Of(events[..|events| - 1], id) + if last.id == id then [last.kind] else []
  }

  lemma OfPublished(events: seq<Published>, id: RequestId, kind: Kind, other: RequestId)
    ensures Of(events + [Published(id, kind)], other) == Of(events, other) + if other == id then [kind] else []
  {
    assert (events + [Published(id, kind)])[..|events|] == events;
  }

  predicate Responseless(a: Asked) {
    ResponseNotStored in a.gaps || SessionGone in a.gaps
  }

  function Responses(a: Asked): seq<Kind> {
    if Responseless(a) then []
    else if a.phase == Withdrawn(true) then [ResponseOf(CANCELLED)]
    else if a.resolving.Responded? || a.resolving.Delivered? then [ResponseOf(a.resolving.outcome)]
    else []
  }

  /** The request event and then the response, as far as the request got. */
  function Log(a: Asked): seq<Kind> {
    (if a.phase == Registered || RequestNotStored in a.gaps then [] else [RequestOf]) + Responses(a)
  }

  /** One request is pending or was taken once, and its answer is in the channel or was received. */
  predicate Sound(a: Asked, pending: bool) {
    && (pending <==> a.resolving.Untaken? && !a.phase.Withdrawn?)
    && (a.phase.Withdrawn? ==> a.resolving.Untaken?)
    && (a.phase.Draining? ==> !a.resolving.Untaken?)
    && (!Shown(a.phase) ==> a.resolving.Untaken? || a.resolving.Taken?)
    && (a.phase.Answered? ==> a.resolving.Delivered? && a.resolving.outcome.answer == a.phase.answer)
    && a.answer == (if a.resolving.Delivered? && !a.phase.Answered? then Some(a.resolving.outcome.answer) else None)
    && (RequestNotStored in a.gaps ==> a.phase != Registered)
    && (ResponseNotStored in a.gaps ==> a.phase == Withdrawn(true) || a.resolving.Responded? || a.resolving.Delivered?)
    && (SessionGone in a.gaps ==> (a.resolving.Responded? || a.resolving.Delivered?) && a.resolving.outcome == CANCELLED)
    && (a.resolving.Taken? && a.resolving.listed ==> a.resolving.outcome == CANCELLED)
  }

  ghost predicate AskedSoundly(w: World) {
    && w.pending.Keys <= w.asked.Keys
    && (forall id :: id in w.pending ==> w.pending[id] == w.asked[id].request)
    && (forall id :: id in w.asked ==> Sound(w.asked[id], id in w.pending))
  }

  ghost predicate Logged(w: World) {
    forall id :: Of(w.events, id) == if id in w.asked then Log(w.asked[id]) else []
  }

  /** No request waits in a session with a second prompt call that a steer by the person made way for. */
  ghost predicate MadeWay(w: World) {
    forall id :: id in w.pending && w.pending[id].session in w.cleared ==> Calls(w, w.pending[id].session) <= 1
  }

  /** A move keeps its request sound and publishes just what it moves the request on by. */
  predicate Faithful(a: Asked, pending: bool, move: Move) {
    && Sound(move.asked, move.pending) && (move.pending ==> pending) && move.asked.request == a.request
    && Log(move.asked) == Log(a) + if move.published.Some? then [move.published.value] else []
  }

  lemma WaiterIsFaithful(a: Asked, e: WaiterStep, pending: bool)
    requires Sound(a, pending)
    ensures Faithful(a, pending, WaiterMove(a, e, pending))
  {
  }

  lemma ResolverIsFaithful(a: Asked, e: ResolverStep, pending: bool, registered: bool)
    requires Sound(a, pending)
    ensures Faithful(a, pending, ResolverMove(a, e, pending, registered))
  {
  }

  lemma TakingIsFaithful(a: Asked, outcome: Outcome, listed: bool)
    requires Sound(a, true) && (listed ==> outcome == CANCELLED)
    ensures Faithful(a, true, Move(Take(a, outcome, listed), None, false))
  {
  }

  lemma MovedSoundly(w: World, id: RequestId, move: Move)
    requires AskedSoundly(w) && id in w.asked && Faithful(w.asked[id], id in w.pending, move)
    ensures AskedSoundly(Moved(w, id, move))
  {
  }

  lemma MovedKeeps(w: World, id: RequestId, move: Move)
    requires AskedSoundly(w) && Logged(w) && id in w.asked && Faithful(w.asked[id], id in w.pending, move)
    ensures AskedSoundly(Moved(w, id, move)) && Logged(Moved(w, id, move))
  {
    MovedSoundly(w, id, move);
    var w' := Moved(w, id, move);
    forall other
      ensures Of(w'.events, other) == if other in w'.asked then Log(w'.asked[other]) else []
    {
      if move.published.Some? {
        OfPublished(w.events, id, move.published.value, other);
      }
    }
  }

  lemma CancellingKeeps(w: World, session: Session)
    requires AskedSoundly(w) && Logged(w)
    ensures AskedSoundly(CancelAll(w, session)) && Logged(CancelAll(w, session))
  {
    forall id | id in w.pending && w.pending[id].session == session
      ensures Faithful(w.asked[id], true, Move(Take(w.asked[id], CANCELLED, true), None, false))
    {
      TakingIsFaithful(w.asked[id], CANCELLED, true);
    }
  }

  lemma WaitsKeeps(w: World, e: WaiterStep, id: RequestId)
    requires AskedSoundly(w) && Logged(w)
    ensures AskedSoundly(Waits(w, e, id)) && Logged(Waits(w, e, id))
  {
    if id in w.asked {
      WaiterIsFaithful(w.asked[id], e, id in w.pending);
      MovedKeeps(w, id, WaiterMove(w.asked[id], e, id in w.pending));
    }
  }

  lemma ResolveKeeps(w: World, e: ResolverStep, id: RequestId)
    requires AskedSoundly(w) && Logged(w)
    ensures AskedSoundly(Resolve(w, e, id)) && Logged(Resolve(w, e, id))
  {
    if id in w.asked {
      var registered := w.asked[id].request.session in w.parents;
      ResolverIsFaithful(w.asked[id], e, id in w.pending, registered);
      MovedKeeps(w, id, ResolverMove(w.asked[id], e, id in w.pending, registered));
    }
  }

  lemma TakingKeeps(w: World, id: RequestId, outcome: Outcome)
    requires AskedSoundly(w) && Logged(w) && id in w.pending
    ensures var move := Move(Take(w.asked[id], outcome, false), None, false);
            AskedSoundly(Moved(w, id, move)) && Logged(Moved(w, id, move))
  {
    TakingIsFaithful(w.asked[id], outcome, false);
    MovedKeeps(w, id, Move(Take(w.asked[id], outcome, false), None, false));
  }

  lemma AskingKeeps(w: World, id: RequestId, request: Request, ended: bool)
    requires AskedSoundly(w) && Logged(w)
    ensures AskedSoundly(Next(w, Ask(id, request, ended))) && Logged(Next(w, Ask(id, request, ended)))
  {
    var a := Asked(request, Registered, Untaken, None, {});
    assert Log(a) == [];
    if Next(w, Ask(id, request, ended)) != w {
      AskedAdds(w, id, a);
    }
  }

  lemma AskedAdds(w: World, id: RequestId, a: Asked)
    requires AskedSoundly(w) && Logged(w) && id !in w.asked && Sound(a, true) && Log(a) == []
    ensures var w' := w.(asked := w.asked[id := a], pending := w.pending[id := a.request]);
            AskedSoundly(w') && Logged(w')
  {
  }

  lemma AnsweringKeeps(w: World, e: Event)
    requires AskedSoundly(w) && Logged(w) && e.AnswerPermission?
    ensures AskedSoundly(Next(w, e)) && Logged(Next(w, e))
  {
    var result := Answering(w.pending, w.parents, e.req, e.stored, e.prepared);
    if result.Resolves? {
      TakingKeeps(w, e.req.id, result.outcome);
    }
  }

  lemma StepKeepsSound(w: World, e: Event)
    requires AskedSoundly(w) && Logged(w)
    ensures AskedSoundly(Next(w, e)) && Logged(Next(w, e))
  {
    match e {
      case Ask(id, request, ended) => AskingKeeps(w, id, request, ended);
      case AnswerPermission(_, _, _) => AnsweringKeeps(w, e);
      case CancelSession(session) => CancellingKeeps(w, session);
      case SteerByUser(session) => CancellingKeeps(w, session);
      case OfWaiter(id, step) => WaitsKeeps(w, step, id);
      case OfResolver(id, step) => ResolveKeeps(w, step, id);
      case _ =>
    }
  }

  lemma StepKeepsWay(w: World, e: Event)
    requires AskedSoundly(w) && MadeWay(w)
    ensures MadeWay(Next(w, e))
  {
  }

  /** An answer is one that the request offers: one of its options, or answers to questions that it has. */
  predicate Offers(request: Request, answer: Answer) {
    match answer
    case NoAnswer => true
    case Chosen(option) => option in request.options
    case Structured(_) => request.questions != {}
  }

  predicate AnswersOffered(w: World) {
    forall id :: id in w.asked && !w.asked[id].resolving.Untaken? ==> Offers(w.asked[id].request, w.asked[id].resolving.outcome.answer)
  }

  lemma StepKeepsOffered(w: World, e: Event)
    requires AskedSoundly(w) && AnswersOffered(w)
    ensures AnswersOffered(Next(w, e))
  {
  }

  lemma {:induction false} RunsHold(events: seq<Event>)
    ensures var w := Run(events);
            AskedSoundly(w) && Logged(w) && MadeWay(w) && AnswersOffered(w)
    decreases |events|
  {
    if events != [] {
      RunsHold(events[..|events| - 1]);
      StepKeepsSound(Run(events[..|events| - 1]), events[|events| - 1]);
      StepKeepsWay(Run(events[..|events| - 1]), events[|events| - 1]);
      StepKeepsOffered(Run(events[..|events| - 1]), events[|events| - 1]);
    }
  }

  /** Whether the request's call has its answer. */
  predicate Finished(a: Asked) {
    a.phase.Answered? || a.phase == Withdrawn(true)
  }

  function AnswerOf(a: Asked): Answer
    requires Finished(a)
  {
    if a.phase.Answered? then a.phase.answer else NoAnswer
  }

  /** A resolver is about to respond: it took the request, and the request event is past. */
  predicate Responds(w: World, e: Event, id: RequestId) {
    e.OfResolver? && e.id == id && e.resolver.Respond? && id in w.asked && w.asked[id].resolving.Taken? && Shown(w.asked[id].phase)
  }

  /** The resolver is a stop or steer whose session is registered no more. */
  predicate Gone(w: World, id: RequestId) {
    id in w.asked && w.asked[id].resolving.Taken? && w.asked[id].resolving.listed && w.asked[id].request.session !in w.parents
  }

  /** A step at which an event of the request is due and is not published. */
  predicate LeavesOut(w: World, e: Event, id: RequestId, gap: Gap) {
    match gap
    case RequestNotStored => e == OfWaiter(id, Announce(false)) && id in w.asked && w.asked[id].phase == Registered
    case SessionGone => Responds(w, e, id) && Gone(w, id)
    case ResponseNotStored =>
      || (e == OfWaiter(id, PublishWithdrawal(false)) && id in w.asked && w.asked[id].phase == Withdrawn(false))
      || (Responds(w, e, id) && !e.resolver.stored && !Gone(w, id))
  }

  /** Whether such a step is in the run. */
  predicate LeftOut(events: seq<Event>, id: RequestId, gap: Gap) {
    exists k | 0 <= k < |events| :: LeavesOut(Run(events[..k]), events[k], id, gap)
  }

  lemma LeftOutOne(before: seq<Event>, e: Event, id: RequestId, gap: Gap)
    ensures LeftOut(before + [e], id, gap) <==> LeftOut(before, id, gap) || LeavesOut(Run(before), e, id, gap)
  {
    var all := before + [e];
    assert all[|before|] == e && all[..|before|] == before;
    assert forall k :: 0 <= k < |before| ==> all[k] == before[k] && all[..k] == before[..k];
  }

  /** The request has the gap just when the run left the event out. */
  predicate GapIs(w: World, id: RequestId, gap: Gap, leftOut: bool) {
    leftOut <==> id in w.asked && gap in w.asked[id].gaps
  }

  lemma WaitsLeaves(w: World, step: WaiterStep, of: RequestId, id: RequestId, gap: Gap, leftOut: bool)
    requires GapIs(w, id, gap, leftOut)
    ensures GapIs(Waits(w, step, of), id, gap, leftOut || LeavesOut(w, OfWaiter(of, step), id, gap))
  {
  }

  lemma ResolveLeaves(w: World, step: ResolverStep, of: RequestId, id: RequestId, gap: Gap, leftOut: bool)
    requires GapIs(w, id, gap, leftOut)
    ensures GapIs(Resolve(w, step, of), id, gap, leftOut || LeavesOut(w, OfResolver(of, step), id, gap))
  {
  }

  lemma OthersLeaveNone(w: World, e: Event, id: RequestId, gap: Gap, leftOut: bool)
    requires AskedSoundly(w) && GapIs(w, id, gap, leftOut) && !e.OfResolver? && !e.OfWaiter?
    ensures GapIs(Next(w, e), id, gap, leftOut)
  {
  }

  lemma StepLeaves(w: World, e: Event, id: RequestId, gap: Gap, leftOut: bool)
    requires AskedSoundly(w) && GapIs(w, id, gap, leftOut)
    ensures GapIs(Next(w, e), id, gap, leftOut || LeavesOut(w, e, id, gap))
  {
    match e {
      case OfWaiter(of, step) => WaitsLeaves(w, step, of, id, gap, leftOut);
      case OfResolver(of, step) => ResolveLeaves(w, step, of, id, gap, leftOut);
      case _ => OthersLeaveNone(w, e, id, gap, leftOut);
    }
  }

  lemma {:induction false} GapsAre(events: seq<Event>, id: RequestId, gap: Gap)
    ensures GapIs(Run(events), id, gap, LeftOut(events, id, gap))
    decreases |events|
  {
    if events != [] {
      var before, e := events[..|events| - 1], events[|events| - 1];
      GapsAre(before, id, gap);
      RunsHold(before);
      assert events == before + [e];
      LeftOutOne(before, e, id, gap);
      StepLeaves(Run(before), e, id, gap, LeftOut(before, id, gap));
      assert Run(events) == Next(Run(before), e);
    }
  }

  /** Whether the run left the request's response out: the store refused it, or a stop or steer found the session gone. */
  predicate NoResponse(events: seq<Event>, id: RequestId) {
    LeftOut(events, id, ResponseNotStored) || LeftOut(events, id, SessionGone)
  }

  /** The log is the request event, if announced, and then the response with the answer, if there is one. */
  predicate Shows(log: seq<Kind>, announced: bool, answer: Option<Answer>) {
    && |log| == (if announced then 1 else 0) + (if answer.Some? then 1 else 0)
    && (announced ==> log[0] == RequestOf)
    && (answer.Some? ==> log[|log| - 1].ResponseOf? && log[|log| - 1].outcome.answer == answer.value)
  }

  /**
  Whatever races for a request, it is published once at most and answered once:
  a response event is one at most, comes after the request event and when the
  request is pending no more. When its call has its answer, both events are
  there, the response with that answer, but for those that the run left out; a
  session that was gone leaves none but an empty answer's.
  */
  lemma {:induction false} OneResponseEach(events: seq<Event>, id: RequestId)
    requires id in Run(events).asked
    ensures var w := Run(events);
            var (a, log) := (w.asked[id], Of(w.events, id));
            && |log| <= 2 && (|log| == 2 ==> log[0] == RequestOf && log[1].ResponseOf?)
            && (|log| > 0 && log[|log| - 1].ResponseOf? ==> id !in w.pending)
            && (Finished(a) ==>
                  Shows(log, !LeftOut(events, id, RequestNotStored), if NoResponse(events, id) then None else Some(AnswerOf(a))))
            && (Finished(a) && LeftOut(events, id, SessionGone) ==> AnswerOf(a) == NoAnswer)
  {
    RunsHold(events);
    GapsAre(events, id, RequestNotStored);
    GapsAre(events, id, ResponseNotStored);
    GapsAre(events, id, SessionGone);
  }

  lemma LogSays(a: Asked)
    ensures RequestOf in Log(a) <==> a.phase != Registered && RequestNotStored !in a.gaps
    ensures Responses(a) == [] ==> forall kind :: kind in Log(a) ==> kind == RequestOf
    ensures Responses(a) != [] ==> Responses(a)[0].ResponseOf? && Responses(a)[0] in Log(a)
  {
  }

  /**
  A request that has its answer has no response event if and only if in its run
  the store refused the response or the withdrawal, or a stop or steer that took
  the request responded when its session was not registered.
  */
  lemma {:induction false} SilentExactly(events: seq<Event>, id: RequestId)
    requires id in Run(events).asked && Finished(Run(events).asked[id])
    ensures (forall kind :: kind in Of(Run(events).events, id) ==> !kind.ResponseOf?) <==> NoResponse(events, id)
  {
    RunsHold(events);
    GapsAre(events, id, ResponseNotStored);
    GapsAre(events, id, SessionGone);
    LogSays(Run(events).asked[id]);
  }

  /** A request past its announcement has its request event if and only if the store took it. */
  lemma {:induction false} AnnouncedExactly(events: seq<Event>, id: RequestId)
    requires id in Run(events).asked && Run(events).asked[id].phase != Registered
    ensures RequestOf in Of(Run(events).events, id) <==> !LeftOut(events, id, RequestNotStored)
  {
    RunsHold(events);
    GapsAre(events, id, RequestNotStored);
    LogSays(Run(events).asked[id]);
  }

  /** A stop or a steer of the request's session finds it pending. */
  predicate Lists(w: World, e: Event, id: RequestId) {
    id in w.pending && (e == CancelSession(w.pending[id].session) || e == SteerByUser(w.pending[id].session))
  }

  predicate ListedIn(events: seq<Event>, id: RequestId) {
    exists k | 0 <= k < |events| :: Lists(Run(events[..k]), events[k], id)
  }

  lemma ListedOne(before: seq<Event>, e: Event, id: RequestId)
    ensures ListedIn(before + [e], id) <==> ListedIn(before, id) || Lists(Run(before), e, id)
  {
    var all := before + [e];
    assert all[|before|] == e && all[..|before|] == before;
    assert forall k :: 0 <= k < |before| ==> all[k] == before[k] && all[..k] == before[..k];
  }

  /** How a request was taken is what the run's stops and steers found. */
  predicate ListedAs(w: World, id: RequestId, listed: bool) {
    && (id in w.asked && w.asked[id].resolving.Taken? ==> (w.asked[id].resolving.listed <==> listed))
    && (listed ==> id in w.asked && !w.asked[id].resolving.Untaken?)
  }

  lemma ResolveKeepsListed(w: World, step: ResolverStep, of: RequestId, id: RequestId, listed: bool)
    requires ListedAs(w, id, listed)
    ensures ListedAs(Resolve(w, step, of), id, listed)
  {
  }

  lemma WaitsKeepListed(w: World, step: WaiterStep, of: RequestId, id: RequestId, listed: bool)
    requires ListedAs(w, id, listed)
    ensures ListedAs(Waits(w, step, of), id, listed)
  {
  }

  lemma CancellingLists(w: World, session: Session, id: RequestId, listed: bool)
    requires AskedSoundly(w) && ListedAs(w, id, listed)
    ensures ListedAs(CancelAll(w, session), id, listed || (id in w.pending && w.pending[id].session == session))
  {
  }

  lemma StepLists(w: World, e: Event, id: RequestId, listed: bool)
    requires AskedSoundly(w) && ListedAs(w, id, listed)
    ensures ListedAs(Next(w, e), id, listed || Lists(w, e, id))
  {
    match e {
      case OfWaiter(of, step) => WaitsKeepListed(w, step, of, id, listed);
      case OfResolver(of, step) => ResolveKeepsListed(w, step, of, id, listed);
      case CancelSession(session) => CancellingLists(w, session, id, listed);
      case SteerByUser(session) => CancellingLists(w, session, id, listed);
      case _ =>
    }
  }

  /** A request was taken as one of a session's just when a stop or steer of the session found it pending. */
  lemma {:induction false} ListedExactly(events: seq<Event>, id: RequestId)
    requires id in Run(events).asked && Run(events).asked[id].resolving.Taken?
    ensures Run(events).asked[id].resolving.listed <==> ListedIn(events, id)
  {
    ListedTakes(events, id);
  }

  lemma {:induction false} ListedTakes(events: seq<Event>, id: RequestId)
    ensures ListedAs(Run(events), id, ListedIn(events, id))
    decreases |events|
  {
    if events != [] {
      var before, e := events[..|events| - 1], events[|events| - 1];
      ListedTakes(before, id);
      RunsHold(before);
      assert events == before + [e];
      ListedOne(before, e, id);
      StepLists(Run(before), e, id, ListedIn(before, id));
      assert Run(events) == Next(Run(before), e);
    }
  }

  /** A call only ever gets an answer that its request offers. */
  lemma {:induction false} AnswersAreOffered(events: seq<Event>, id: RequestId)
    requires id in Run(events).asked && Finished(Run(events).asked[id])
    ensures Offers(Run(events).asked[id].request, AnswerOf(Run(events).asked[id]))
  {
    RunsHold(events);
  }

  /** How many steps a request that was taken is from its end. */
  function Remaining(a: Asked): nat {
    (match a.phase case Registered => 4 case Announced => 3 case Waiting => 2 case Draining => 1 case _ => 0)
    + (match a.resolving case Untaken => 0 case Taken(_, _) => 2 case Responded(_) => 1 case Delivered(_) => 0)
  }

  function NextOf(id: RequestId, a: Asked, stored: bool): Event {
    if a.phase == Registered then OfWaiter(id, Announce(stored))
    else if a.phase == Announced then OfWaiter(id, Open)
    else if a.resolving.Taken? then OfResolver(id, Respond(stored))
    else if a.resolving.Responded? then OfResolver(id, Deliver)
    else OfWaiter(id, ReceiveAnswer)
  }

  lemma TakenMoves(id: RequestId, a: Asked, stored: bool, registered: bool)
    requires Sound(a, false) && !a.resolving.Untaken? && !Finished(a)
    ensures var e := NextOf(id, a, stored);
            var move := if e.OfResolver? then ResolverMove(a, e.resolver, false, registered) else WaiterMove(a, e.waiter, false);
            Remaining(move.asked) < Remaining(a)
  {
  }

  /** A request that was taken is never stuck: until its call has the answer some step brings it closer, whether the store takes its event or not. */
  lemma {:induction false} TakenGoesOn(events: seq<Event>, id: RequestId, stored: bool)
    requires var w := Run(events);
             id in w.asked && !w.asked[id].resolving.Untaken? && !Finished(w.asked[id])
    ensures var w := Run(events);
            var w' := Next(w, NextOf(id, w.asked[id], stored));
            id in w'.asked && Remaining(w'.asked[id]) < Remaining(w.asked[id])
  {
    RunsHold(events);
    StepGoesOn(Run(events), id, stored);
  }

  lemma StepGoesOn(w: World, id: RequestId, stored: bool)
    requires id in w.asked && Sound(w.asked[id], id in w.pending) && !w.asked[id].resolving.Untaken? && !Finished(w.asked[id])
    ensures var w' := Next(w, NextOf(id, w.asked[id], stored));
            id in w'.asked && Remaining(w'.asked[id]) < Remaining(w.asked[id])
  {
    var e := NextOf(id, w.asked[id], stored);
    TakenMoves(id, w.asked[id], stored, w.asked[id].request.session in w.parents);
    assert Next(w, e) == if e.OfResolver? then Resolve(w, e.resolver, id) else Waits(w, e.waiter, id);
  }

  lemma RunStep(events: seq<Event>, e: Event)
    ensures Run(events + [e]) == Next(Run(events), e)
  {
    assert (events + [e])[..|events|] == events;
  }

  const REQUEST := Request("s", {"o"}, {})
  const ANSWER := AnswerPermission(AnswerRequest("r", None, false, None, Some("o"), None), true, None)

  /** A request of a registered session, whose event the store takes or not. */
  function Asking(stored: bool): seq<Event> {
    [AddJob("s", ""), Ask("r", REQUEST, false), OfWaiter("r", Announce(stored)), OfWaiter("r", Open)]
  }

  const REMOVING := [CancelSession("s"), RemoveJob("s"), OfResolver("r", Respond(true)), OfResolver("r", Deliver), OfWaiter("r", ReceiveAnswer)]

  function GapsOf(gap: Gap, stored: bool): set<Gap> {
    if stored then {} else {gap}
  }

  lemma AskingRun(stored: bool)
    ensures var w := Run(Asking(stored));
            && "r" in w.asked && w.pending == map["r" := REQUEST] && w.parents == map["s" := ""]
            && w.asked["r"] == Asked(REQUEST, Waiting, Untaken, None, GapsOf(RequestNotStored, stored))
  {
    var events := Asking(stored);
    RunStep([], events[0]);
    RunStep(events[..1], events[1]);
    RunStep(events[..2], events[2]);
    RunStep(events[..3], events[3]);
    assert [] + [events[0]] == events[..1] && events[..1] + [events[1]] == events[..2];
    assert events[..2] + [events[2]] == events[..3] && events[..3] + [events[3]] == events;
  }

  lemma CancelledRun()
    ensures var w := Run(Asking(true) + REMOVING[..2]);
            "r" in w.asked && w.asked["r"] == Asked(REQUEST, Waiting, Taken(CANCELLED, true), None, {}) && "s" !in w.parents
  {
    AskingRun(true);
    RunStep(Asking(true), REMOVING[0]);
    RunStep(Asking(true) + REMOVING[..1], REMOVING[1]);
    assert Asking(true) + [REMOVING[0]] == Asking(true) + REMOVING[..1];
    assert Asking(true) + REMOVING[..1] + [REMOVING[1]] == Asking(true) + REMOVING[..2];
    CancelTakes(Run(Asking(true)), "s", "r");
  }

  lemma CancelTakes(w: World, session: Session, id: RequestId)
    requires id in w.asked && id in w.pending && w.pending[id].session == session
    ensures id in CancelAll(w, session).asked && CancelAll(w, session).asked[id] == Take(w.asked[id], CANCELLED, true)
  {
  }

  function Ending(id: RequestId, stored: bool): seq<Event> {
    [OfResolver(id, Respond(stored)), OfResolver(id, Deliver), OfWaiter(id, ReceiveAnswer)]
  }

  lemma RespondRun(events: seq<Event>, id: RequestId, stored: bool)
    requires id in Run(events).asked && Run(events).asked[id].phase == Waiting && Run(events).asked[id].resolving.Taken?
    ensures var (a, w) := (Run(events).asked[id], Run(events + [OfResolver(id, Respond(stored))]));
            var gap := if Gone(Run(events), id) then {SessionGone} else GapsOf(ResponseNotStored, stored);
            && id in w.asked && w.asked[id] == a.(resolving := Responded(a.resolving.outcome), gaps := a.gaps + gap)
            && w.parents == Run(events).parents
  {
    RunStep(events, OfResolver(id, Respond(stored)));
  }

  lemma DeliverRun(events: seq<Event>, id: RequestId)
    requires id in Run(events).asked && Run(events).asked[id].phase == Waiting && Run(events).asked[id].resolving.Responded?
    ensures var (a, w) := (Run(events).asked[id], Run(events + [OfResolver(id, Deliver)]));
            var outcome := a.resolving.outcome;
            && id in w.asked && w.asked[id] == a.(resolving := Delivered(outcome), answer := Some(outcome.answer))
            && w.parents == Run(events).parents
  {
    RunStep(events, OfResolver(id, Deliver));
  }

  lemma ReceiveRun(events: seq<Event>, id: RequestId)
    requires id in Run(events).asked && Run(events).asked[id].phase == Waiting && Run(events).asked[id].answer.Some?
    ensures var (a, w) := (Run(events).asked[id], Run(events + [OfWaiter(id, ReceiveAnswer)]));
            id in w.asked && w.asked[id] == a.(phase := Answered(a.answer.value), answer := None) && w.parents == Run(events).parents
  {
    RunStep(events, OfWaiter(id, ReceiveAnswer));
  }

  /** A request that was taken and shown gets its answer in three steps. */
  lemma RunsToEnd(events: seq<Event>, id: RequestId, stored: bool)
    requires id in Run(events).asked && Run(events).asked[id].phase == Waiting && Run(events).asked[id].resolving.Taken?
    ensures var (a, w) := (Run(events).asked[id], Run(events + Ending(id, stored)));
            var (gap, outcome) := (if Gone(Run(events), id) then {SessionGone} else GapsOf(ResponseNotStored, stored), a.resolving.outcome);
            && id in w.asked && w.parents == Run(events).parents
            && w.asked[id] == Asked(a.request, Answered(outcome.answer), Delivered(outcome), None, a.gaps + gap)
            && Of(w.events, id) == Log(w.asked[id])
  {
    var responded := events + [OfResolver(id, Respond(stored))];
    var delivered := responded + [OfResolver(id, Deliver)];
    RespondRun(events, id, stored);
    DeliverRun(responded, id);
    ReceiveRun(delivered, id);
    assert delivered + [OfWaiter(id, ReceiveAnswer)] == events + Ending(id, stored);
    RunsHold(events + Ending(id, stored));
  }

  /** A run without a response: a stop cancels the request of a session that is then removed. */
  lemma AResponseIsLeftOut()
    ensures var w := Run(Asking(true) + REMOVING);
            "r" in w.asked && Finished(w.asked["r"]) && Of(w.events, "r") == [RequestOf]
  {
    CancelledRun();
    RunsToEnd(Asking(true) + REMOVING[..2], "r", true);
    assert Asking(true) + REMOVING[..2] + Ending("r", true) == Asking(true) + REMOVING;
  }

  lemma AnsweredRun(request: bool)
    ensures var w := Run(Asking(request) + [ANSWER]);
            && "r" in w.asked && w.parents == map["s" := ""]
            && w.asked["r"] == Asked(REQUEST, Waiting, Taken(Outcome(true, Chosen("o")), false), None, GapsOf(RequestNotStored, request))
  {
    AskingRun(request);
    RunStep(Asking(request), ANSWER);
    var w := Run(Asking(request));
    assert Answering(w.pending, w.parents, ANSWER.req, true, None) == Resolves(Outcome(true, Chosen("o")));
  }

  /** Runs in which the person's answer reaches the call and the store refuses the request's event, the response, or both. */
  lemma AnEventIsNotStored(request: bool, response: bool)
    ensures var w := Run(Asking(request) + [ANSWER] + Ending("r", response));
            && "r" in w.asked && w.asked["r"].phase == Answered(Chosen("o")) && "s" in w.parents
            && Of(w.events, "r") == (if request then [RequestOf] else []) + (if response then [ResponseOf(Outcome(true, Chosen("o")))] else [])
  {
    AnsweredRun(request);
    RunsToEnd(Asking(request) + [ANSWER], "r", response);
  }

  /** After a person's steer made way, no request of the session is pending while a second prompt call is outstanding. */
  lemma {:induction false} SteerMakesWay(events: seq<Event>, session: Session)
    requires session in Run(events).cleared && Calls(Run(events), session) > 1
    ensures forall id :: id in Run(events).pending ==> Run(events).pending[id].session != session
  {
    RunsHold(events);
  }
}
