/**
Groups of bots: who is shown which posts. A post is recorded, and if it is
admitted it has the other members' deliveries started; a delivery shows a member
what it has not seen and then saves how far that went.
*/
module Rooms {
  import opened Wrappers

  const MAX_FOLLOW_UPS: nat := 12

  type Member = string

  /** An event of the group's thread; the ones that are posts name who wrote them. */
  datatype Entry = Entry(mark: nat, author: Option<string>, text: string)

  predicate IsPost(e: Entry) {
    e.author.Some?
  }

  predicate Ordered(log: seq<Entry>) {
    && (forall i :: 0 <= i < |log| ==> log[i].mark > 0)
    && (forall i, j :: 0 <= i < j < |log| ==> log[i].mark < log[j].mark)
  }

  /** The posts of others than `member` with marks above `after` and up to `upTo`, in order. */
  function Others(log: seq<Entry>, member: Member, after: nat, upTo: nat): seq<Entry> {
    if log == [] then []
    else
      var last := log[|log| - 1];
      Others(log[..|log| - 1], member, after, upTo)
      + if IsPost(last) && last.author.value != member && after < last.mark <= upTo then [last] else []
  }

  /** The mark of the member's own last post above `after`, or `after`. */
  function LastOwn(log: seq<Entry>, member: Member, after: nat): nat {
    if log == [] then after
    else
      var last := log[|log| - 1];
      if last.author == Some(member) && last.mark > after then last.mark else LastOwn(log[..|log| - 1], member, after)
  }

  /** The mark of the last post above `after`, or `after`. */
  function LastPost(log: seq<Entry>, after: nat): nat {
    if log == [] then after
    else
      var last := log[|log| - 1];
      if IsPost(last) && last.mark > after then last.mark else LastPost(log[..|log| - 1], after)
  }

  /** Where a delivery starts: a member that was shown nothing yet starts after its own last post. */
  function From(log: seq<Entry>, member: Member, after: nat): nat {
    if after == 0 then LastOwn(log, member, 0) else after
  }

  lemma {:induction false} MarksAreInOrder(log: seq<Entry>, member: Member, after: nat)
    requires Ordered(log)
    ensures after <= LastOwn(log, member, after) <= LastPost(log, after)
    ensures |log| > 0 ==> LastPost(log, after) <= if log[|log| - 1].mark > after then log[|log| - 1].mark else after
    ensures forall i :: 0 <= i < |log| && IsPost(log[i]) ==> log[i].mark <= LastPost(log, after)
    decreases |log|
  {
    if log != [] {
      MarksAreInOrder(log[..|log| - 1], member, after);
    }
  }

  /** Up to a mark no lower than the last post, the mark does not matter. */
  lemma {:induction false} OthersUpTo(log: seq<Entry>, member: Member, after: nat, upTo: nat, more: nat)
    requires forall i :: 0 <= i < |log| && IsPost(log[i]) ==> log[i].mark <= upTo <= more
    ensures Others(log, member, after, upTo) == Others(log, member, after, more)
    decreases |log|
  {
    if log != [] {
      OthersUpTo(log[..|log| - 1], member, after, upTo, more);
    }
  }

  lemma {:induction false} OthersOfNone(log: seq<Entry>, member: Member, after: nat, upTo: nat)
    requires forall i :: 0 <= i < |log| ==> log[i].mark <= after || log[i].mark > upTo
    ensures Others(log, member, after, upTo) == []
    decreases |log|
  {
    if log != [] {
      OthersOfNone(log[..|log| - 1], member, after, upTo);
    }
  }

  /** What is unseen up to a point. */
  function UnseenIn(log: seq<Entry>, member: Member, after: nat): seq<Entry> {
    Others(log, member, From(log, member, after), LastPost(log, after))
  }

  lemma UnseenOne(log: seq<Entry>, i: nat, member: Member, after: nat)
    requires Ordered(log) && i < |log|
    ensures LastPost(log[..i + 1], after) == if IsPost(log[i]) && log[i].mark > after then log[i].mark else LastPost(log[..i], after)
    ensures UnseenIn(log[..i + 1], member, after) ==
            if !IsPost(log[i]) || log[i].mark <= after then UnseenIn(log[..i], member, after)
            else if log[i].author.value != member then UnseenIn(log[..i], member, after) + [log[i]]
            else if after == 0 then []
            else UnseenIn(log[..i], member, after)
  {
    var (before, upTo, event) := (log[..i], log[..i + 1], log[i]);
    assert upTo[..i] == before;
    MarksAreInOrder(before, member, after);
    MarksAreInOrder(upTo, member, after);
    if IsPost(event) && event.mark > after {
      OthersUpTo(before, member, From(before, member, after), LastPost(before, after), event.mark);
      OthersOfNone(before, member, event.mark, event.mark);
    }
  }

  /** unseen. */
  method Unseen(log: seq<Entry>, member: Member, after: nat) returns (messages: seq<Entry>, seen: nat)
    requires Ordered(log)
    ensures seen == LastPost(log, after)
    ensures messages == Others(log, member, From(log, member, after), seen)
  {
    messages, seen := [], after;
    for i := 0 to |log|
      invariant seen == LastPost(log[..i], after)
      invariant messages == Others(log[..i], member, From(log[..i], member, after), seen)
    {
      UnseenOne(log, i, member, after);
      var event := log[i];
      if event.author.None? || event.mark <= after {
        continue;
      }
      seen := event.mark;
      if event.author.value != member {
        messages := messages + [event];
      } else if after == 0 {
        messages := [];
      }
    }
    assert log[..|log|] == log;
  }

  // ---- A group ----

  /** A member's seat: how far it has seen, where that began, and what it was handed. */
  datatype Seat = Seat(seen: nat, start: nat, handed: seq<Batch>)

  datatype Batch = Batch(posts: seq<Entry>, saved: bool)

  /** Whose post it is, whom it mentions, and whether bots writing to each other led to it. */
  datatype Posting = Posting(author: Member, mentioned: set<Member>, chained: bool)

  /** A delivery between reading the group and saving what was seen. */
  datatype Delivery = Delivery(posts: seq<Entry>, from: nat, mark: nat)

  /**
  A group with its log, the posts in it that are yet to be passed on, the
  follow-ups spent, and for each member its seat, its deliveries started and not
  yet begun, and the one under way. `passed` and `started` count the members'
  posts passed on and the deliveries started since the last post from outside was.
  */
  datatype World = World(
    members: seq<Member>,
    log: seq<Entry>,
    posted: multiset<Posting>,
    followUps: nat,
    seats: map<Member, Seat>,
    due: map<Member, nat>,
    underWay: map<Member, Delivery>,
    passed: nat,
    started: nat)

  datatype Event =
    | Post(text: string, posting: Posting)
    | PassOn(posting: Posting)
    | Note(text: string)
    | BeginDelivery(member: Member, ok: bool)
    | FinishDelivery(member: Member, handed: bool, saved: bool)

  /** admit: whether a post reaches the others, and the follow-ups spent then. */
  function Admitted(followUps: nat, fromMember: bool): (bool, nat) {
    if !fromMember then (true, 0) else if followUps >= MAX_FOLLOW_UPS then (false, followUps) else (true, followUps + 1)
  }

  function Recipients(members: seq<Member>, author: Member, mentioned: set<Member>): seq<Member> {
    if members == [] then []
    else
      var m := members[|members| - 1];
      Recipients(members[..|members| - 1], author, mentioned)
      + if m != author && (mentioned - {author} == {} || m in mentioned) then [m] else []
  }

  function Count(due: map<Member, nat>, m: Member): nat {
    if m in due then due[m] else 0
  }

  function Start(due: map<Member, nat>, recipients: seq<Member>): map<Member, nat> {
    if recipients == [] then due
    else
      var (before, m) := (Start(due, recipients[..|recipients| - 1]), recipients[|recipients| - 1]);
      before[m := Count(before, m) + 1]
  }

  const NEW_SEAT := Seat(0, 0, [])

  function SeatOf(w: World, m: Member): Seat {
    if m in w.seats then w.seats[m] else NEW_SEAT
  }

  function NextMark(log: seq<Entry>): nat {
    if log == [] then 1 else log[|log| - 1].mark + 1
  }

  function Finished(seat: Seat, d: Delivery, handed: bool, saved: bool): Seat {
    if !handed then seat
    else if !saved then seat.(handed := seat.handed + [Batch(d.posts, false)])
    else Seat(d.mark, if seat.seen == 0 then d.from else seat.start, seat.handed + [Batch(d.posts, true)])
  }

  /** A step; one that cannot happen changes nothing. Deliveries to a member go one at a time. */
  function Next(w: World, e: Event): World {
    match e
    case Post(text, posting) =>
      w.(log := w.log + [Entry(NextMark(w.log), Some(posting.author), text)], posted := w.posted + multiset{posting})
    case PassOn(posting) =>
      if posting !in w.posted then w
      else
        var outside := !(posting.chained || posting.author in w.members);
        var (admitted, followUps) := Admitted(w.followUps, !outside);
        var recipients := Recipients(w.members, posting.author, posting.mentioned);
        var w' := w.(posted := w.posted - multiset{posting}, followUps := followUps);
        if !admitted then w'
        else w'.(due := Start(w.due, recipients), passed := if outside then 0 else w.passed + 1,
                 started := |recipients| + if outside then 0 else w.started)
    case Note(text) => w.(log := w.log + [Entry(NextMark(w.log), None, text)])
    case BeginDelivery(m, ok) =>
      if Count(w.due, m) == 0 || m in w.underWay then w
      else
        var seen := SeatOf(w, m).seen;
        var (from, mark) := (From(w.log, m, seen), LastPost(w.log, seen));
        var posts := Others(w.log, m, from, mark);
        var w' := w.(due := w.due[m := w.due[m] - 1]);
        if !ok || posts == [] then w' else w'.(underWay := w.underWay[m := Delivery(posts, from, mark)])
    case FinishDelivery(m, handed, saved) =>
      if m !in w.underWay then w
      else w.(underWay := w.underWay - {m}, seats := w.seats[m := Finished(SeatOf(w, m), w.underWay[m], handed, saved)])
  }

  function Run(members: seq<Member>, events: seq<Event>): World {
    if events == [] then World(members, [], multiset{}, 0, map[], map[], map[], 0, 0)
    else Next(Run(members, events[..|events| - 1]), events[|events| - 1])
  }

  class Service {
    var followUps: map<string, nat>

    constructor ()
      ensures followUps == map[]
    {
      followUps := map[];
    }

    method Admit(group: string, fromMember: bool) returns (admitted: bool)
      modifies this
      ensures var was := if group in old(followUps) then old(followUps)[group] else 0;
              (admitted, if group in followUps then followUps[group] else 0) == Admitted(was, fromMember)
      ensures forall other :: other != group ==>
                (other in followUps <==> other in old(followUps)) && (other in followUps ==> followUps[other] == old(followUps)[other])
    {
      if !fromMember {
        followUps := followUps[group := 0];
        return true;
      }
      var spent := if group in followUps then followUps[group] else 0;
      if spent >= MAX_FOLLOW_UPS {
        return false;
      }
      followUps := followUps[group := spent + 1];
      return true;
    }
  }

  /** A member's place in a group, as the store keeps it. */
  class Membership {
    var seen: nat

    constructor ()
      ensures seen == 0
    {
      seen := 0;
    }

    /**
    deliverLocked. `steered` and `queued` say whether the turn under way, if
    any, or else a queued one takes the posts; `saved` whether the mark is saved.
    */
    method DeliverLocked(log: seq<Entry>, member: Member, taking: bool, steered: bool, queued: bool, saved: bool)
      returns (posts: seq<Entry>, handed: bool)
      requires Ordered(log)
      modifies this
      ensures posts == Others(log, member, From(log, member, old(seen)), LastPost(log, old(seen)))
      ensures handed <==> posts != [] && ((taking && steered) || queued)
      ensures seen == if handed && saved then LastPost(log, old(seen)) else old(seen)
    {
      var mark;
      posts, mark := Unseen(log, member, seen);
      if |posts| == 0 {
        return posts, false;
      }
      if taking && steered {
        if saved {
          seen := mark;
        }
        return posts, true;
      }
      if !queued {
        return posts, false;
      }
      if saved {
        seen := mark;
      }
      return posts, true;
    }
  }

  // ---- What holds of every run ----

  function Posts(batches: seq<Batch>, savedOnly: bool): seq<Entry> {
    if batches == [] then []
    else
      var last := batches[|batches| - 1];
      Posts(batches[..|batches| - 1], savedOnly) + if last.saved || !savedOnly then last.posts else []
  }

  function LastMark(log: seq<Entry>): nat {
    if log == [] then 0 else log[|log| - 1].mark
  }

  /** What a member was handed and had saved is just what others posted from its start to what it has seen. */
  predicate SeatHolds(log: seq<Entry>, m: Member, seat: Seat) {
    && seat.start <= seat.seen <= LastMark(log)
    && Posts(seat.handed, true) == if seat.seen == 0 then [] else Others(log, m, seat.start, seat.seen)
  }

  predicate DeliveryHolds(log: seq<Entry>, m: Member, seat: Seat, d: Delivery) {
    && d.posts == Others(log, m, d.from, d.mark) && seat.seen <= d.from <= d.mark <= LastMark(log) && 0 < d.mark
    && (seat.seen > 0 ==> d.from == seat.seen)
  }

  ghost predicate Shown(w: World) {
    && Ordered(w.log)
    && (forall m :: SeatHolds(w.log, m, SeatOf(w, m)))
    && (forall m :: m in w.underWay ==> DeliveryHolds(w.log, m, SeatOf(w, m), w.underWay[m]))
  }

  lemma OthersOfGrown(log: seq<Entry>, e: Entry, m: Member, after: nat, upTo: nat)
    requires e.mark > upTo
    ensures Others(log + [e], m, after, upTo) == Others(log, m, after, upTo)
  {
    assert (log + [e])[..|log|] == log;
  }

  lemma OthersOne(log: seq<Entry>, e: Entry, m: Member, after: nat, upTo: nat)
    ensures Others(log + [e], m, after, upTo)
         == Others(log, m, after, upTo) + if IsPost(e) && e.author.value != m && after < e.mark <= upTo then [e] else []
  {
    assert (log + [e])[..|log|] == log;
  }

  lemma {:induction false} OthersSplit(log: seq<Entry>, m: Member, after: nat, middle: nat, upTo: nat)
    requires Ordered(log) && after <= middle <= upTo
    ensures Others(log, m, after, upTo) == Others(log, m, after, middle) + Others(log, m, middle, upTo)
    decreases |log|
  {
    if log != [] {
      var before, last := log[..|log| - 1], log[|log| - 1];
      OthersSplit(before, m, after, middle, upTo);
      assert log == before + [last];
      OthersOne(before, last, m, after, upTo);
      OthersOne(before, last, m, after, middle);
      OthersOne(before, last, m, middle, upTo);
      if last.mark <= middle {
        OthersOfNone(before, m, middle, upTo);
      }
    }
  }

  lemma LogGrows(w: World, e: Entry)
    requires Shown(w) && e.mark == NextMark(w.log)
    ensures Shown(w.(log := w.log + [e]))
  {
    var w' := w.(log := w.log + [e]);
    forall m
      ensures SeatHolds(w'.log, m, SeatOf(w', m))
    {
      assert SeatHolds(w.log, m, SeatOf(w, m));
      OthersOfGrown(w.log, e, m, SeatOf(w, m).start, SeatOf(w, m).seen);
    }
    forall m | m in w.underWay
      ensures DeliveryHolds(w'.log, m, SeatOf(w', m), w'.underWay[m])
    {
      OthersOfGrown(w.log, e, m, w.underWay[m].from, w.underWay[m].mark);
    }
  }

  lemma BegunHolds(log: seq<Entry>, m: Member, seat: Seat)
    requires Ordered(log) && SeatHolds(log, m, seat)
    ensures var (from, mark) := (From(log, m, seat.seen), LastPost(log, seat.seen));
            Others(log, m, from, mark) != [] ==> DeliveryHolds(log, m, seat, Delivery(Others(log, m, from, mark), from, mark))
  {
    MarksAreInOrder(log, m, seat.seen);
    MarksAreInOrder(log, m, 0);
    if LastPost(log, seat.seen) == 0 {
      OthersOfNone(log, m, From(log, m, seat.seen), 0);
    }
  }

  lemma BeginKeepsShown(w: World, e: Event)
    requires Shown(w) && e.BeginDelivery?
    ensures Shown(Next(w, e))
  {
    var w', m := Next(w, e), e.member;
    assert SeatHolds(w.log, m, SeatOf(w, m));
    BegunHolds(w.log, m, SeatOf(w, m));
    assert forall other :: SeatOf(w', other) == SeatOf(w, other);
  }

  lemma PostsOne(batches: seq<Batch>, batch: Batch, savedOnly: bool)
    ensures Posts(batches + [batch], savedOnly) == Posts(batches, savedOnly) + if batch.saved || !savedOnly then batch.posts else []
  {
    assert (batches + [batch])[..|batches|] == batches;
  }

  lemma FinishedHolds(log: seq<Entry>, m: Member, seat: Seat, d: Delivery, handed: bool, saved: bool)
    requires Ordered(log) && SeatHolds(log, m, seat) && DeliveryHolds(log, m, seat, d)
    ensures SeatHolds(log, m, Finished(seat, d, handed, saved))
  {
    PostsOne(seat.handed, Batch(d.posts, saved), true);
    if seat.seen > 0 {
      OthersSplit(log, m, seat.start, seat.seen, d.mark);
    }
  }

  lemma SeatedKeepsShown(w: World, m: Member, seat: Seat)
    requires Shown(w) && SeatHolds(w.log, m, seat)
    ensures Shown(w.(underWay := w.underWay - {m}, seats := w.seats[m := seat]))
  {
    var w' := w.(underWay := w.underWay - {m}, seats := w.seats[m := seat]);
    forall other
      ensures SeatOf(w', other) == if other == m then seat else SeatOf(w, other)
    {
    }
  }

  lemma FinishKeepsShown(w: World, e: Event)
    requires Shown(w) && e.FinishDelivery?
    ensures Shown(Next(w, e))
  {
    var m := e.member;
    if m in w.underWay {
      FinishedHolds(w.log, m, SeatOf(w, m), w.underWay[m], e.handed, e.saved);
      SeatedKeepsShown(w, m, Finished(SeatOf(w, m), w.underWay[m], e.handed, e.saved));
    }
  }

  lemma SameShown(w: World, w': World)
    requires Shown(w) && w'.log == w.log && w'.seats == w.seats && w'.underWay == w.underWay
    ensures Shown(w')
  {
    assert forall m :: SeatOf(w', m) == SeatOf(w, m);
  }

  lemma StepKeepsShown(w: World, e: Event)
    requires Shown(w)
    ensures Shown(Next(w, e))
  {
    match e {
      case Post(text, posting) =>
        var entry := Entry(NextMark(w.log), Some(posting.author), text);
        LogGrows(w, entry);
        SameShown(w.(log := w.log + [entry]), Next(w, e));
      case PassOn(_) => SameShown(w, Next(w, e));
      case Note(text) => LogGrows(w, Entry(NextMark(w.log), None, text));
      case BeginDelivery(_, _) => BeginKeepsShown(w, e);
      case FinishDelivery(_, _, _) => FinishKeepsShown(w, e);
    }
  }

  lemma {:induction false} RunsShow(members: seq<Member>, events: seq<Event>)
    ensures Shown(Run(members, events))
    decreases |events|
  {
    if events != [] {
      RunsShow(members, events[..|events| - 1]);
      StepKeepsShown(Run(members, events[..|events| - 1]), events[|events| - 1]);
    }
  }

  /** The batches a member had saved are, one after the other, exactly what others posted from its start to what it has seen. */
  lemma {:induction false} ShownOnce(members: seq<Member>, events: seq<Event>, m: Member)
    ensures var w := Run(members, events);
            var seat := SeatOf(w, m);
            Posts(seat.handed, true) == if seat.seen == 0 then [] else Others(w.log, m, seat.start, seat.seen)
  {
    RunsShow(members, events);
    assert SeatHolds(Run(members, events).log, m, SeatOf(Run(members, events), m));
  }

  lemma {:induction false} AllSaved(batches: seq<Batch>)
    requires forall b :: b in batches ==> b.saved
    ensures Posts(batches, true) == Posts(batches, false)
    decreases |batches|
  {
    if batches != [] {
      AllSaved(batches[..|batches| - 1]);
    }
  }

  /** So while no save fails, a member is handed each of them once. */
  lemma {:induction false} HandedOnce(members: seq<Member>, events: seq<Event>, m: Member)
    requires forall e :: e in events && e.FinishDelivery? ==> e.saved
    ensures var w := Run(members, events);
            var seat := SeatOf(w, m);
            Posts(seat.handed, false) == if seat.seen == 0 then [] else Others(w.log, m, seat.start, seat.seen)
  {
    ShownOnce(members, events, m);
    BatchesSaved(members, events, m);
    AllSaved(SeatOf(Run(members, events), m).handed);
  }

  lemma {:induction false} BatchesSaved(members: seq<Member>, events: seq<Event>, m: Member)
    requires forall e :: e in events && e.FinishDelivery? ==> e.saved
    ensures forall b :: b in SeatOf(Run(members, events), m).handed ==> b.saved
    decreases |events|
  {
    if events != [] {
      assert events[|events| - 1] in events;
      BatchesSaved(members, events[..|events| - 1], m);
    }
  }

  /** What a member has seen never goes back. */
  lemma {:induction false} SeenRises(members: seq<Member>, events: seq<Event>, e: Event, m: Member)
    ensures var (w, w') := (Run(members, events), Run(members, events + [e]));
            SeatOf(w, m).seen <= SeatOf(w', m).seen
  {
    RunsShow(members, events);
    assert (events + [e])[..|events|] == events;
    StepRaisesSeen(Run(members, events), e, m);
  }

  lemma StepRaisesSeen(w: World, e: Event, m: Member)
    requires Shown(w)
    ensures SeatOf(w, m).seen <= SeatOf(Next(w, e), m).seen
  {
    if e.FinishDelivery? && e.member == m && m in w.underWay {
      assert DeliveryHolds(w.log, m, SeatOf(w, m), w.underWay[m]);
    }
  }

  /**
  And what it has not seen stays to be shown: the next delivery takes all that
  others posted since, or, when it was shown nothing yet, since its own last post.
  */
  lemma {:induction false} UnseenIsNext(members: seq<Member>, events: seq<Event>, m: Member)
    requires m !in Run(members, events).underWay && Count(Run(members, events).due, m) > 0
    ensures var w := Run(members, events);
            var rest := Others(w.log, m, From(w.log, m, SeatOf(w, m).seen), LastMark(w.log));
            var w' := Next(w, BeginDelivery(m, true));
            if rest == [] then m !in w'.underWay else m in w'.underWay && w'.underWay[m].posts == rest
  {
    RunsShow(members, events);
    var w := Run(members, events);
    var seen := SeatOf(w, m).seen;
    assert SeatHolds(w.log, m, SeatOf(w, m));
    MarksAreInOrder(w.log, m, seen);
    OthersUpTo(w.log, m, From(w.log, m, seen), LastPost(w.log, seen), LastMark(w.log));
  }

  // ---- Bots alone come to an end ----

  lemma {:induction false} FewRecipients(members: seq<Member>, author: Member, mentioned: set<Member>)
    ensures |Recipients(members, author, mentioned)| <= |members|
    decreases |members|
  {
    if members != [] {
      FewRecipients(members[..|members| - 1], author, mentioned);
    }
  }

  predicate Bounded(w: World) {
    w.passed == w.followUps <= MAX_FOLLOW_UPS && w.started <= (1 + w.passed) * |w.members|
  }

  lemma PassingKeepsBounded(w: World, e: Event)
    requires Bounded(w) && e.PassOn?
    ensures Bounded(Next(w, e))
  {
    FewRecipients(w.members, e.posting.author, e.posting.mentioned);
    var (passed, size) := (w.passed, |w.members|);
    assert (1 + (passed + 1)) * size == (1 + passed) * size + size;
    assert (1 + 0) * size == size;
  }

  lemma StepKeepsBounded(w: World, e: Event)
    requires Bounded(w)
    ensures Bounded(Next(w, e)) && Next(w, e).members == w.members
  {
    if e.PassOn? {
      PassingKeepsBounded(w, e);
    }
  }

  /** Between two posts from outside that are passed on, at most twelve of the members' are, and so few deliveries are started. */
  lemma {:induction false} FollowUpsAreBounded(members: seq<Member>, events: seq<Event>)
    ensures var w := Run(members, events);
            w.members == members && w.passed <= MAX_FOLLOW_UPS && w.started <= (1 + w.passed) * |members|
    ensures Bounded(Run(members, events))
    decreases |events|
  {
    if events != [] {
      FollowUpsAreBounded(members, events[..|events| - 1]);
      StepKeepsBounded(Run(members, events[..|events| - 1]), events[|events| - 1]);
    }
  }
}
