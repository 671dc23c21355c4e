/** The chameneos game of `chameneos_actor.c`: creatures and their broker are actors that exchange
    messages through first-in first-out mailboxes.  One send or one receive is one step; a send to a
    full mailbox and a receive from an empty one wait.
  */
module Chameneos {
  import opened Sums

  // ----- colours (chameneos_common.h) -----

  type Colour = c: bv2 | c != 3
  const BLUE: Colour := 0
  const RED: Colour := 1
  const YELLOW: Colour := 2

  function Complement(a: Colour, b: Colour): Colour {
    if a == b then a else 3 ^ (a | b)
  }

  /** Meeting is symmetric; equal colours stay, different ones become the third. */
  lemma ComplementMeaning(a: Colour, b: Colour)
    ensures Complement(a, b) == Complement(b, a)
    ensures a == b ==> Complement(a, b) == a
    ensures a != b ==> Complement(a, b) != a && Complement(a, b) != b
  {
    assert a | b == b | a;
    assert a in {0, 1, 2} && b in {0, 1, 2};
  }

  // ----- messages and states -----

  datatype Message = Info(colour: Colour) | Mate(id: nat, colour: Colour, meeting: nat) | End
  datatype Visitor = Visitor(id: nat, colour: Colour)
  datatype Request = Ask(who: Visitor) | Final(meetings: nat)

  datatype Phase = WaitInfo | Asking | Waiting | Ending | Done
  datatype Creature = Creature(phase: Phase, colour: Colour, meetings: nat, selfMeetings: nat)

  /** Where the broker is in its function; `left` counts the meetings still to arrange. */
  datatype Broker =
    | Spawn(next: nat)
    | First(left: nat)
    | Second(left: nat, a: Visitor)
    | SendToFirst(left: nat, a: Visitor, b: Visitor)
    | SendToSecond(left: nat, a: Visitor, b: Visitor)
    | Finalize(next: nat)
    | Collect(remaining: nat, total: nat)
    | Finished(total: nat)
    | Failed       // an assertion `!finish` did not hold

  /** History: who met whom, and with which colours. */
  datatype Meeting = Meeting(first: nat, firstColour: Colour, second: nat, secondColour: Colour)

  datatype State = State(
    colours: seq<Colour>, capacity: nat, planned: nat,
    broker: Broker, requests: seq<Request>,
    creatures: seq<Creature>, boxes: seq<seq<Message>>,
    log: seq<Meeting>,
    seen: map<(nat, nat), Colour>)   // (meeting, creature): the colour it computed

  datatype Action = BrokerMoves | CreatureMoves(id: nat)

  function Init(colours: seq<Colour>, capacity: nat, meetings: nat): State {
    State(colours, capacity, meetings, Spawn(0), [],
          seq(|colours|, i => Creature(WaitInfo, BLUE, 0, 0)), seq(|colours|, i => []), [], map[])
  }

  predicate Sized(s: State) {
    |s.creatures| == |s.boxes| == |s.colours|
  }

  // ----- steps -----

  function Send(s: State, id: nat, m: Message, broker: Broker): State
    requires Sized(s)
  {
    if id < |s.boxes| && |s.boxes[id]| < s.capacity
    then s.(boxes := s.boxes[id := s.boxes[id] + [m]], broker := broker) else s
  }

  function BrokerStep(s: State): State
    requires Sized(s)
  {
    var n := |s.creatures|;
    match s.broker
    case Spawn(i) =>
      if i < n then Send(s, i, Info(s.colours[i]), Spawn(i + 1)) else s.(broker := First(s.planned))
    case First(left) =>
      if left == 0 then s.(broker := Finalize(0))
      else if s.requests == [] then s
      else if s.requests[0].Final? then s.(broker := Failed)
      else s.(requests := s.requests[1..], broker := Second(left, s.requests[0].who))
    case Second(left, a) =>
      if s.requests == [] then s
      else if s.requests[0].Final? then s.(broker := Failed)
      else
        var b := s.requests[0].who;
        s.(requests := s.requests[1..], broker := SendToFirst(left, a, b),
           log := s.log + [Meeting(a.id, a.colour, b.id, b.colour)])
    case SendToFirst(left, a, b) =>
      if s.log == [] then s
      else Send(s, a.id, Mate(b.id, b.colour, |s.log| - 1), SendToSecond(left, a, b))
    case SendToSecond(left, a, b) =>
      if s.log == [] || left == 0 then s
      else Send(s, b.id, Mate(a.id, a.colour, |s.log| - 1), First(left - 1))
    case Finalize(i) =>
      if i < n then Send(s, i, End, Finalize(i + 1)) else s.(broker := Collect(n, 0))
    case Collect(remaining, total) =>
      if remaining == 0 then s.(broker := Finished(total))
      else if s.requests == [] then s
      else
        s.(requests := s.requests[1..],
           broker := if s.requests[0].Final? then Collect(remaining - 1, total + s.requests[0].meetings)
                     else s.broker)
    case Finished(_) => s
    case Failed => s
  }

  function CreatureStep(s: State, id: nat): State
    requires Sized(s) && id < |s.creatures|
  {
    var c, box := s.creatures[id], s.boxes[id];
    match c.phase
    case WaitInfo =>
      if box == [] || !box[0].Info? then s
      else s.(creatures := s.creatures[id := c.(phase := Asking, colour := box[0].colour)],
              boxes := s.boxes[id := box[1..]])
    case Asking =>
      if |s.requests| >= s.capacity then s
      else s.(requests := s.requests + [Ask(Visitor(id, c.colour))],
              creatures := s.creatures[id := c.(phase := Waiting)])
    case Waiting =>
      if box == [] || box[0].Info? then s
      else if box[0].End? then
        s.(creatures := s.creatures[id := c.(phase := Ending)], boxes := s.boxes[id := box[1..]])
      else
        var colour := Complement(c.colour, box[0].colour);
        s.(creatures := s.creatures[id := Creature(Asking, colour, c.meetings + 1,
                                                   if box[0].id == id then c.selfMeetings + 1 else c.selfMeetings)],
           boxes := s.boxes[id := box[1..]],
           seen := s.seen[(box[0].meeting, id) := colour])
    case Ending =>
      if |s.requests| >= s.capacity then s
      else s.(requests := s.requests + [Final(c.meetings)], creatures := s.creatures[id := c.(phase := Done)])
    case Done => s
  }

  function Next(s: State, action: Action): (t: State)
    requires Sized(s)
    ensures Sized(t)
  {
    match action
    case BrokerMoves => BrokerStep(s)
    case CreatureMoves(id) => if id < |s.creatures| then CreatureStep(s, id) else s
  }

  function Run(s: State, actions: seq<Action>): (t: State)
    requires Sized(s)
    ensures Sized(t)
    decreases |actions|
  {
    if actions == [] then s else Run(Next(s, actions[0]), actions[1..])
  }

  // ----- counting -----

  function MeetingsOf(c: Creature): nat { c.meetings }
  function DoneMeetings(c: Creature): nat { if c.phase.Done? then c.meetings else 0 }
  function IsDone(c: Creature): nat { if c.phase.Done? then 1 else 0 }
  function MateWaits(box: seq<Message>): nat { if box != [] && box[0].Mate? then 1 else 0 }
  function IsFinal(r: Request): nat { if r.Final? then 1 else 0 }
  function FinalMeetings(r: Request): nat { if r.Final? then r.meetings else 0 }

  /** Requests of creature `id` in the broker's mailbox. */
  function Asks(rs: seq<Request>, id: nat): nat {
    if rs == [] then 0 else (if rs[0].Ask? && rs[0].who.id == id then 1 else 0) + Asks(rs[1..], id)
  }

  lemma {:induction false} AsksConcat(rs: seq<Request>, more: seq<Request>, id: nat)
    ensures Asks(rs + more, id) == Asks(rs, id) + Asks(more, id)
  {
    if rs == [] {
      assert rs + more == more;
    } else {
      assert (rs + more)[1..] == rs[1..] + more;
      AsksConcat(rs[1..], more, id);
    }
  }

  /** The broker holds a request of creature `id` that it has not answered. */
  function Holds(b: Broker, id: nat): nat {
    match b
    case Second(_, a) => if a.id == id then 1 else 0
    case SendToFirst(_, a, b) => (if a.id == id then 1 else 0) + (if b.id == id then 1 else 0)
    case SendToSecond(_, _, b) => if b.id == id then 1 else 0
    case _ => 0
  }

  // ----- invariant -----

  function Blend(m: Meeting): Colour { Complement(m.firstColour, m.secondColour) }

  predicate Partner(m: Meeting, id: nat) { id == m.first || id == m.second }

  /** The mate message in a creature's mailbox belongs to a meeting of that creature. */
  predicate MateOk(log: seq<Meeting>, id: nat, colour: Colour, m: Message) {
    && m.Mate? && m.meeting < |log| && m.id != id
    && Partner(log[m.meeting], id)
    && Complement(colour, m.colour) == Blend(log[m.meeting])
  }

  predicate Spawned(b: Broker, id: nat) { b.Spawn? ==> id < b.next }

  predicate Ended(b: Broker, id: nat) {
    b.Collect? || b.Finished? || (b.Finalize? && id < b.next)
  }

  function EndPart(ended: bool): seq<Message> { if ended then [End] else [] }

  /** What the mailbox of creature `id` holds, given `owed`: the requests it has made that are not answered. */
  predicate CreatureOk(id: nat, c: Creature, box: seq<Message>, owed: nat,
                       spawned: bool, ended: bool, log: seq<Meeting>) {
    && c.selfMeetings == 0
    && match c.phase
       case WaitInfo =>
         && owed == 0 && (ended ==> spawned)
         && (if spawned then |box| > 0 && box[0].Info? && box[1..] == EndPart(ended) else box == [])
       case Asking => owed == 0 && spawned && box == EndPart(ended)
       case Waiting =>
         && spawned
         && (|| (box == EndPart(ended) && (owed == 1 || (ended && owed == 0)))
             || (owed == 0 && |box| > 0 && MateOk(log, id, c.colour, box[0]) && box[1..] == EndPart(ended)))
       case Ending => spawned && ended && box == [] && owed <= 1
       case Done => spawned && ended && box == [] && owed <= 1
  }

  /** A request not yet answered shows the creature's present colour. */
  predicate VisitorOk(s: State, v: Visitor) {
    v.id < |s.creatures| && v.colour == s.creatures[v.id].colour
  }

  predicate BrokerOk(s: State) {
    match s.broker
    case Spawn(i) => i <= |s.creatures| && s.log == []
    case First(left) => |s.log| + left == s.planned
    case Second(left, a) => VisitorOk(s, a) && left > 0 && |s.log| + left == s.planned
    case SendToFirst(left, a, b) =>
      && VisitorOk(s, a) && VisitorOk(s, b) && left > 0 && |s.log| + left == s.planned + 1 && s.log != []
      && s.log[|s.log| - 1] == Meeting(a.id, a.colour, b.id, b.colour)
    case SendToSecond(left, a, b) =>
      && VisitorOk(s, b) && left > 0 && |s.log| + left == s.planned + 1 && s.log != []
      && s.log[|s.log| - 1] == Meeting(a.id, a.colour, b.id, b.colour)
    case Finalize(i) => i <= |s.creatures| && |s.log| == s.planned
    case Collect(remaining, _) => |s.log| == s.planned
    case Finished(_) => |s.log| == s.planned
    case Failed => false
  }

  function Collected(b: Broker, n: nat): int {
    match b
    case Collect(remaining, _) => n - remaining
    case Finished(_) => n
    case _ => 0
  }

  function Sum(b: Broker): nat {
    match b
    case Collect(_, total) => total
    case Finished(total) => total
    case _ => 0
  }

  /** Mate messages the broker has still to send for the last meeting. */
  function Unsent(b: Broker): nat { if b.SendToFirst? then 2 else if b.SendToSecond? then 1 else 0 }

  predicate Counts(s: State) {
    && Total(s.creatures, MeetingsOf) + Total(s.boxes, MateWaits) + Unsent(s.broker) == 2 * |s.log|
    && Total(s.requests, IsFinal) + Collected(s.broker, |s.creatures|) == Total(s.creatures, IsDone)
    && Total(s.requests, FinalMeetings) + Sum(s.broker) == Total(s.creatures, DoneMeetings)
  }

  /** The outcome of meeting `m` has reached creature `id`, or is on its way. */
  predicate Reaches(s: State, m: nat, id: nat)
    requires Sized(s) && m < |s.log|
  {
    || ((m, id) in s.seen && s.seen[(m, id)] == Blend(s.log[m]))
    || (id < |s.boxes| && |s.boxes[id]| > 0 && s.boxes[id][0].Mate? && s.boxes[id][0].meeting == m)
    || (m == |s.log| - 1 && s.broker.SendToFirst?)
    || (m == |s.log| - 1 && s.broker.SendToSecond? && id == s.broker.b.id)
  }

  predicate Met(s: State, m: nat)
    requires Sized(s) && m < |s.log|
  {
    && s.log[m].first != s.log[m].second
    && Reaches(s, m, s.log[m].first) && Reaches(s, m, s.log[m].second)
  }

  predicate CreaturesOk(s: State)
    requires Sized(s)
  {
    forall id | 0 <= id < |s.creatures| ::
      CreatureOk(id, s.creatures[id], s.boxes[id], Asks(s.requests, id) + Holds(s.broker, id),
                 Spawned(s.broker, id), Ended(s.broker, id), s.log)
  }

  predicate RequestsOk(s: State) {
    forall r | r in s.requests && r.Ask? :: VisitorOk(s, r.who)
  }

  predicate AllMet(s: State)
    requires Sized(s)
  {
    forall m | 0 <= m < |s.log| :: Met(s, m)
  }

  predicate Inv(s: State) {
    && Sized(s) && BrokerOk(s) && CreaturesOk(s) && RequestsOk(s) && Counts(s)
    && AllMet(s)
  }

  function Owed(s: State, id: nat): nat {
    Asks(s.requests, id) + Holds(s.broker, id)
  }

  // ----- every step keeps it -----

  lemma InitInv(colours: seq<Colour>, capacity: nat, meetings: nat)
    ensures Inv(Init(colours, capacity, meetings))
  {
    var s := Init(colours, capacity, meetings);
    TotalZero(s.creatures, MeetingsOf);
    TotalZero(s.creatures, IsDone);
    TotalZero(s.creatures, DoneMeetings);
    TotalZero(s.boxes, MateWaits);
  }

  /** A step that concerns creature `id` alone leaves the others in order. */
  lemma Focus(s: State, t: State, id: nat)
    requires Sized(s) && Sized(t) && CreaturesOk(s) && |t.creatures| == |s.creatures| && s.log <= t.log
    requires forall j: nat | j < |s.creatures| && j != id ::
      && t.creatures[j] == s.creatures[j] && t.boxes[j] == s.boxes[j] && Owed(t, j) == Owed(s, j)
      && Spawned(t.broker, j) == Spawned(s.broker, j) && Ended(t.broker, j) == Ended(s.broker, j)
    requires id < |s.creatures| ==>
      CreatureOk(id, t.creatures[id], t.boxes[id], Owed(t, id), Spawned(t.broker, id), Ended(t.broker, id), t.log)
    ensures CreaturesOk(t)
  {
    hide Asks, Holds, Complement, Spawned, Ended;
  }

  /** The broker puts a message in the mailbox of creature `id`. */
  lemma SentTotals(s: State, t: State, id: nat)
    requires id < |s.boxes| == |t.boxes| && t.boxes == s.boxes[id := t.boxes[id]]
    ensures Total(t.boxes, MateWaits) + MateWaits(s.boxes[id]) == Total(s.boxes, MateWaits) + MateWaits(t.boxes[id])
  {
    TotalUpdate(s.boxes, id, t.boxes[id], MateWaits);
  }

  lemma StillMet(s: State, t: State)
    requires Sized(s) && Sized(t) && AllMet(s) && t.log == s.log
    requires forall m: nat, id | m < |s.log| && Partner(s.log[m], id) && Reaches(s, m, id) :: Reaches(t, m, id)
    ensures AllMet(t)
  {
    hide Reaches;
    forall m | 0 <= m < |t.log| ensures Met(t, m) {
      assert Met(s, m);
    }
  }

  lemma SpawnInv(s: State, i: nat)
    requires Inv(s) && s.broker == Spawn(i)
    ensures Inv(BrokerStep(s))
  {
    var t := BrokerStep(s);
    hide Total, Asks, Complement, MateOk;
    if i < |s.creatures| { SentTotals(s, t, i); }
    StillMet(s, t);
    hide Reaches, Partner, Blend, Met;
    Focus(s, t, i);
  }

  lemma FirstInv(s: State, left: nat)
    requires Inv(s) && s.broker == First(left)
    ensures Inv(BrokerStep(s))
  {
    var t := BrokerStep(s);
    hide Total, Complement;
    if left == 0 {
      Focus(s, t, 0);
      StillMet(s, t);
    } else if s.requests != [] {
      assert s.requests[0] in s.requests;
      if s.requests[0].Final? {
        NoFinals(s);
      } else {
        TotalHead(s.requests, IsFinal);
        TotalHead(s.requests, FinalMeetings);
        Focus(s, t, s.requests[0].who.id);
        StillMet(s, t);
      }
    }
  }

  /** Before the broker has sent an end message there are no final messages. */
  lemma NoFinals(s: State)
    requires Inv(s) && !s.broker.Finalize? && !s.broker.Collect? && !s.broker.Finished?
    ensures forall r | r in s.requests :: r.Ask?
  {
    hide Asks, Complement, Holds;
    TotalZero(s.creatures, IsDone);
    TotalPositive(s.requests, IsFinal);
  }

  lemma SecondInv(s: State, left: nat, a: Visitor)
    requires Inv(s) && s.broker == Second(left, a)
    ensures Inv(BrokerStep(s))
  {
    var t := BrokerStep(s);
    hide Total, Complement;
    if s.requests != [] {
      assert s.requests[0] in s.requests;
      if s.requests[0].Final? {
        NoFinals(s);
      } else {
        TotalHead(s.requests, IsFinal);
        TotalHead(s.requests, FinalMeetings);
        var b := s.requests[0].who;
        assert CreatureOk(b.id, s.creatures[b.id], s.boxes[b.id], Owed(s, b.id), true, false, s.log);
        Focus(s, t, b.id);
        NewMeeting(s, t);
      }
    }
  }

  lemma NewMeeting(s: State, t: State)
    requires Sized(s) && Sized(t) && AllMet(s)
    requires t.broker.SendToFirst? && !s.broker.SendToFirst? && !s.broker.SendToSecond?
    requires |t.log| == |s.log| + 1 && t.log[..|s.log|] == s.log && t.boxes == s.boxes && t.seen == s.seen
    requires t.log[|s.log|].first != t.log[|s.log|].second
    ensures AllMet(t)
  {
    hide Complement;
    forall m | 0 <= m < |t.log| ensures Met(t, m) {
      if m < |s.log| {
        assert Met(s, m);
        assert t.log[m] == s.log[m];
      }
    }
  }

  /** The mate message to the first partner leaves only the second one to be told. */
  lemma FirstTold(s: State, t: State, a: Visitor, b: Visitor)
    requires Inv(s) && s.broker.SendToFirst? && s.broker.a == a && s.broker.b == b && t == BrokerStep(s) && t != s
    requires s.boxes[a.id] == []
    ensures AllMet(t)
  {
    hide Total, Asks, CreatureOk, Complement, MateOk, Counts;
    StillMet(s, t);
  }

  lemma SecondTold(s: State, t: State, a: Visitor, b: Visitor)
    requires Inv(s) && s.broker.SendToSecond? && s.broker.a == a && s.broker.b == b && t == BrokerStep(s) && t != s
    requires s.boxes[b.id] == []
    ensures AllMet(t)
  {
    hide Total, Asks, CreatureOk, Complement, MateOk, Counts;
    StillMet(s, t);
  }

  lemma SendToFirstInv(s: State, left: nat, a: Visitor, b: Visitor)
    requires Inv(s) && s.broker == SendToFirst(left, a, b)
    ensures Inv(BrokerStep(s))
  {
    var t := BrokerStep(s);
    hide Total, Asks;
    assert CreatureOk(a.id, s.creatures[a.id], s.boxes[a.id], Owed(s, a.id), true, false, s.log);
    assert Met(s, |s.log| - 1);
    ComplementMeaning(a.colour, b.colour);
    hide Complement;
    if |s.boxes[a.id]| < s.capacity {
      assert MateOk(s.log, a.id, a.colour, Mate(b.id, b.colour, |s.log| - 1));
      SentTotals(s, t, a.id);
      FirstTold(s, t, a, b);
      hide MateOk, Met, Reaches, Blend, Partner, AllMet;
      Focus(s, t, a.id);
    }
  }

  lemma SendToSecondInv(s: State, left: nat, a: Visitor, b: Visitor)
    requires Inv(s) && s.broker == SendToSecond(left, a, b)
    ensures Inv(BrokerStep(s))
  {
    var t := BrokerStep(s);
    hide Total, Asks;
    assert CreatureOk(b.id, s.creatures[b.id], s.boxes[b.id], Owed(s, b.id), true, false, s.log);
    assert Met(s, |s.log| - 1);
    ComplementMeaning(a.colour, b.colour);
    hide Complement;
    if |s.boxes[b.id]| < s.capacity {
      assert MateOk(s.log, b.id, b.colour, Mate(a.id, a.colour, |s.log| - 1));
      SentTotals(s, t, b.id);
      SecondTold(s, t, a, b);
      hide MateOk, Met, Reaches, Blend, Partner, AllMet;
      Focus(s, t, b.id);
    }
  }

  lemma EndSent(s: State, i: nat)
    requires Inv(s) && s.broker == Finalize(i) && i < |s.creatures|
    ensures Inv(BrokerStep(s))
  {
    var t := BrokerStep(s);
    hide Total, Asks, Complement, MateOk;
    assert CreatureOk(i, s.creatures[i], s.boxes[i], Owed(s, i), true, false, s.log);
    if |s.boxes[i]| < s.capacity {
      SentTotals(s, t, i);
      StillMet(s, t);
      hide Reaches, Partner, Blend, VisitorOk, Met;
      Focus(s, t, i);
    }
  }

  lemma BrokerPasses(s: State, t: State)
    requires Inv(s) && t == s.(broker := t.broker) && BrokerOk(t) && s.broker != t.broker
    requires (s.broker == Finalize(|s.creatures|) && t.broker == Collect(|s.creatures|, 0))
          || (exists total :: s.broker == Collect(0, total) && t.broker == Finished(total))
    ensures Inv(t)
  {
    hide Total, Asks, Complement, MateOk;
    StillMet(s, t);
    hide Reaches, Partner, Blend, VisitorOk, Met;
    Focus(s, t, 0);
  }

  lemma RequestDropped(s: State, remaining: nat, total: nat)
    requires Inv(s) && s.broker == Collect(remaining, total) && remaining > 0 && s.requests != [] && s.requests[0].Ask?
    ensures Inv(BrokerStep(s))
  {
    var t := BrokerStep(s);
    hide Total, Complement, MateOk;
    StillMet(s, t);
    hide Reaches, Partner, Blend, Met;
    TotalHead(s.requests, IsFinal);
    TotalHead(s.requests, FinalMeetings);
    assert s.requests[0] in s.requests;
    var id := s.requests[0].who.id;
    assert CreatureOk(id, s.creatures[id], s.boxes[id], Owed(s, id), true, true, s.log);
    Focus(s, t, id);
  }

  lemma FinalCollected(s: State, remaining: nat, total: nat)
    requires Inv(s) && s.broker == Collect(remaining, total) && remaining > 0
    requires s.requests != [] && s.requests[0].Final?
    ensures Inv(BrokerStep(s))
  {
    var t := BrokerStep(s);
    hide Total, Complement, MateOk;
    StillMet(s, t);
    hide Reaches, Partner, Blend, Met;
    TotalHead(s.requests, IsFinal);
    TotalHead(s.requests, FinalMeetings);
    forall id ensures Owed(t, id) == Owed(s, id) {}
    Focus(s, t, 0);
  }

  lemma BrokerInv(s: State)
    requires Inv(s)
    ensures Inv(BrokerStep(s))
  {
    hide Inv;
    match s.broker
    case Spawn(i) => SpawnInv(s, i);
    case First(left) => FirstInv(s, left);
    case Second(left, a) => SecondInv(s, left, a);
    case SendToFirst(left, a, b) => SendToFirstInv(s, left, a, b);
    case SendToSecond(left, a, b) => SendToSecondInv(s, left, a, b);
    case Finalize(i) => FinalizeInv(s, i);
    case Collect(remaining, total) => CollectInv(s, remaining, total);
    case Finished(_) =>
    case Failed =>
  }

  lemma FinalizeInv(s: State, i: nat)
    requires Inv(s) && s.broker == Finalize(i)
    ensures Inv(BrokerStep(s))
  {
    if i < |s.creatures| { EndSent(s, i); } else { BrokerPasses(s, BrokerStep(s)); }
  }

  lemma CollectInv(s: State, remaining: nat, total: nat)
    requires Inv(s) && s.broker == Collect(remaining, total)
    ensures Inv(BrokerStep(s))
  {
    if remaining == 0 {
      BrokerPasses(s, BrokerStep(s));
    } else if s.requests != [] {
      if s.requests[0].Ask? { RequestDropped(s, remaining, total); } else { FinalCollected(s, remaining, total); }
    }
  }

  /** A step of creature `id` that may add requests to the broker's mailbox. */
  predicate Moved(s: State, t: State, id: nat, added: seq<Request>) {
    && Sized(s) && Sized(t) && id < |s.creatures| == |t.creatures|
    && t == s.(creatures := s.creatures[id := t.creatures[id]], boxes := s.boxes[id := t.boxes[id]],
               requests := s.requests + added, seen := t.seen)
  }

  lemma CountsKept(s: State, t: State, id: nat, added: seq<Request>)
    requires Moved(s, t, id, added) && Counts(s)
    requires var c, c' := s.creatures[id], t.creatures[id];
      && c'.meetings + MateWaits(t.boxes[id]) == c.meetings + MateWaits(s.boxes[id])
      && IsDone(c') == IsDone(c) + Total(added, IsFinal)
      && DoneMeetings(c') == DoneMeetings(c) + Total(added, FinalMeetings)
    ensures Counts(t)
  {
    hide Total, MateWaits, IsDone, DoneMeetings;
    TotalUpdate(s.creatures, id, t.creatures[id], MeetingsOf);
    TotalUpdate(s.creatures, id, t.creatures[id], IsDone);
    TotalUpdate(s.creatures, id, t.creatures[id], DoneMeetings);
    TotalUpdate(s.boxes, id, t.boxes[id], MateWaits);
    TotalConcat(s.requests, added, IsFinal);
    TotalConcat(s.requests, added, FinalMeetings);
  }

  lemma CreaturesKept(s: State, t: State, id: nat, added: seq<Request>)
    requires Moved(s, t, id, added) && CreaturesOk(s)
    requires forall r | r in added && r.Ask? :: r.who.id == id
    requires CreatureOk(id, t.creatures[id], t.boxes[id], Owed(s, id) + Asks(added, id),
                        Spawned(s.broker, id), Ended(s.broker, id), s.log)
    ensures CreaturesOk(t)
  {
    hide Holds, Spawned, Ended, CreatureOk;
    forall j ensures Asks(t.requests, j) == Asks(s.requests, j) + Asks(added, j) {
      AsksConcat(s.requests, added, j);
    }
    forall j | j != id ensures Asks(added, j) == 0 {
      AsksNone(added, j);
    }
    hide Asks;
    Focus(s, t, id);
  }

  lemma {:induction false} AsksNone(rs: seq<Request>, id: nat)
    requires forall r | r in rs && r.Ask? :: r.who.id != id
    ensures Asks(rs, id) == 0
  {
    if rs == [] {
    } else {
      AsksNone(rs[1..], id);
    }
  }

  /** A creature's own step keeps the colours of all requests that are still unanswered. */
  lemma VisitorsKept(s: State, t: State, id: nat, added: seq<Request>)
    requires Moved(s, t, id, added) && BrokerOk(s) && RequestsOk(s)
    requires t.creatures[id].colour != s.creatures[id].colour ==> Owed(s, id) == 0
    requires forall r | r in added && r.Ask? :: r.who == Visitor(id, t.creatures[id].colour)
    ensures BrokerOk(t) && RequestsOk(t)
  {
    forall r | r in t.requests && r.Ask? ensures VisitorOk(t, r.who) {
      if r in s.requests {
        AsksCount(s.requests, r);
        assert VisitorOk(s, r.who);
      }
    }
  }

  lemma {:induction false} AsksCount(rs: seq<Request>, r: Request)
    requires r in rs && r.Ask?
    ensures Asks(rs, r.who.id) > 0
  {
    if rs[0] != r { AsksCount(rs[1..], r); }
  }

  /** What a step of creature `id` has to respect for the invariant to survive. */
  predicate Allowed(s: State, t: State, id: nat, added: seq<Request>)
    requires Moved(s, t, id, added)
  {
    var c, c' := s.creatures[id], t.creatures[id];
    && c'.meetings + MateWaits(t.boxes[id]) == c.meetings + MateWaits(s.boxes[id])
    && IsDone(c') == IsDone(c) + Total(added, IsFinal)
    && DoneMeetings(c') == DoneMeetings(c) + Total(added, FinalMeetings)
    && CreatureOk(id, c', t.boxes[id], Owed(s, id) + Asks(added, id),
                  Spawned(s.broker, id), Ended(s.broker, id), s.log)
    && (c'.colour != c.colour ==> Owed(s, id) == 0)
    && (forall r | r in added && r.Ask? :: r.who == Visitor(id, c'.colour))
  }

  lemma CreatureMoved(s: State, t: State, id: nat, added: seq<Request>)
    requires Inv(s) && Moved(s, t, id, added) && Allowed(s, t, id, added)
    requires forall m: nat, i | m < |s.log| && Partner(s.log[m], i) && Reaches(s, m, i) :: Reaches(t, m, i)
    ensures Inv(t)
  {
    hide CreatureOk, MateWaits, IsDone, DoneMeetings, Total, Asks, Holds, BrokerOk, RequestsOk,
         Counts, Met, Reaches, AllMet, CreaturesOk;
    CountsKept(s, t, id, added);
    CreaturesKept(s, t, id, added);
    VisitorsKept(s, t, id, added);
    StillMet(s, t);
  }

  lemma InfoAllowed(s: State, id: nat)
    requires Inv(s) && id < |s.creatures| && s.creatures[id].phase.WaitInfo? && s.boxes[id] != []
    ensures var t := CreatureStep(s, id); Moved(s, t, id, []) && Allowed(s, t, id, [])
  {
    assert CreatureOk(id, s.creatures[id], s.boxes[id], Owed(s, id),
                      Spawned(s.broker, id), Ended(s.broker, id), s.log);
    hide Counts, BrokerOk, RequestsOk, AllMet, CreaturesOk, Holds, Complement, MateOk;
  }

  lemma InfoTaken(s: State, id: nat)
    requires Inv(s) && id < |s.creatures| && s.creatures[id].phase.WaitInfo?
    ensures Inv(CreatureStep(s, id))
  {
    var t := CreatureStep(s, id);
    if s.boxes[id] != [] {
      InfoAllowed(s, id);
      hide Inv, Counts, BrokerOk, RequestsOk, AllMet, CreaturesOk, Holds, Complement, MateOk, Moved, Allowed;
      CreatureMoved(s, t, id, []);
    }
  }

  lemma EndTaken(s: State, id: nat)
    requires Inv(s) && id < |s.creatures| && s.creatures[id].phase.Waiting? && s.boxes[id] != [] && s.boxes[id][0].End?
    ensures Inv(CreatureStep(s, id))
  {
    var t := CreatureStep(s, id);
    assert CreatureOk(id, s.creatures[id], s.boxes[id], Owed(s, id),
                      Spawned(s.broker, id), Ended(s.broker, id), s.log);
    hide Counts, BrokerOk, RequestsOk, AllMet, CreaturesOk, Holds, Complement, MateOk;
    CreatureMoved(s, t, id, []);
  }

  lemma MateRecorded(s: State, id: nat)
    requires Inv(s) && id < |s.creatures| && s.creatures[id].phase.Waiting? && s.boxes[id] != []
    requires MateOk(s.log, id, s.creatures[id].colour, s.boxes[id][0])
    ensures var t := CreatureStep(s, id);
      forall m: nat, i | m < |s.log| && Partner(s.log[m], i) && Reaches(s, m, i) :: Reaches(t, m, i)
  {
    hide Counts, BrokerOk, RequestsOk, AllMet, CreaturesOk, Complement;
  }

  lemma MateTaken(s: State, id: nat)
    requires Inv(s) && id < |s.creatures| && s.creatures[id].phase.Waiting? && s.boxes[id] != [] && s.boxes[id][0].Mate?
    ensures Inv(CreatureStep(s, id))
  {
    var t := CreatureStep(s, id);
    assert CreatureOk(id, s.creatures[id], s.boxes[id], Owed(s, id),
                      Spawned(s.broker, id), Ended(s.broker, id), s.log);
    MateRecorded(s, id);
    hide Counts, BrokerOk, RequestsOk, AllMet, CreaturesOk, Holds, Complement, Reaches, Partner, Blend;
    CreatureMoved(s, t, id, []);
  }

  lemma RequestMade(s: State, id: nat)
    requires Inv(s) && id < |s.creatures| && (s.creatures[id].phase.Asking? || s.creatures[id].phase.Ending?)
    ensures Inv(CreatureStep(s, id))
  {
    var t := CreatureStep(s, id);
    assert CreatureOk(id, s.creatures[id], s.boxes[id], Owed(s, id),
                      Spawned(s.broker, id), Ended(s.broker, id), s.log);
    if |s.requests| < s.capacity {
      var r := if s.creatures[id].phase.Asking? then Ask(Visitor(id, s.creatures[id].colour))
               else Final(s.creatures[id].meetings);
      hide Counts, BrokerOk, RequestsOk, AllMet, CreaturesOk, Holds, Complement, MateOk;
      TotalOne(r, IsFinal);
      TotalOne(r, FinalMeetings);
      assert Asks([r], id) == 1 - IsFinal(r);
      CreatureMoved(s, t, id, [r]);
    }
  }

  lemma NextInv(s: State, action: Action)
    requires Inv(s)
    ensures Inv(Next(s, action))
  {
    match action
    case BrokerMoves =>
      hide Inv;
      BrokerInv(s);
    case CreatureMoves(id) =>
      if id < |s.creatures| {
        assert CreatureOk(id, s.creatures[id], s.boxes[id], Owed(s, id),
                          Spawned(s.broker, id), Ended(s.broker, id), s.log);
        hide Inv;
        match s.creatures[id].phase
        case WaitInfo => InfoTaken(s, id);
        case Asking => RequestMade(s, id);
        case Waiting =>
          if s.boxes[id] != [] && s.boxes[id][0].Mate? { MateTaken(s, id); }
          else if s.boxes[id] != [] && s.boxes[id][0].End? { EndTaken(s, id); }
        case Ending => RequestMade(s, id);
        case Done =>
      }
  }

  lemma {:induction false} RunInv(s: State, actions: seq<Action>)
    requires Inv(s)
    ensures Inv(Run(s, actions))
    decreases |actions|
  {
    if actions == [] {
    } else {
      NextInv(s, actions[0]);
      RunInv(Next(s, actions[0]), actions[1..]);
    }
  }

  // ----- the colours of the creatures -----

  /** The colour of a creature after the meetings of `log`: its initial one, replaced at each of its meetings
      by the complement of both colours. */
  function ColourAfter(colours: seq<Colour>, log: seq<Meeting>, id: nat): Colour
    requires id < |colours|
  {
    if log == [] then colours[id]
    else
      var last := log[|log| - 1];
      if Partner(last, id) then Complement(last.firstColour, last.secondColour)
      else ColourAfter(colours, log[..|log| - 1], id)
  }

  /** Meeting `m` was between creatures with the colours they had after all earlier meetings. */
  predicate MeetingOk(colours: seq<Colour>, log: seq<Meeting>, m: nat)
    requires m < |log|
  {
    && log[m].first < |colours| && log[m].second < |colours|
    && log[m].firstColour == ColourAfter(colours, log[..m], log[m].first)
    && log[m].secondColour == ColourAfter(colours, log[..m], log[m].second)
  }

  /** The creature has not been told of the last meeting yet. */
  predicate Untold(b: Broker, id: nat) {
    (b.SendToFirst? && (id == b.a.id || id == b.b.id)) || (b.SendToSecond? && id == b.b.id)
  }

  /** A creature has the colour of its history, up to the meeting it has still to hear of; before it has read
      its first message that colour is in the message. */
  predicate ColourOk(s: State, id: nat)
    requires Sized(s) && id < |s.creatures|
  {
    var c, box := s.creatures[id], s.boxes[id];
    if c.phase.WaitInfo? then
      && ColourAfter(s.colours, s.log, id) == s.colours[id]
      && (box != [] && box[0].Info? ==> box[0].colour == s.colours[id])
    else if c.phase.Waiting? && box != [] && box[0].Mate? then
      && box[0].meeting < |s.log|
      && Complement(c.colour, box[0].colour) == ColourAfter(s.colours, s.log, id)
    else if Untold(s.broker, id) then
      s.log != [] && c.colour == ColourAfter(s.colours, s.log[..|s.log| - 1], id)
    else c.colour == ColourAfter(s.colours, s.log, id)
  }

  ghost predicate ColoursOk(s: State)
    requires Sized(s)
  {
    && (forall id | 0 <= id < |s.creatures| :: ColourOk(s, id))
    && (forall m | 0 <= m < |s.log| :: MeetingOk(s.colours, s.log, m))
  }

  lemma InitColours(colours: seq<Colour>, capacity: nat, meetings: nat)
    ensures ColoursOk(Init(colours, capacity, meetings))
  {
  }

  /** A step that appends no meeting. */
  lemma SameLogColours(s: State, t: State, touched: nat)
    requires Sized(s) && Sized(t) && ColoursOk(s) && t.log == s.log && t.colours == s.colours
    requires |t.creatures| == |s.creatures|
    requires forall id: nat | id < |s.creatures| && id != touched ::
      && t.creatures[id] == s.creatures[id] && t.boxes[id] == s.boxes[id]
      && Untold(t.broker, id) == Untold(s.broker, id)
    requires touched < |s.creatures| ==> ColourOk(t, touched)
    ensures ColoursOk(t)
  {
    hide ColourAfter, Complement, MeetingOk;
    forall id | 0 <= id < |t.creatures| ensures ColourOk(t, id) {
      if id != touched { assert ColourOk(s, id); }
    }
  }

  lemma CreatureColour(s: State, id: nat)
    requires Inv(s) && id < |s.creatures| && ColourOk(s, id)
    ensures ColourOk(CreatureStep(s, id), id)
  {
    assert CreatureOk(id, s.creatures[id], s.boxes[id], Owed(s, id),
                      Spawned(s.broker, id), Ended(s.broker, id), s.log);
    hide ColourAfter, Complement, MateOk, Inv;
  }

  lemma CreatureColours(s: State, id: nat)
    requires Inv(s) && ColoursOk(s) && id < |s.creatures|
    ensures ColoursOk(CreatureStep(s, id))
  {
    assert ColourOk(s, id);
    CreatureColour(s, id);
    CreatureFrame(s, id);
    hide Inv, CreatureStep, ColourOk, ColoursOk;
    SameLogColours(s, CreatureStep(s, id), id);
  }

  lemma CreatureFrame(s: State, id: nat)
    requires Sized(s) && id < |s.creatures|
    ensures var t := CreatureStep(s, id);
      && Sized(t) && |t.creatures| == |s.creatures|
      && t.log == s.log && t.colours == s.colours && t.broker == s.broker
      && forall j: nat | j < |s.creatures| && j != id :: t.creatures[j] == s.creatures[j] && t.boxes[j] == s.boxes[j]
  {
    hide Complement;
  }

  /** A message from the broker to creature `id`. */
  lemma SentColours(s: State, t: State, id: nat)
    requires Sized(s) && Sized(t) && ColoursOk(s) && id < |s.creatures|
    requires t.creatures == s.creatures && t.log == s.log && t.colours == s.colours
    requires t.boxes == s.boxes[id := t.boxes[id]] && ColourOk(t, id)
    requires forall j: nat | j < |s.creatures| && j != id :: Untold(t.broker, j) == Untold(s.broker, j)
    ensures ColoursOk(t)
  {
    hide ColourAfter, Complement, MeetingOk, ColourOk, ColoursOk, Untold;
    SameLogColours(s, t, id);
  }

  lemma SpawnColours(s: State, i: nat)
    requires Inv(s) && ColoursOk(s) && s.broker == Spawn(i) && i < |s.creatures|
    ensures ColoursOk(BrokerStep(s))
  {
    assert CreatureOk(i, s.creatures[i], s.boxes[i], Owed(s, i), Spawned(s.broker, i), Ended(s.broker, i), s.log);
    assert ColourOk(s, i);
    if |s.boxes[i]| < s.capacity {
      hide ColourAfter, Complement, MeetingOk, MateOk, Inv, ColoursOk;
      SentColours(s, BrokerStep(s), i);
    }
  }

  lemma FirstMateColours(s: State, left: nat, a: Visitor, b: Visitor)
    requires Inv(s) && ColoursOk(s) && s.broker == SendToFirst(left, a, b)
    ensures ColoursOk(BrokerStep(s))
  {
    assert CreatureOk(a.id, s.creatures[a.id], s.boxes[a.id], Owed(s, a.id), true, false, s.log);
    assert Met(s, |s.log| - 1);
    assert ColourAfter(s.colours, s.log, a.id) == Complement(a.colour, b.colour);
    if |s.boxes[a.id]| < s.capacity {
      hide ColourAfter, Complement, MeetingOk, MateOk, Inv, ColoursOk, Met;
      SentColours(s, BrokerStep(s), a.id);
    }
  }

  lemma SecondMateColours(s: State, left: nat, a: Visitor, b: Visitor)
    requires Inv(s) && ColoursOk(s) && s.broker == SendToSecond(left, a, b)
    ensures ColoursOk(BrokerStep(s))
  {
    assert CreatureOk(b.id, s.creatures[b.id], s.boxes[b.id], Owed(s, b.id), true, false, s.log);
    ComplementMeaning(a.colour, b.colour);
    assert ColourAfter(s.colours, s.log, b.id) == Complement(b.colour, a.colour);
    if |s.boxes[b.id]| < s.capacity {
      hide ColourAfter, Complement, MeetingOk, MateOk, Inv, ColoursOk;
      SentColours(s, BrokerStep(s), b.id);
    }
  }

  lemma EndColours(s: State, i: nat)
    requires Inv(s) && ColoursOk(s) && s.broker == Finalize(i) && i < |s.creatures|
    ensures ColoursOk(BrokerStep(s))
  {
    assert CreatureOk(i, s.creatures[i], s.boxes[i], Owed(s, i), true, false, s.log);
    assert ColourOk(s, i);
    if |s.boxes[i]| < s.capacity {
      hide ColourAfter, Complement, MeetingOk, MateOk, Inv, ColoursOk;
      SentColours(s, BrokerStep(s), i);
    }
  }

  /** A new meeting: its partners keep their colours until they are told, all others theirs for good. */
  lemma MeetingColours(s: State, left: nat, a: Visitor)
    requires Inv(s) && ColoursOk(s) && s.broker == Second(left, a) && s.requests != [] && s.requests[0].Ask?
    ensures ColoursOk(BrokerStep(s))
  {
    var b, t := s.requests[0].who, BrokerStep(s);
    assert s.requests[0] in s.requests;
    assert a.id < |s.creatures| && b.id < |s.creatures|;
    assert CreatureOk(a.id, s.creatures[a.id], s.boxes[a.id], Owed(s, a.id), true, false, s.log);
    assert CreatureOk(b.id, s.creatures[b.id], s.boxes[b.id], Owed(s, b.id), true, false, s.log);
    assert a.id != b.id && s.boxes[a.id] == [] == s.boxes[b.id];
    assert ColourOk(s, a.id) && ColourOk(s, b.id);
    assert t.log[..|s.log|] == s.log;
    hide Inv, CreatureOk, MateOk, Complement;
    forall id: nat | id < |s.colours| && id != a.id && id != b.id
      ensures ColourAfter(s.colours, t.log, id) == ColourAfter(s.colours, s.log, id) {
    }
    hide ColourAfter;
    forall id | 0 <= id < |t.creatures| ensures ColourOk(t, id) {
      assert ColourOk(s, id);
    }
    forall m | 0 <= m < |t.log| ensures MeetingOk(t.colours, t.log, m) {
      if m < |s.log| {
        assert MeetingOk(s.colours, s.log, m);
        assert t.log[..m] == s.log[..m];
      }
    }
  }

  lemma OtherBrokerColours(s: State)
    requires Inv(s) && ColoursOk(s)
    requires s.broker.First? || s.broker.Collect? || s.broker.Finished? || s.broker.Failed?
          || (s.broker.Spawn? && s.broker.next >= |s.creatures|)
          || (s.broker.Finalize? && s.broker.next >= |s.creatures|)
          || (s.broker.Second? && (s.requests == [] || s.requests[0].Final?))
    ensures ColoursOk(BrokerStep(s))
  {
    hide ColourAfter, Complement, MeetingOk, MateOk, Counts, AllMet, CreaturesOk, RequestsOk, ColoursOk, ColourOk;
    SameLogColours(s, BrokerStep(s), |s.creatures|);
  }

  lemma NextColours(s: State, action: Action)
    requires Inv(s) && ColoursOk(s)
    ensures ColoursOk(Next(s, action))
  {
    hide Inv, ColoursOk, BrokerStep, CreatureStep;
    var n := |s.creatures|;
    match action
    case CreatureMoves(id) => if id < n { CreatureColours(s, id); }
    case BrokerMoves =>
      match s.broker {
        case SendToFirst(left, a, b) => FirstMateColours(s, left, a, b);
        case SendToSecond(left, a, b) => SecondMateColours(s, left, a, b);
        case Spawn(i) => if i < n { SpawnColours(s, i); } else { OtherBrokerColours(s); }
        case Finalize(i) => if i < n { EndColours(s, i); } else { OtherBrokerColours(s); }
        case Second(left, a) =>
          if s.requests != [] && s.requests[0].Ask? { MeetingColours(s, left, a); } else { OtherBrokerColours(s); }
        case First(_) => OtherBrokerColours(s);
        case Collect(_, _) => OtherBrokerColours(s);
        case Finished(_) => OtherBrokerColours(s);
        case Failed => OtherBrokerColours(s);
      }
  }

  lemma {:induction false} RunColours(s: State, actions: seq<Action>)
    requires Inv(s) && ColoursOk(s)
    ensures ColoursOk(Run(s, actions))
    decreases |actions|
  {
    hide ColoursOk, Next;
    if actions == [] {
    } else {
      NextInv(s, actions[0]);
      NextColours(s, actions[0]);
      RunColours(Next(s, actions[0]), actions[1..]);
    }
  }

  /** In every run each meeting is between creatures with the colours their earlier meetings gave them, and at
      the broker's end every creature has the colour that all its meetings gave it. */
  lemma EveryColourIsEarned(colours: seq<Colour>, capacity: nat, meetings: nat, actions: seq<Action>)
    ensures var s := Run(Init(colours, capacity, meetings), actions);
      && s.colours == colours && |s.creatures| == |colours|
      && (forall m | 0 <= m < |s.log| :: MeetingOk(colours, s.log, m))
      && (s.broker.Finished? ==>
            forall id | 0 <= id < |colours| :: s.creatures[id].colour == ColourAfter(colours, s.log, id))
  {
    var init := Init(colours, capacity, meetings);
    InitInv(colours, capacity, meetings);
    InitColours(colours, capacity, meetings);
    RunInv(init, actions);
    RunColours(init, actions);
    RunKeeps(init, actions);
    var s := Run(init, actions);
    hide Run, ColourAfter, MeetingOk;
    if s.broker.Finished? {
      AllDone(s, s.broker.total);
      forall id | 0 <= id < |colours| ensures s.creatures[id].colour == ColourAfter(colours, s.log, id) {
        assert ColourOk(s, id);
      }
    }
  }

  // ----- the end of the game -----

  /** The two partners of meeting `m` are different and have computed the same colour. */
  predicate Agreed(s: State, m: nat)
    requires m < |s.log|
  {
    var a, b := (m, s.log[m].first), (m, s.log[m].second);
    && a != b && a in s.seen && b in s.seen
    && s.seen[a] == s.seen[b] == Complement(s.log[m].firstColour, s.log[m].secondColour)
  }

  lemma AllDone(s: State, total: nat)
    requires Inv(s) && s.broker == Finished(total)
    ensures total == 2 * s.planned
    ensures forall id | 0 <= id < |s.creatures| :: s.creatures[id].phase.Done? && s.boxes[id] == []
  {
    AllOnes(s.creatures, IsDone);
    assert Total(s.requests, IsFinal) == 0;
    TotalPositive(s.requests, IsFinal);
    forall i | 0 <= i < |s.requests| ensures FinalMeetings(s.requests[i]) == 0 {
      assert IsFinal(s.requests[i]) <= Total(s.requests, IsFinal);
    }
    TotalZero(s.requests, FinalMeetings);
    assert forall c | c in s.creatures :: IsDone(c) == 1;
    SameTotals(s.creatures, DoneMeetings, MeetingsOf);
    forall id | 0 <= id < |s.creatures| ensures s.creatures[id].phase.Done? && s.boxes[id] == [] {
      assert s.creatures[id] in s.creatures;
      assert CreatureOk(id, s.creatures[id], s.boxes[id], Owed(s, id),
                        Spawned(s.broker, id), Ended(s.broker, id), s.log);
    }
    TotalZero(s.boxes, MateWaits);
  }

  /** When the broker ends, it has counted exactly two meetings per planned meeting, and every
      meeting was between two creatures that now agree on its colour. */
  lemma FinishedMeansAgreed(s: State, total: nat)
    requires Inv(s) && s.broker == Finished(total)
    ensures total == 2 * s.planned && |s.log| == s.planned
    ensures forall m | 0 <= m < s.planned :: Agreed(s, m)
    ensures forall c | c in s.creatures :: c.selfMeetings == 0
  {
    AllDone(s, total);
    forall m | 0 <= m < s.planned ensures Agreed(s, m) {
      assert Met(s, m);
    }
    forall id | 0 <= id < |s.creatures| ensures s.creatures[id].selfMeetings == 0 {
      assert CreatureOk(id, s.creatures[id], s.boxes[id], Owed(s, id),
                        Spawned(s.broker, id), Ended(s.broker, id), s.log);
    }
  }

  // ----- the game ends -----

  function PhaseWork(c: Creature): nat { if c.phase.Asking? || c.phase.Ending? then 2 else 0 }
  function BoxWork(box: seq<Message>): nat { 3 * |box| }

  function BrokerWork(b: Broker, n: nat, planned: nat): int {
    match b
    case Spawn(i) => 8 * n - 4 * i + 8 * planned + 4
    case First(left) => 8 * left + 4 * n + 3
    case Second(left, _) => 8 * left + 4 * n + 3
    case SendToFirst(left, _, _) => 8 * left + 4 * n + 3
    case SendToSecond(left, _, _) => 8 * left + 4 * n - 1
    case Finalize(i) => 4 * (n - i) + 2
    case Collect(_, _) => 1
    case Finished(_) => 0
    case Failed => 0
  }

  /** An upper bound on the steps still to come. */
  function Work(s: State): int {
    BrokerWork(s.broker, |s.creatures|, s.planned) + |s.requests|
    + Total(s.boxes, BoxWork) + Total(s.creatures, PhaseWork)
  }

  lemma WorkIsNat(s: State)
    requires Inv(s)
    ensures Work(s) >= 0
  {
    hide Total, CreaturesOk, RequestsOk, Counts, AllMet;
  }

  lemma SendWorks(s: State, id: nat, m: Message, broker: Broker)
    requires Sized(s) && Send(s, id, m, broker) != s
    ensures Work(Send(s, id, m, broker)) == Work(s) + 3 + BrokerWork(broker, |s.creatures|, s.planned)
                                          - BrokerWork(s.broker, |s.creatures|, s.planned)
  {
    if id < |s.boxes| && |s.boxes[id]| < s.capacity {
      TotalUpdate(s.boxes, id, s.boxes[id] + [m], BoxWork);
    }
    hide Total, BrokerWork;
  }

  lemma BrokerWorks(s: State)
    requires Inv(s) && BrokerStep(s) != s
    ensures Work(BrokerStep(s)) < Work(s)
  {
    hide CreaturesOk, RequestsOk, Counts, AllMet, Total, Send;
    match s.broker
    case Spawn(i) => if i < |s.creatures| { SendWorks(s, i, Info(s.colours[i]), Spawn(i + 1)); }
    case SendToFirst(left, a, b) =>
      SendWorks(s, a.id, Mate(b.id, b.colour, |s.log| - 1), SendToSecond(left, a, b));
    case SendToSecond(left, a, b) =>
      SendWorks(s, b.id, Mate(a.id, a.colour, |s.log| - 1), First(left - 1));
    case Finalize(i) => if i < |s.creatures| { SendWorks(s, i, End, Finalize(i + 1)); }
    case First(_) =>
    case Second(_, _) =>
    case Collect(_, _) =>
    case Finished(_) =>
  }

  lemma CreatureWorks(s: State, id: nat)
    requires Inv(s) && id < |s.creatures| && CreatureStep(s, id) != s
    ensures Work(CreatureStep(s, id)) < Work(s)
  {
    hide CreaturesOk, RequestsOk, Counts, AllMet, BrokerOk, Complement;
    var t := CreatureStep(s, id);
    TotalUpdate(s.boxes, id, t.boxes[id], BoxWork);
    TotalUpdate(s.creatures, id, t.creatures[id], PhaseWork);
    hide Total;
  }

  /** Steps of a run that change something. */
  function Effective(s: State, actions: seq<Action>): nat
    requires Sized(s)
    decreases |actions|
  {
    if actions == [] then 0
    else (if Next(s, actions[0]) != s then 1 else 0) + Effective(Next(s, actions[0]), actions[1..])
  }

  lemma {:induction false} RunsAreBounded(s: State, actions: seq<Action>)
    requires Inv(s)
    ensures Effective(s, actions) <= Work(s)
    decreases |actions|
  {
    hide Work;
    WorkIsNat(s);
    if actions == [] {
    } else {
      var t := Next(s, actions[0]);
      NextInv(s, actions[0]);
      if t != s {
        match actions[0]
        case BrokerMoves => BrokerWorks(s);
        case CreatureMoves(id) => CreatureWorks(s, id);
      }
      RunsAreBounded(t, actions[1..]);
    }
  }

  ghost predicate CanMove(s: State)
    requires Sized(s)
  {
    exists action :: Next(s, action) != s
  }

  /** A creature that has a message, or a request to make, can move unless the broker's mailbox is full. */
  lemma CreatureCanMove(s: State, id: nat)
    requires Inv(s) && id < |s.creatures|
    requires s.creatures[id].phase.WaitInfo? || s.creatures[id].phase.Waiting? ==> s.boxes[id] != []
    requires s.creatures[id].phase.Asking? || s.creatures[id].phase.Ending? ==> |s.requests| < s.capacity
    requires !s.creatures[id].phase.Done?
    ensures CanMove(s)
  {
    assert CreatureOk(id, s.creatures[id], s.boxes[id], Owed(s, id),
                      Spawned(s.broker, id), Ended(s.broker, id), s.log);
    assert CreatureStep(s, id).creatures[id] != s.creatures[id];
    assert Next(s, CreatureMoves(id)) != s;
  }

  lemma ReceivingBrokerCanMove(s: State)
    requires Inv(s) && s.capacity > 0 && (s.broker.First? || s.broker.Second? || s.broker.Collect?)
    requires |s.creatures| >= 2 || s.planned == 0
    ensures CanMove(s)
  {
    hide Complement, MateOk, Total;
    if Next(s, BrokerMoves) == s {
      assert s.requests == [];
      if s.broker.Collect? {
        hide AllMet;
        SomeoneIsNotDone(s);
      } else {
        var id: nat := if s.broker.Second? && s.broker.a.id == 0 then 1 else 0;
        assert CreatureOk(id, s.creatures[id], s.boxes[id], Owed(s, id), true, false, s.log);
        CreatureCanMove(s, id);
      }
    }
  }

  lemma SomeoneIsNotDone(s: State)
    requires Inv(s) && s.broker.Collect? && s.broker.remaining > 0 && s.requests == [] && s.capacity > 0
    ensures CanMove(s)
  {
    var id := SomeZero(s.creatures, IsDone);
    assert CreatureOk(id, s.creatures[id], s.boxes[id], Owed(s, id), true, true, s.log);
    CreatureCanMove(s, id);
  }

  lemma SendingBrokerCanMove(s: State)
    requires Inv(s) && s.capacity > 0
    requires s.broker.Spawn? || s.broker.SendToFirst? || s.broker.SendToSecond? || s.broker.Finalize?
    ensures CanMove(s)
  {
    hide Complement, MateOk, Total;
    if Next(s, BrokerMoves) == s {
      var b := s.broker;
      var id := if b.Spawn? || b.Finalize? then b.next else if b.SendToFirst? then b.a.id else b.b.id;
      assert id < |s.creatures| && |s.boxes[id]| >= s.capacity;
      assert CreatureOk(id, s.creatures[id], s.boxes[id], Owed(s, id), Spawned(s.broker, id), false, s.log);
      CreatureCanMove(s, id);
    }
  }

  /** No deadlock: with two creatures or more, or nothing to arrange, and mailboxes that hold at
      least one message, some actor can move until the broker has ended. */
  lemma SomeoneCanMove(s: State)
    requires Inv(s) && s.capacity > 0 && (|s.creatures| >= 2 || s.planned == 0) && !s.broker.Finished?
    ensures CanMove(s)
  {
    hide Inv;
    if s.broker.First? || s.broker.Second? || s.broker.Collect? {
      ReceivingBrokerCanMove(s);
    } else {
      assert !s.broker.Failed? by { NotFailed(s); }
      SendingBrokerCanMove(s);
    }
  }

  lemma NotFailed(s: State)
    requires Inv(s)
    ensures !s.broker.Failed?
  {
  }

  /** Every run: the broker's assertions hold, at most 8 * (creatures + meetings) + 4 steps have an effect, and
      a run that cannot go on has ended with exactly two meetings counted per planned meeting. */
  lemma EveryGame(colours: seq<Colour>, capacity: nat, meetings: nat, actions: seq<Action>)
    requires capacity > 0 && (|colours| >= 2 || meetings == 0)
    ensures var s := Run(Init(colours, capacity, meetings), actions);
      && !s.broker.Failed?
      && Effective(Init(colours, capacity, meetings), actions) <= 8 * (|colours| + meetings) + 4
      && (s.broker.Finished? || CanMove(s))
      && (s.broker.Finished? ==> s.broker.total == 2 * meetings)
  {
    var init := Init(colours, capacity, meetings);
    InitInv(colours, capacity, meetings);
    RunInv(init, actions);
    RunsAreBounded(init, actions);
    InitWork(colours, capacity, meetings);
    RunKeeps(init, actions);
    var s := Run(init, actions);
    NotFailed(s);
    hide Inv;
    if s.broker.Finished? {
      FinishedMeansAgreed(s, s.broker.total);
    } else {
      SomeoneCanMove(s);
    }
  }

  lemma InitWork(colours: seq<Colour>, capacity: nat, meetings: nat)
    ensures Work(Init(colours, capacity, meetings)) == 8 * (|colours| + meetings) + 4
  {
    var s := Init(colours, capacity, meetings);
    TotalZero(s.boxes, BoxWork);
    TotalZero(s.creatures, PhaseWork);
  }

  lemma {:induction false} RunKeeps(s: State, actions: seq<Action>)
    requires Sized(s)
    ensures var t := Run(s, actions);
      t.capacity == s.capacity && t.planned == s.planned && t.colours == s.colours && |t.creatures| == |s.creatures|
    decreases |actions|
  {
    if actions == [] {
    } else {
      RunKeeps(Next(s, actions[0]), actions[1..]);
    }
  }

  /** With fewer than two creatures the broker waits for ever. */
  lemma TooFewCreatures(colours: seq<Colour>, capacity: nat, meetings: nat) returns (actions: seq<Action>)
    requires capacity > 0 && |colours| < 2 && meetings > 0
    ensures var s := Run(Init(colours, capacity, meetings), actions);
      !s.broker.Finished? && !CanMove(s)
  {
    var s0 := Init(colours, capacity, meetings);
    var s1 := Next(s0, BrokerMoves);
    if colours == [] {
      actions := [BrokerMoves];
      assert Run(s1, []) == s1 && Run(s0, actions) == Run(s1, actions[1..]);
    } else {
      var c := CreatureMoves(0);
      actions := [BrokerMoves] + ([BrokerMoves] + ([c] + ([c] + ([BrokerMoves] + []))));
      var s2 := Next(s1, BrokerMoves);
      var s3 := Next(s2, c);
      var s4 := Next(s3, c);
      var s5 := Next(s4, BrokerMoves);
      assert s5.broker.Second? && s5.requests == [] && s5.creatures[0].phase.Waiting? && s5.boxes[0] == [];
      assert !CanMove(s5);
      FiveMoves(s0, BrokerMoves, BrokerMoves, c, c, BrokerMoves);
    }
  }

  lemma FiveMoves(s: State, a: Action, b: Action, c: Action, d: Action, e: Action)
    requires Sized(s)
    ensures Run(s, [a] + ([b] + ([c] + ([d] + ([e] + []))))) == Next(Next(Next(Next(Next(s, a), b), c), d), e)
  {
    hide Next;
    OneMove(s, a, [b] + ([c] + ([d] + ([e] + []))));
    var s1 := Next(s, a);
    OneMove(s1, b, [c] + ([d] + ([e] + [])));
    var s2 := Next(s1, b);
    OneMove(s2, c, [d] + ([e] + []));
    var s3 := Next(s2, c);
    OneMove(s3, d, [e] + []);
    OneMove(Next(s3, d), e, []);
  }

  lemma OneMove(s: State, a: Action, rest: seq<Action>)
    requires Sized(s)
    ensures Run(s, [a] + rest) == Run(Next(s, a), rest)
  {
    hide Next;
    assert ([a] + rest)[1..] == rest;
  }

  /** No run gets stuck before the broker's end exactly when there are two creatures or nothing to arrange. */
  lemma NeverStuckIff(colours: seq<Colour>, capacity: nat, meetings: nat)
    requires capacity > 0
    ensures (forall actions ::
              Run(Init(colours, capacity, meetings), actions).broker.Finished?
              || CanMove(Run(Init(colours, capacity, meetings), actions)))
       <==> (|colours| >= 2 || meetings == 0)
  {
    hide Run, Inv, CanMove;
    if |colours| >= 2 || meetings == 0 {
      forall actions ensures Run(Init(colours, capacity, meetings), actions).broker.Finished?
                          || CanMove(Run(Init(colours, capacity, meetings), actions)) {
        EveryGame(colours, capacity, meetings, actions);
      }
    } else {
      var actions := TooFewCreatures(colours, capacity, meetings);
    }
  }
}
