/** The calls one thread makes on a task queue, what each of them put into the ring and took from it, and
    what it answered.  From the calls alone follows what the owner's priority slot has to hold and what each
    call has to do.
  */
module QueueCalls {
  import opened Options

  datatype Call<E> = Push(x: E) | PriorityPush(x: E) | Pop | Steal

  datatype Entry<E> = Entry(call: Call<E>, puts: seq<E>, took: seq<E>, answer: Option<E>, done: bool)

  type Log<E> = seq<Entry<E>>

  function Elements<E>(result: Option<E>): seq<E> {
    if result.Some? then [result.value] else []
  }

  // ----- what the calls mean -----

  /** The slot after the calls of `log`: the argument of the last priority push, unless a pop came after it. */
  function SlotAfter<E>(log: Log<E>): Option<E> {
    if log == [] then None
    else
      match log[|log| - 1].call
      case PriorityPush(x) => Some(x)
      case Pop => None
      case _ => SlotAfter(log[..|log| - 1])
  }

  /** What a finished call has done when the slot held `slot` at its start: a push puts its argument into the
      ring, a priority push what was in the slot; a pop answers with what was in the slot, and only when
      there was nothing with what it took from the ring, as a steal does. */
  predicate Right<E(==)>(e: Entry<E>, slot: Option<E>) {
    match e.call
    case Push(x) => e.puts == [x] && e.took == [] && e.answer.None?
    case PriorityPush(_) => e.puts == Elements(slot) && e.took == [] && e.answer.None?
    case Pop => e.puts == [] && (if slot.Some? then e.took == [] && e.answer == slot else e.took == Elements(e.answer))
    case Steal => e.puts == [] && e.took == Elements(e.answer)
  }

  ghost predicate AllRight<E>(log: Log<E>) {
    forall i | 0 <= i < |log| && log[i].done :: Right(log[i], SlotAfter(log[..i]))
  }

  // ----- keeping the log -----

  function Begin<E>(log: Log<E>, call: Call<E>): Log<E> {
    log + [Entry(call, [], [], None, false)]
  }

  function WithLast<E>(log: Log<E>, e: Entry<E>): Log<E> {
    if log == [] then log else log[..|log| - 1] + [e]
  }

  function NotePut<E>(log: Log<E>, x: E): Log<E> {
    if log == [] then log else WithLast(log, log[|log| - 1].(puts := log[|log| - 1].puts + [x]))
  }

  function NoteTook<E>(log: Log<E>, x: E): Log<E> {
    if log == [] then log else WithLast(log, log[|log| - 1].(took := log[|log| - 1].took + [x]))
  }

  function NoteDone<E>(log: Log<E>, answer: Option<E>): Log<E> {
    if log == [] then log else WithLast(log, log[|log| - 1].(answer := answer, done := true))
  }

  /** The call under way, if there is one. */
  predicate Busy<E>(log: Log<E>) {
    log != [] && !log[|log| - 1].done
  }

  /** The slot before the last call. */
  function SlotBefore<E>(log: Log<E>): Option<E>
    requires log != []
  {
    SlotAfter(log[..|log| - 1])
  }

  lemma BeginKeeps<E>(log: Log<E>, call: Call<E>)
    requires AllRight(log)
    ensures AllRight(Begin(log, call)) && Busy(Begin(log, call)) && SlotBefore(Begin(log, call)) == SlotAfter(log)
  {
    var next := Begin(log, call);
    assert next[..|log|] == log;
    forall i | 0 <= i < |next| && next[i].done ensures Right(next[i], SlotAfter(next[..i])) {
      assert next[..i] == log[..i];
    }
  }

  lemma LastKeeps<E>(log: Log<E>, e: Entry<E>)
    requires AllRight(log) && log != [] && e.call == log[|log| - 1].call
    requires e.done ==> Right(e, SlotBefore(log))
    ensures AllRight(WithLast(log, e))
    ensures SlotBefore(WithLast(log, e)) == SlotBefore(log) && SlotAfter(WithLast(log, e)) == SlotAfter(log)
  {
    var next := WithLast(log, e);
    assert next[..|log| - 1] == log[..|log| - 1];
    forall i | 0 <= i < |next| && next[i].done ensures Right(next[i], SlotAfter(next[..i])) {
      assert next[..i] == log[..i];
    }
  }

  /** `next` is `log` with its last entry replaced by `e`. */
  ghost predicate Follows<E>(log: Log<E>, next: Log<E>, e: Entry<E>) {
    && AllRight(next) && log != [] && next != [] && next[|next| - 1] == e
    && SlotBefore(next) == SlotBefore(log) && SlotAfter(next) == SlotAfter(log)
  }

  lemma PutFollows<E>(log: Log<E>, x: E)
    requires AllRight(log) && Busy(log)
    ensures Follows(log, NotePut(log, x), log[|log| - 1].(puts := log[|log| - 1].puts + [x]))
  {
    LastKeeps(log, log[|log| - 1].(puts := log[|log| - 1].puts + [x]));
    hide AllRight, SlotAfter, SlotBefore;
  }

  lemma TookFollows<E>(log: Log<E>, x: E)
    requires AllRight(log) && Busy(log)
    ensures Follows(log, NoteTook(log, x), log[|log| - 1].(took := log[|log| - 1].took + [x]))
  {
    LastKeeps(log, log[|log| - 1].(took := log[|log| - 1].took + [x]));
    hide AllRight, SlotAfter, SlotBefore;
  }

  lemma DoneFollows<E>(log: Log<E>, answer: Option<E>)
    requires AllRight(log) && log != []
    requires Right(log[|log| - 1].(answer := answer, done := true), SlotBefore(log))
    ensures Follows(log, NoteDone(log, answer), log[|log| - 1].(answer := answer, done := true))
  {
    LastKeeps(log, log[|log| - 1].(answer := answer, done := true));
    hide AllRight, SlotAfter, SlotBefore;
  }

  lemma SlotAfterPush<E>(log: Log<E>, x: E)
    requires log != [] && log[|log| - 1].call == PriorityPush(x)
    ensures SlotAfter(log) == Some(x)
  {
  }

  // ----- a call under way -----

  /** What a thread is doing to the queue. */
  datatype Op<E> =
    | Out
    | Pushing(x: E) | Pushed
    | Taking | Took(result: Option<E>)
    | Popping
    | Displacing(x: E)

  /** Where the call under way stands: what it has put into the ring and taken from it so far. */
  predicate CallAt<E(==)>(op: Op<E>, log: Log<E>) {
    if op.Out? then !Busy(log)
    else
      Busy(log) &&
      var e, slot := log[|log| - 1], SlotBefore(log);
      match op
      case Pushing(x) =>
        e.puts == [] && e.took == [] && (e.call == Push(x) || (e.call.PriorityPush? && slot == Some(x)))
      case Pushed =>
        && e.took == []
        && ((e.call.Push? && e.puts == [e.call.x]) || (e.call.PriorityPush? && slot.Some? && e.puts == [slot.value]))
      case Taking => e.puts == [] && e.took == [] && (e.call.Steal? || (e.call.Pop? && slot.None?))
      case Took(result) =>
        e.puts == [] && e.took == Elements(result) && (e.call.Steal? || (e.call.Pop? && slot.None?))
      case Popping => e.puts == [] && e.took == [] && e.call.Pop?
      case Displacing(x) => e.puts == [] && e.took == [] && e.call == PriorityPush(x)
      case Out => true
  }

  /** The owner's calls say what the slot holds: a call on the slot counts once it has changed it. */
  predicate SlotFollows<E(==)>(slot: Option<E>, op: Op<E>, log: Log<E>) {
    slot == if (op.Popping? || op.Displacing?) && log != [] then SlotBefore(log) else SlotAfter(log)
  }
}
