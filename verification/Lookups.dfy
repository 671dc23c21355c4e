/** Many binary searches at once (`bench/prefetching_lookups_bench_`): a plain loop, one coroutine
    per key in a bounded ring queue, and a hand-written state machine per stream.
  */
module Lookups {
  import opened Options

  // ----- what a search means -----

  predicate Sorted(v: seq<int>) {
    forall i, j | 0 <= i < j < |v| :: v[i] <= v[j]
  }

  /** The key can only be among the `len` elements from `first`. */
  predicate Window(v: seq<int>, first: nat, len: nat, key: int) {
    && first + len <= |v|
    && (forall i | 0 <= i < first :: v[i] < key)
    && (forall i | first + len <= i < |v| :: v[i] > key)
  }

  /** One look at the middle of the window leaves a smaller window, or shows the key. */
  lemma Halve(v: seq<int>, first: nat, len: nat, key: int)
    requires Sorted(v) && Window(v, first, len, key) && len > 0
    ensures var half := len / 2; var x := v[first + half];
      && (x < key ==> Window(v, first + half + 1, len - half - 1, key))
      && (x > key ==> Window(v, first, half, key))
      && (x == key ==> key in v)
  {
  }

  /** An empty window means that the key is absent. */
  lemma EmptyWindow(v: seq<int>, first: nat, key: int)
    requires Window(v, first, 0, key)
    ensures key !in v
  {
  }

  /** The number of keys that occur in the data. */
  function Hits(v: seq<int>, keys: seq<int>): nat {
    if keys == [] then 0 else (if keys[0] in v then 1 else 0) + Hits(v, keys[1..])
  }

  lemma {:induction false} HitsConcat(v: seq<int>, a: seq<int>, b: seq<int>)
    ensures Hits(v, a + b) == Hits(v, a) + Hits(v, b)
  {
    if a == [] {
      assert a + b == b;
    } else {
      assert (a + b)[1..] == a[1..] + b;
      HitsConcat(v, a[1..], b);
    }
  }

  lemma HitsFrom(v: seq<int>, keys: seq<int>, k: nat)
    requires k < |keys|
    ensures Hits(v, keys[k..]) == (if keys[k] in v then 1 else 0) + Hits(v, keys[k + 1..])
  {
    assert keys[k..][1..] == keys[k + 1..];
  }

  /** The number of hits says how many positions of `keys` hold a key that occurs in the data. */
  lemma {:induction false} HitsCount(v: seq<int>, keys: seq<int>)
    ensures Hits(v, keys) == |set k | 0 <= k < |keys| && keys[k] in v|
  {
    var all := set k | 0 <= k < |keys| && keys[k] in v;
    if keys == [] {
      assert all == {};
    } else {
      var last := |keys| - 1;
      var rest := set k | 0 <= k < |keys[..last]| && keys[..last][k] in v;
      HitsCount(v, keys[..last]);
      assert keys == keys[..last] + [keys[last]];
      HitsConcat(v, keys[..last], [keys[last]]);
      assert Hits(v, [keys[last]][1..]) == 0;
      assert all == rest + if keys[last] in v then {last} else {};
    }
  }

  // ----- one key after the other (naive.cpp) -----

  method NaiveBinarySearch(v: seq<int>, key: int) returns (found: bool)
    requires Sorted(v)
    ensures found <==> key in v
  {
    var first, len := 0, |v|;
    while len > 0
      invariant 0 <= first && 0 <= len && Window(v, first, len, key)
    {
      Halve(v, first, len, key);
      var half := len / 2;
      var middle := first + half;
      var middleKey := v[middle];
      if middleKey < key {
        first := middle + 1;
        len := len - half - 1;
      } else {
        len := half;
      }
      if middleKey == key {
        return true;
      }
    }
    EmptyWindow(v, first, key);
    return false;
  }

  // ----- coroutines in a ring (libseff.c, libseff_infra.h) -----

  /** The arguments and locals of a suspended search.  A fresh one has not run at all; a started one
      has announced the element it will read next. */
  datatype Search = Search(first: nat, len: nat, key: int, started: bool)

  predicate SearchOk(v: seq<int>, s: Search) {
    Window(v, s.first, s.len, s.key) && (s.started ==> s.len > 0)
  }

  /** Every resumption lowers this. */
  function Left(s: Search): nat { s.len + if s.started then 0 else 1 }

  /** Runs a search up to its next yield, or to its end with whether it found its key. */
  method Resume(v: seq<int>, s: Search) returns (result: Option<bool>, s': Search)
    requires Sorted(v) && SearchOk(v, s)
    ensures result.Some? ==> (result.value <==> s.key in v)
    ensures result.None? ==> SearchOk(v, s') && s'.key == s.key && Left(s') < Left(s)
    ensures result.None? ==> s'.started && s'.len <= if s.started then s.len / 2 else s.len
  {
    s' := s;
    if s.started {
      Halve(v, s.first, s.len, s.key);
      var half := s.len / 2;
      var x := v[s.first + half];
      if x < s.key {
        s' := s.(first := s.first + half + 1, len := s.len - half - 1);
      } else {
        s' := s.(len := half);
      }
      if x == s.key {
        return Some(true), s';
      }
    }
    if s'.len > 0 {
      s' := s'.(started := true);
      return None, s';
    }
    EmptyWindow(v, s'.first, s.key);
    return Some(false), s';
  }

  const CAPACITY: nat := 256

  /** The bounded ring of libseff_infra.h. */
  class CoroQueue {
    var coros: array<Search>
    var start: nat
    var size: nat

    ghost predicate Valid()
      reads this
    {
      coros.Length == CAPACITY && start < CAPACITY && size <= CAPACITY
    }

    ghost function Contents(): (c: seq<Search>)
      reads this, coros
      requires Valid()
      ensures |c| == size
    {
      seq(size, i requires 0 <= i < size reads this, coros requires Valid() => coros[(start + i) % CAPACITY])
    }

    constructor ()
      ensures Valid() && fresh(coros) && Contents() == []
    {
      coros := new Search[CAPACITY](_ => Search(0, 0, 0, false));
      start, size := 0, 0;
    }

    /** Refuses the task, without a trace, when the ring is full. */
    method Enqueue(task: Search) returns (ok: bool)
      requires Valid()
      modifies this`size, coros
      ensures Valid()
      ensures ok == (|old(Contents())| < CAPACITY)
      ensures Contents() == if ok then old(Contents()) + [task] else old(Contents())
    {
      if size == CAPACITY {
        return false;
      }
      coros[(start + size) % CAPACITY] := task;
      size := size + 1;
      return true;
    }

    /** None is the null coroutine of an empty ring. */
    method Dequeue() returns (task: Option<Search>)
      requires Valid()
      modifies this`start, this`size
      ensures Valid()
      ensures old(Contents()) == [] ==> task == None && Contents() == []
      ensures old(Contents()) != [] ==> task == Some(old(Contents())[0]) && Contents() == old(Contents())[1..]
    {
      if size <= 0 {
        return None;
      }
      task := Some(coros[start]);
      start := (start + 1) % CAPACITY;
      size := size - 1;
    }
  }

  function Keys(q: seq<Search>): (ks: seq<int>)
    ensures |ks| == |q|
  {
    if q == [] then [] else [q[0].key] + Keys(q[1..])
  }

  lemma {:induction false} KeysConcat(a: seq<Search>, b: seq<Search>)
    ensures Keys(a + b) == Keys(a) + Keys(b)
  {
    if a == [] {
      assert a + b == b;
    } else {
      assert (a + b)[1..] == a[1..] + b;
      KeysConcat(a[1..], b);
    }
  }

  function TotalLeft(q: seq<Search>): nat {
    if q == [] then 0 else Left(q[0]) + TotalLeft(q[1..])
  }

  lemma {:induction false} TotalLeftConcat(a: seq<Search>, b: seq<Search>)
    ensures TotalLeft(a + b) == TotalLeft(a) + TotalLeft(b)
  {
    if a == [] {
      assert a + b == b;
    } else {
      assert (a + b)[1..] == a[1..] + b;
      TotalLeftConcat(a[1..], b);
    }
  }

  function PendingHits(v: seq<int>, q: seq<Search>): nat {
    Hits(v, Keys(q))
  }

  lemma PendingAppend(v: seq<int>, q: seq<Search>, s: Search)
    ensures PendingHits(v, q + [s]) == PendingHits(v, q) + (if s.key in v then 1 else 0)
    ensures TotalLeft(q + [s]) == TotalLeft(q) + Left(s)
  {
    KeysConcat(q, [s]);
    HitsConcat(v, Keys(q), Keys([s]));
    assert Keys([s]) == [s.key] + Keys([]);
    assert Hits(v, [s.key]) == (if s.key in v then 1 else 0) + Hits(v, []);
    TotalLeftConcat(q, [s]);
    assert TotalLeft([s]) == Left(s) + TotalLeft([]);
  }

  ghost predicate QueueOk(v: seq<int>, q: seq<Search>) {
    forall s | s in q :: SearchOk(v, s)
  }

  /** Resumes the oldest search: it either ends or goes to the back of the ring. */
  method ResumeOldest(v: seq<int>, q: CoroQueue) returns (result: Option<bool>)
    requires Sorted(v) && q.Valid() && q.Contents() != [] && QueueOk(v, q.Contents())
    modifies q, q.coros
    ensures q.Valid() && q.coros == old(q.coros) && QueueOk(v, q.Contents())
    ensures result.None? ==>
      && |q.Contents()| == |old(q.Contents())|
      && PendingHits(v, q.Contents()) == PendingHits(v, old(q.Contents()))
      && TotalLeft(q.Contents()) < TotalLeft(old(q.Contents()))
    ensures result.Some? ==>
      && |q.Contents()| == |old(q.Contents())| - 1
      && PendingHits(v, q.Contents()) + (if result.value then 1 else 0) == PendingHits(v, old(q.Contents()))
      && TotalLeft(q.Contents()) <= TotalLeft(old(q.Contents()))
  {
    ghost var before := q.Contents();
    var task := q.Dequeue();
    assert task.value in before;
    var s';
    result, s' := Resume(v, task.value);
    if result.None? {
      PendingAppend(v, before[1..], s');
      var ok := q.Enqueue(s');
    }
  }

  /** Resumes searches in turn until one ends; None when there is none to resume. */
  method ResumeUntilOneEnds(v: seq<int>, q: CoroQueue) returns (result: Option<bool>)
    requires Sorted(v) && q.Valid() && QueueOk(v, q.Contents())
    modifies q, q.coros
    ensures q.Valid() && q.coros == old(q.coros) && QueueOk(v, q.Contents())
    ensures result.None? <==> old(q.Contents()) == []
    ensures result.Some? ==>
      && |q.Contents()| == |old(q.Contents())| - 1
      && PendingHits(v, q.Contents()) + (if result.value then 1 else 0) == PendingHits(v, old(q.Contents()))
  {
    result := None;
    while q.size > 0 && result.None?
      invariant q.Valid() && q.coros == old(q.coros) && QueueOk(v, q.Contents())
      invariant result.None? ==>
        |q.Contents()| == |old(q.Contents())| && PendingHits(v, q.Contents()) == PendingHits(v, old(q.Contents()))
      invariant result.Some? ==>
        && |q.Contents()| == |old(q.Contents())| - 1
        && PendingHits(v, q.Contents()) + (if result.value then 1 else 0) == PendingHits(v, old(q.Contents()))
      decreases result.None?, TotalLeft(q.Contents())
    {
      result := ResumeOldest(v, q);
    }
  }

  /** Whether no search is ever lost: a stream is allowed, and the ring holds all that run at once. */
  predicate Fits(keys: nat, streams: int) {
    keys == 0 || (streams >= 1 && (streams <= CAPACITY || keys <= CAPACITY))
  }

  /** What SeffMultiLookup knows between two of its statements: where its coroutines are, `lost` of them
      having been refused by the ring, and what they and the keys to come will still find. */
  ghost predicate Ledger(v: seq<int>, lookups: seq<int>, streams: int, nextArg: nat, found: nat, limit: int,
                         q: seq<Search>, lost: nat)
  {
    && nextArg <= |lookups| && QueueOk(v, q)
    && streams - limit == |q| + lost && |q| + lost <= nextArg
    && (lost == 0 ==> found + PendingHits(v, q) + Hits(v, lookups[nextArg..]) == Hits(v, lookups))
  }

  /** A new coroutine enters the books, whether the ring takes it or not. */
  lemma LedgerAdds(v: seq<int>, lookups: seq<int>, streams: int, nextArg: nat, found: nat, limit: int,
                   q: seq<Search>, lost: nat, s: Search, ok: bool)
    requires Ledger(v, lookups, streams, nextArg, found, limit, q, lost) && nextArg < |lookups|
    requires s == Search(0, |v|, lookups[nextArg], false)
    ensures Ledger(v, lookups, streams, nextArg + 1, found, limit - 1,
                   if ok then q + [s] else q, if ok then lost else lost + 1)
  {
    hide PendingHits, Hits, TotalLeft;
    PendingAppend(v, q, s);
    HitsFrom(v, lookups, nextArg);
  }

  /** Starts coroutines until there is no key or no stream left. */
  method Fill(v: seq<int>, lookups: seq<int>, q: CoroQueue, first: nat, limit: int,
              ghost streams: int, ghost found: nat, ghost lost: nat)
      returns (nextArg: nat, limit': int, ghost lost': nat)
    requires q.Valid() && Ledger(v, lookups, streams, first, found, limit, q.Contents(), lost) && first < |lookups|
    requires first == 0 ==> limit == streams
    requires first > 0 ==> limit > 0 && streams >= 1 && (lost > 0 <==> !Fits(|lookups|, streams))
    modifies q, q.coros
    ensures q.Valid() && q.coros == old(q.coros)
    ensures Ledger(v, lookups, streams, nextArg, found, limit', q.Contents(), lost')
    ensures streams >= 1 ==> nextArg > first && limit' >= 0 && (lost' == 0 ==> q.Contents() != [])
    ensures streams >= 1 ==> (lost' > 0 <==> !Fits(|lookups|, streams))
    ensures streams <= 0 ==> q.Contents() == [] && !Fits(|lookups|, streams)
  {
    nextArg, limit', lost' := first, limit, lost;
    hide PendingHits, Hits, SearchOk, QueueOk;
    while nextArg < |lookups| && limit' > 0
      invariant q.Valid() && q.coros == old(q.coros) && first <= nextArg
      invariant Ledger(v, lookups, streams, nextArg, found, limit', q.Contents(), lost')
      invariant streams >= 1 ==> limit' >= 0
      invariant nextArg == first ==> limit' == limit && lost' == lost
      invariant nextArg > first ==> streams >= 1 && (lost' == 0 ==> q.Contents() != [])
      invariant first == 0 ==> nextArg == streams - limit'
      invariant first == 0 ==> lost' == (if nextArg > CAPACITY then nextArg - CAPACITY else 0)
      invariant first > 0 ==> (lost' > 0 <==> !Fits(|lookups|, streams))
    {
      var s := Search(0, |v|, lookups[nextArg], false);
      ghost var before := q.Contents();
      var ok := q.Enqueue(s);
      LedgerAdds(v, lookups, streams, nextArg, found, limit', before, lost', s, ok);
      limit', nextArg := limit' - 1, nextArg + 1;
      if !ok { lost' := lost' + 1; }
    }
  }

  /** Resumes the coroutines until all streams are free again; None stands for resuming the null coroutine. */
  method Drain(v: seq<int>, q: CoroQueue, streams: int, limit: int, found: nat,
               ghost lookups: seq<int>, ghost lost: nat)
      returns (result: Option<nat>)
    requires Sorted(v) && q.Valid()
    requires Ledger(v, lookups, streams, |lookups|, found, limit, q.Contents(), lost)
    modifies q, q.coros
    ensures result == if lost == 0 then Some(Hits(v, lookups)) else None
  {
    assert Hits(v, lookups[|lookups|..]) == 0 && PendingHits(v, []) == 0;
    hide PendingHits, Hits, SearchOk, TotalLeft;
    var limit', count := limit, found;
    while limit' < streams
      invariant q.Valid() && q.coros == old(q.coros)
      invariant Ledger(v, lookups, streams, |lookups|, count, limit', q.Contents(), lost)
      decreases |q.Contents()|, TotalLeft(q.Contents())
    {
      if q.size == 0 {
        return None;
      }
      var res := ResumeOldest(v, q);
      if res.Some? {
        if res.value { count := count + 1; }
        limit' := limit' + 1;
      }
    }
    return Some(count);
  }

  /** None stands for resuming the null coroutine. */
  method SeffMultiLookup(v: seq<int>, lookups: seq<int>, streams: int) returns (found: Option<nat>)
    requires Sorted(v)
    ensures found == if Fits(|lookups|, streams) then Some(Hits(v, lookups)) else None
  {
    var foundCount: nat := 0;
    var limit := streams;
    var q := new CoroQueue();
    ghost var lost: nat := 0;
    var nextArg: nat := 0;
    assert lookups[0..] == lookups && PendingHits(v, []) == 0;
    hide PendingHits, Hits, SearchOk;
    while nextArg < |lookups|
      invariant fresh(q) && fresh(q.coros) && q.Valid()
      invariant Ledger(v, lookups, streams, nextArg, foundCount, limit, q.Contents(), lost)
      invariant nextArg == 0 ==> limit == streams && lost == 0
      invariant nextArg > 0 ==> limit > 0 && streams >= 1 && (lost > 0 <==> !Fits(|lookups|, streams))
      decreases |lookups| - nextArg
    {
      nextArg, limit, lost := Fill(v, lookups, q, nextArg, limit, streams, foundCount, lost);
      var res := ResumeUntilOneEnds(v, q);
      if res.None? {
        return None;
      }
      if res.value { foundCount := foundCount + 1; }
      limit := limit + 1;
    }
    found := Drain(v, q, streams, limit, foundCount, lookups, lost);
  }

  // ----- a hand-written state machine (external/sm.cpp) -----

  datatype Status = KEEP_GOING | FOUND | NOT_FOUND | EMPTY

  datatype Frame = Frame(first: nat, middle: nat, len: nat, half: nat, key: int, state: Status)

  /** `init` of a frame over the whole data. */
  function InitFrame(v: seq<int>, key: int): Frame {
    if |v| == 0 then Frame(0, 0, 0, 0, key, NOT_FOUND)
    else Frame(0, |v| / 2, |v|, |v| / 2, key, KEEP_GOING)
  }

  /** `run` of a frame; its result is whether the search has ended. */
  function RunFrame(v: seq<int>, f: Frame): Frame
    requires FrameOk(v, f) && f.state.KEEP_GOING?
  {
    var x := v[f.middle];
    var g := if x < f.key then f.(first := f.middle + 1, len := f.len - f.half - 1) else f.(len := f.half);
    if x == f.key then g.(state := FOUND)
    else if g.len > 0 then g.(half := g.len / 2, middle := g.first + g.len / 2)
    else g.(state := NOT_FOUND)
  }

  ghost predicate FrameOk(v: seq<int>, f: Frame) {
    f.state.KEEP_GOING? ==>
      Window(v, f.first, f.len, f.key) && f.len > 0 && f.half == f.len / 2 && f.middle == f.first + f.half
  }

  /** What a frame still has to contribute to the result. */
  function FrameHit(v: seq<int>, f: Frame): nat {
    if f.state.KEEP_GOING? && f.key in v then 1 else 0
  }

  function FrameLeft(f: Frame): nat {
    if f.state.KEEP_GOING? then f.len else 0
  }

  /** A step ends a search with the right answer or halves its window. */
  lemma RunFrameSteps(v: seq<int>, f: Frame)
    requires Sorted(v) && FrameOk(v, f) && f.state.KEEP_GOING?
    ensures var g := RunFrame(v, f);
      && FrameOk(v, g) && g.key == f.key && FrameLeft(g) < FrameLeft(f) && g.len <= f.len / 2
      && (g.state.KEEP_GOING? || (g.state.FOUND? && f.key in v) || (g.state.NOT_FOUND? && f.key !in v))
  {
    Halve(v, f.first, f.len, f.key);
    var g := RunFrame(v, f);
    if g.state.NOT_FOUND? {
      EmptyWindow(v, g.first, f.key);
    }
  }

  lemma InitFrameOk(v: seq<int>, key: int)
    ensures FrameOk(v, InitFrame(v, key)) && FrameHit(v, InitFrame(v, key)) == (if key in v then 1 else 0)
  {
  }

  method SmBinarySearch(v: seq<int>, key: int) returns (found: bool)
    requires Sorted(v)
    ensures found <==> key in v
  {
    var f := InitFrame(v, key);
    while f.state == KEEP_GOING
      invariant FrameOk(v, f) && f.key == key
      invariant f.state.KEEP_GOING? || (f.state.FOUND? && key in v) || (f.state.NOT_FOUND? && key !in v)
      decreases FrameLeft(f)
    {
      RunFrameSteps(v, f);
      f := RunFrame(v, f);
    }
    return f.state == FOUND;
  }

  function OpenHits(v: seq<int>, f: seq<Frame>): nat {
    if f == [] then 0 else FrameHit(v, f[0]) + OpenHits(v, f[1..])
  }

  function OpenLeft(f: seq<Frame>): nat {
    if f == [] then 0 else FrameLeft(f[0]) + OpenLeft(f[1..])
  }

  lemma {:induction false} OpenUpdate(v: seq<int>, f: seq<Frame>, i: nat, g: Frame)
    requires i < |f|
    ensures OpenHits(v, f[i := g]) + FrameHit(v, f[i]) == OpenHits(v, f) + FrameHit(v, g)
    ensures OpenLeft(f[i := g]) + FrameLeft(f[i]) == OpenLeft(f) + FrameLeft(g)
  {
    if i == 0 {
      assert f[i := g][1..] == f[1..];
    } else {
      assert f[i := g][1..] == f[1..][i - 1 := g];
      OpenUpdate(v, f[1..], i - 1, g);
    }
  }

  lemma {:induction false} NothingOpen(v: seq<int>, f: seq<Frame>)
    requires forall i | 0 <= i < |f| :: !f[i].state.KEEP_GOING?
    ensures OpenHits(v, f) == 0 == OpenLeft(f)
  {
    if f == [] {
    } else {
      NothingOpen(v, f[1..]);
    }
  }

  /** Puts a frame at its place in the array of streams. */
  method SetFrame(v: seq<int>, f: array<Frame>, i: nat, g: Frame)
    requires i < f.Length
    modifies f
    ensures f[..] == old(f[..])[i := g]
    ensures OpenHits(v, f[..]) + FrameHit(v, old(f[i])) == OpenHits(v, old(f[..])) + FrameHit(v, g)
    ensures OpenLeft(f[..]) + FrameLeft(old(f[i])) == OpenLeft(old(f[..])) + FrameLeft(g)
  {
    OpenUpdate(v, f[..], i, g);
    f[i] := g;
  }

  ghost predicate FramesOk(v: seq<int>, f: seq<Frame>) {
    forall i | 0 <= i < |f| :: FrameOk(v, f[i])
  }

  /** All streams have a key; before that, those up to `i` are empty.  Over empty data no stream keeps going. */
  ghost predicate Filled(v: seq<int>, f: seq<Frame>, i: nat) {
    && i < |f|
    && (forall j | i < j < |f| :: f[j].state == (if |v| == 0 then NOT_FOUND else KEEP_GOING))
    && ((forall j | 0 <= j <= i :: f[j].state.EMPTY?)
        || (forall j | 0 <= j <= i :: f[j].state == (if |v| == 0 then NOT_FOUND else KEEP_GOING)))
  }

  function Previous(i: nat, last: nat): nat { if i == 0 then last else i - 1 }

  ghost predicate AllRunning(f: seq<Frame>) {
    forall j | 0 <= j < |f| :: f[j].state == KEEP_GOING
  }

  /** Runs the streams in turn from stream `i` until one ends, and gives that stream the next key. */
  method ReplaceOne(v: seq<int>, f: array<Frame>, i: nat, key: int) returns (found: bool, i': nat)
    requires Sorted(v) && |v| > 0 && i < f.Length && FramesOk(v, f[..]) && AllRunning(f[..])
    modifies f
    ensures i' < f.Length && FramesOk(v, f[..]) && AllRunning(f[..])
    ensures (if found then 1 else 0) + OpenHits(v, f[..]) == OpenHits(v, old(f[..])) + (if key in v then 1 else 0)
  {
    hide Window, OpenHits, OpenLeft, RunFrame;
    i' := i;
    var last := f.Length - 1;
    while true
      invariant i' < f.Length && FramesOk(v, f[..]) && AllRunning(f[..])
      invariant OpenHits(v, f[..]) == OpenHits(v, old(f[..]))
      decreases OpenLeft(f[..])
    {
      RunFrameSteps(v, f[i']);
      SetFrame(v, f, i', RunFrame(v, f[i']));
      if f[i'].state != KEEP_GOING {
        found := f[i'].state == FOUND;
        InitFrameOk(v, key);
        SetFrame(v, f, i', InitFrame(v, key));
        i' := Previous(i', last);
        return;
      }
      i' := Previous(i', last);
    }
  }

  method SmMultiLookup(v: seq<int>, lookups: seq<int>, streams: nat) returns (result: nat)
    requires Sorted(v) && streams >= 1
    ensures result == Hits(v, lookups)
  {
    hide Window, OpenHits, OpenLeft, RunFrame;
    var f := new Frame[streams](_ => Frame(0, 0, 0, 0, 0, EMPTY));
    var last: nat := streams - 1;
    var i := last;
    result := 0;
    NothingOpen(v, f[..]);
    assert lookups[0..] == lookups;
    for k := 0 to |lookups|
      invariant f.Length == streams && fresh(f) && FramesOk(v, f[..]) && Filled(v, f[..], i)
      invariant result + OpenHits(v, f[..]) + Hits(v, lookups[k..]) == Hits(v, lookups)
    {
      var key := lookups[k];
      HitsFrom(v, lookups, k);
      if f[i].state != KEEP_GOING {
        InitFrameOk(v, key);
        SetFrame(v, f, i, InitFrame(v, key));
        i := Previous(i, last);
      } else {
        var found;
        found, i := ReplaceOne(v, f, i, key);
        if found {
          result := result + 1;
        }
      }
    }
    result := FinishAll(v, f, result);
  }

  /** Runs all streams to their ends. */
  method FinishAll(v: seq<int>, f: array<Frame>, before: nat) returns (result: nat)
    requires Sorted(v) && FramesOk(v, f[..])
    modifies f
    ensures result == before + OpenHits(v, old(f[..]))
  {
    hide Window, OpenHits, OpenLeft, RunFrame;
    result := before;
    var streams := f.Length;
    var moreWork := true;
    while moreWork
      invariant FramesOk(v, f[..])
      invariant result + OpenHits(v, f[..]) == before + OpenHits(v, old(f[..]))
      invariant !moreWork ==> forall j | 0 <= j < streams :: f[j].state != KEEP_GOING
      decreases OpenLeft(f[..]), moreWork
    {
      moreWork := false;
      ghost var left := OpenLeft(f[..]);
      for j := 0 to streams
        invariant FramesOk(v, f[..])
        invariant result + OpenHits(v, f[..]) == before + OpenHits(v, old(f[..]))
        invariant moreWork ==> OpenLeft(f[..]) < left
        invariant !moreWork ==> OpenLeft(f[..]) == left && forall m | 0 <= m < j :: f[m].state != KEEP_GOING
      {
        if f[j].state == KEEP_GOING {
          moreWork := true;
          RunFrameSteps(v, f[j]);
          SetFrame(v, f, j, RunFrame(v, f[j]));
          if f[j].state == FOUND {
            result := result + 1;
          }
        }
      }
    }
    NothingOpen(v, f[..]);
  }
}
