/** Segmented stacks (`seff_mem_segmented.c`, `seff_coroutine_release`): a coroutine's stack is a
    doubly linked chain of segments.  A call that needs room moves to the next segment, putting a
    new one in between when the next is too small; the return moves back and keeps the segment.
  */
module SegmentedStacks {
  import opened Sequences

  type Byte = bv8

  /** Size of the four header fields, and of the header with its padding. */
  const FIELDS: nat := 32
  const HEADER: nat := FIELDS + 128

  /** A block from the allocator: `block` holds header, padding and payload from address `base` on. */
  class Segment {
    const base: nat
    const size: nat
    const block: array<Byte>
    var prev: Segment?
    var next: Segment?

    constructor (frameSize: nat, at: nat)
      ensures prev == null && next == null && size == frameSize && base == at
      ensures fresh(block) && block.Length == HEADER + size
    {
      block := new Byte[HEADER + frameSize];
      base, size := at, frameSize;
      prev, next := null, null;
    }

    function Payload(): nat { base + HEADER }
    function Top(): nat { Payload() + size }
  }

  // ----- chains as values -----

  /** Whether the segment after position `pos` can serve a call that needs `need` bytes. */
  predicate Fits(chain: seq<Segment>, pos: nat, need: nat) {
    pos + 1 < |chain| && chain[pos + 1].size >= need
  }

  /** The chain after a call at position `pos`; `s` is used when a new segment is needed. */
  function Grown(chain: seq<Segment>, pos: nat, need: nat, s: Segment): (r: seq<Segment>)
    requires pos < |chain|
    ensures pos + 1 < |r| && r[..pos + 1] == chain[..pos + 1]
  {
    if Fits(chain, pos, need) then chain else Inserted(chain, pos + 1, s)
  }

  // ----- the linked structure -----

  function Before(chain: seq<Segment>, i: nat): Segment?
    requires i < |chain|
  {
    if i == 0 then null else chain[i - 1]
  }

  function After(chain: seq<Segment>, i: nat): Segment?
    requires i < |chain|
  {
    if i == |chain| - 1 then null else chain[i + 1]
  }

  /** Segment `i` of the chain points at its neighbours. */
  ghost predicate Linked(chain: seq<Segment>, i: nat)
    reads chain
    requires i < |chain|
  {
    chain[i].prev == Before(chain, i) && chain[i].next == After(chain, i)
  }

  /** Every segment has its own block. */
  ghost predicate Blocks(chain: seq<Segment>) {
    && (forall i | 0 <= i < |chain| :: chain[i].block.Length == HEADER + chain[i].size)
    && (forall i, j | 0 <= i < j < |chain| :: chain[i].block != chain[j].block)
  }

  function Inserted(chain: seq<Segment>, k: nat, s: Segment): (r: seq<Segment>)
    requires k <= |chain|
    ensures |r| == |chain| + 1 && r[k] == s
    ensures forall i | 0 <= i < k :: r[i] == chain[i]
    ensures forall i | k < i < |r| :: r[i] == chain[i - 1]
  {
    chain[..k] + [s] + chain[k..]
  }

  lemma InsertedApart(chain: seq<Segment>, k: nat, s: Segment)
    requires k <= |chain| && Distinct(chain) && Blocks(chain) && s !in chain
    requires s.block.Length == HEADER + s.size && forall c | c in chain :: c.block != s.block
    ensures Distinct(Inserted(chain, k, s)) && Blocks(Inserted(chain, k, s))
  {
    hide Inserted;
  }

  /** The links after the insertion, from those of the old chain with `s` put between two neighbours. */
  lemma LinksInserted(c: seq<Segment>, r: seq<Segment>, k: nat, s: Segment)
    requires 0 < k <= |c| && r == Inserted(c, k, s)
    requires s.prev == c[k - 1] && s.next == After(c, k - 1)
    requires forall j | 0 <= j < |c| ::
      && c[j].prev == (if j == k then s else Before(c, j))
      && c[j].next == (if j == k - 1 then s else After(c, j))
    ensures forall i | 0 <= i < |r| :: Linked(r, i)
  {
    hide Inserted;
    forall i | 0 <= i < |r| ensures Linked(r, i) {
      if i != k {
        var j := if i < k then i else i - 1;
        assert r[i] == c[j];
      }
    }
  }

  class Stack {
    var frame: Segment
    ghost var chain: seq<Segment>
    ghost var pos: nat

    ghost predicate Valid()
      reads this, chain
    {
      && pos < |chain| && frame == chain[pos] && Distinct(chain) && Blocks(chain)
      && forall i | 0 <= i < |chain| :: Linked(chain, i)
    }

    /** The stack of a new coroutine is one segment. */
    constructor (frameSize: nat, at: nat)
      ensures Valid() && fresh(frame) && fresh(frame.block)
      ensures chain == [frame] && pos == 0 && frame.size == frameSize && frame.base == at
    {
      var s := new Segment(frameSize, at);
      frame := s;
      chain, pos := [s], 0;
    }

    /** LINK(first, second) */
    static method Link(first: Segment, second: Segment)
      modifies first`next, second`prev
      ensures first.next == second && second.prev == first
    {
      first.next := second;
      second.prev := first;
    }

    /** Puts the new segment `s` behind the current one. */
    method Insert(s: Segment)
      requires Valid() && s !in chain && s.prev == null && s.next == null
      requires s.block.Length == HEADER + s.size && forall c | c in chain :: c.block != s.block
      modifies this`chain, s, chain
      ensures frame == old(frame) && pos == old(pos) && pos < |old(chain)|
      ensures chain == Inserted(old(chain), pos + 1, s)
      ensures Valid()
    {
      ghost var c, k := chain, pos + 1;
      InsertedApart(c, k, s);
      assert Linked(c, pos);
      var current := frame;
      var after := current.next;
      assert forall i | 0 <= i < |c| && i != pos :: c[i] != current;
      assert forall i | 0 <= i < |c| && i != k :: c[i] != after;
      forall i | 0 <= i < |c| ensures c[i].prev == Before(c, i) && c[i].next == After(c, i) {
        assert Linked(c, i);
      }
      assert after == After(c, pos) && (after != null ==> k < |c| && after == c[k]);
      hide Inserted, Distinct, Blocks, Linked, Before, After;
      if after != null {
        Link(s, after);
      }
      Link(current, s);
      chain := Inserted(c, k, s);
      LinksInserted(c, chain, k, s);
    }

    /** The three cases of seff_mem_allocate_frame for the chain. */
    method NextSegment(need: nat, minimum: nat, at: nat) returns (s: Segment)
      requires Valid()
      modifies this, chain
      ensures Valid() && frame == s && pos == old(pos) + 1 && s.size >= need
      ensures chain == Grown(old(chain), old(pos), need, s) && chain[pos] == s
      ensures !Fits(old(chain), old(pos), need) ==>
        fresh(s) && fresh(s.block) && s.base == at && s.size == (if need < minimum then minimum else need)
    {
      var newSize := need;
      if newSize < minimum { newSize := minimum; }
      assert Linked(chain, pos);
      assert frame.next == null <==> pos == |chain| - 1;
      assert frame.next != null ==> frame.next == chain[pos + 1];
      hide Distinct, Blocks, Linked, Inserted;
      if frame.next == null {
        s := new Segment(newSize, at);
        Insert(s);
      } else if frame.next.size < need {
        s := new Segment(newSize, at);
        Insert(s);
      } else {
        s := frame.next;
      }
      frame := s;
      pos := pos + 1;
    }

    ghost function Memory(): set<object>
      reads this
    {
      set s | s in chain :: s.block
    }

    /** seff_mem_allocate_frame followed by the new limit of __morestack: `sp` is the new stack
        pointer, `limit` the lowest address the callee may use. */
    method AllocateFrame(frameSize: nat, params: seq<Byte>, minimum: nat, at: nat) returns (sp: nat, limit: int)
      requires Valid()
      modifies this, chain, Memory()
      ensures Valid() && pos == old(pos) + 1
      ensures chain == Grown(old(chain), old(pos), frameSize + |params|, frame)
      ensures !Fits(old(chain), old(pos), frameSize + |params|) ==>
        fresh(frame) && fresh(frame.block) && frame !in old(chain) && frame.base == at
      ensures frame.size >= frameSize + |params|
      ensures sp % 16 == 0 && frame.Top() - |params| - 15 <= sp <= frame.Top() - |params|
      ensures sp - limit == frame.size - |params| >= frameSize
      ensures frame.Payload() - 15 <= limit <= frame.Payload()
      ensures FIELDS <= sp - frame.base <= sp - frame.base + |params| <= frame.block.Length
      ensures frame.block[sp - frame.base..sp - frame.base + |params|] == params
      ensures forall c | c in old(chain) && c != frame :: c.block[..] == old(c.block[..])
      ensures var b, to := frame.block, sp - frame.base;
        !fresh(b) ==> b[..] == old(b[..to]) + params + old(b[to + |params|..])
    {
      var s := NextSegment(frameSize + |params|, minimum, at);
      hide Distinct, Grown, Fits, Linked;
      sp := AlignDown(s.base + HEADER + s.size - |params|);
      Copy(s.block, sp - s.base, params);
      limit := sp - (s.size - |params|);
    }

    /** The nearest multiple of 16 at or below `top`. */
    static method AlignDown(top: nat) returns (sp: nat)
      ensures sp % 16 == 0 && top - 15 <= sp <= top
    {
      sp := top;
      while sp % 16 != 0
        invariant top - top % 16 <= sp <= top
      {
        sp := sp - 1;
      }
    }

    /** memcpy */
    static method Copy(block: array<Byte>, to: nat, bytes: seq<Byte>)
      requires to + |bytes| <= block.Length
      modifies block
      ensures block[..] == old(block[..to]) + bytes + old(block[to + |bytes|..])
    {
      for k := 0 to |bytes|
        invariant block[..] == old(block[..to]) + bytes[..k] + old(block[to + k..])
      {
        block[to + k] := bytes[k];
      }
    }

    /** Back to the segment of the caller; the result is its stack limit. */
    method ReleaseFrame() returns (limit: nat)
      requires Valid() && pos > 0
      modifies this
      ensures Valid() && chain == old(chain) && pos == old(pos) - 1
      ensures limit == frame.Payload()
    {
      assert Linked(chain, pos);
      assert Linked(chain, pos - 1);
      frame := frame.prev;
      pos := pos - 1;
      limit := frame.base + HEADER;
    }

    ghost function Now(): Walk
      reads this
    {
      Walk(chain, pos)
    }

    /** A whole run of calls and returns is a run of the chain walk, so what is proved of walks below
        holds of the linked structure.  Balanced moves bring the very same segment back. */
    method Execute(moves: seq<Move>, minimum: nat) returns (ghost ops: seq<Op>)
      requires Valid() && NeverBelow(moves, pos)
      modifies this, chain, Memory()
      ensures Valid() && |ops| == |moves| && forall k | 0 <= k < |ops| :: ops[k].Call? <==> moves[k].CallFrame?
      ensures LegalRun(old(Now()), ops) && Now() == Run(old(Now()), ops)
      ensures forall c | c in chain && c !in old(chain) :: fresh(c) && fresh(c.block)
      decreases |moves|
    {
      if moves == [] {
        return [];
      }
      ghost var before, op := Now(), Return;
      assert Distinct(chain);
      hide Distinct, Blocks, Linked, Grown, Fits, Run, LegalRun;
      match moves[0] {
        case CallFrame(frameSize, params, at) =>
          op := CallStep(frameSize, params, minimum, at);
        case ReturnFrame =>
          var limit := ReleaseFrame();
      }
      hide Legal, Step;
      var rest := Execute(moves[1..], minimum);
      ops := [op] + rest;
      OneStep(before, op, rest);
    }

    method CallStep(frameSize: nat, params: seq<Byte>, minimum: nat, at: nat) returns (ghost op: Op)
      requires Valid()
      modifies this, chain, Memory()
      ensures Valid() && op.Call? && Legal(old(Now()), op) && Now() == Step(old(Now()), op)
      ensures forall c | c in chain && c !in old(chain) :: fresh(c) && fresh(c.block)
    {
      var sp, limit := AllocateFrame(frameSize, params, minimum, at);
      op := Call(frameSize + |params|, frame);
      hide Distinct, Blocks, Linked;
    }

    /** Gives every segment back, from the first of the chain to the last, wherever the stack is. */
    method ReleaseAll() returns (freed: seq<Segment>)
      requires Valid()
      ensures freed == chain
    {
      var segment: Segment? := frame;
      ghost var i := pos;
      while segment.prev != null
        invariant 0 <= i < |chain| && segment == chain[i]
        decreases i
      {
        assert Linked(chain, i);
        segment := segment.prev;
        i := i - 1;
      }
      assert Linked(chain, i);
      freed := [];
      while segment != null
        invariant 0 <= i <= |chain| && freed == chain[..i]
        invariant segment == if i < |chain| then chain[i] else null
        decreases |chain| - i
      {
        assert Linked(chain, i);
        var gone := segment;
        segment := segment.next;
        freed := freed + [gone];
        i := i + 1;
      }
    }
  }

  // ----- runs of calls and returns -----

  datatype Move = CallFrame(frameSize: nat, params: seq<Byte>, at: nat) | ReturnFrame

  /** Every return has a frame to return to. */
  predicate NeverBelow(moves: seq<Move>, depth: nat) {
    moves == [] ||
      match moves[0]
      case CallFrame(_, _, _) => NeverBelow(moves[1..], depth + 1)
      case ReturnFrame => depth > 0 && NeverBelow(moves[1..], depth - 1)
  }

  datatype Walk = Walk(chain: seq<Segment>, pos: nat)

  /** A call brings the segment it uses if none is there for it. */
  datatype Op = Call(need: nat, s: Segment) | Return

  ghost predicate Legal(w: Walk, op: Op) {
    && w.pos < |w.chain|
    && match op
       case Call(need, s) => Fits(w.chain, w.pos, need) || (s !in w.chain && s.size >= need)
       case Return => w.pos > 0
  }

  function Step(w: Walk, op: Op): Walk {
    match op
    case Call(need, s) => if w.pos < |w.chain| then Walk(Grown(w.chain, w.pos, need, s), w.pos + 1) else w
    case Return => if w.pos > 0 then w.(pos := w.pos - 1) else w
  }

  function Run(w: Walk, ops: seq<Op>): Walk
    decreases |ops|
  {
    if ops == [] then w else Run(Step(w, ops[0]), ops[1..])
  }

  ghost predicate LegalRun(w: Walk, ops: seq<Op>)
    decreases |ops|
  {
    w.pos < |w.chain| && Distinct(w.chain)
    && (ops == [] || (Legal(w, ops[0]) && LegalRun(Step(w, ops[0]), ops[1..])))
  }

  lemma OneStep(w: Walk, op: Op, rest: seq<Op>)
    requires Legal(w, op) && Distinct(w.chain) && LegalRun(Step(w, op), rest)
    ensures LegalRun(w, [op] + rest) && Run(w, [op] + rest) == Run(Step(w, op), rest)
  {
    assert ([op] + rest)[1..] == rest;
  }

  lemma {:induction false} RunEnds(w: Walk, ops: seq<Op>)
    requires LegalRun(w, ops)
    ensures var t := Run(w, ops); t.pos < |t.chain| && Distinct(t.chain)
    decreases |ops|
  {
    hide Distinct;
    if ops == [] {
    } else {
      RunEnds(Step(w, ops[0]), ops[1..]);
    }
  }

  /** Starting `depth` calls deep, the run never returns further than its start. */
  predicate StaysInside(ops: seq<Op>, depth: nat) {
    ops == [] ||
      match ops[0]
      case Call(_, _) => StaysInside(ops[1..], depth + 1)
      case Return => depth > 0 && StaysInside(ops[1..], depth - 1)
  }

  function Net(ops: seq<Op>): int {
    if ops == [] then 0 else (if ops[0].Call? then 1 else -1) + Net(ops[1..])
  }

  /** A run that never returns further than where it began leaves the chain up to there alone. */
  lemma {:induction false} RunInside(w: Walk, ops: seq<Op>, start: nat, depth: nat)
    requires LegalRun(w, ops) && StaysInside(ops, depth) && w.pos == start + depth
    ensures var t := Run(w, ops);
      && t.pos == w.pos + Net(ops) && start < |t.chain|
      && t.chain[..start + 1] == w.chain[..start + 1]
    decreases |ops|
  {
    hide Distinct;
    if ops == [] {
    } else {
      var t := Step(w, ops[0]);
      assert t.chain[..start + 1] == w.chain[..start + 1] by {
        if ops[0].Call? {
          assert t.chain[..w.pos + 1] == w.chain[..w.pos + 1];
        }
      }
      RunInside(t, ops[1..], start, if ops[0].Call? then depth + 1 else depth - 1);
    }
  }

  /** Balanced calls and returns come back to the very segment they started from. */
  lemma BalancedRun(w: Walk, ops: seq<Op>)
    requires LegalRun(w, ops) && StaysInside(ops, 0) && Net(ops) == 0
    ensures var t := Run(w, ops);
      && t.pos == w.pos && w.pos < |t.chain| && t.chain[t.pos] == w.chain[w.pos]
      && t.chain[..w.pos + 1] == w.chain[..w.pos + 1]
  {
    RunInside(w, ops, w.pos, 0);
    var t := Run(w, ops);
    assert t.chain[..w.pos + 1][w.pos] == w.chain[..w.pos + 1][w.pos];
  }

  ghost predicate Precedes(chain: seq<Segment>, x: Segment, y: Segment) {
    exists i, j :: 0 <= i < j < |chain| && chain[i] == x && chain[j] == y
  }

  lemma StepOrder(w: Walk, op: Op, x: Segment, y: Segment)
    requires Legal(w, op) && Precedes(w.chain, x, y)
    ensures Precedes(Step(w, op).chain, x, y)
  {
    var i, j :| 0 <= i < j < |w.chain| && w.chain[i] == x && w.chain[j] == y;
    var t := Step(w, op);
    if t.chain != w.chain {
      var i', j' := if i > w.pos then i + 1 else i, if j > w.pos then j + 1 else j;
      assert t.chain[i'] == x && t.chain[j'] == y;
    }
  }

  /** No run loses a segment or changes the order of two. */
  lemma {:induction false} RunOrder(w: Walk, ops: seq<Op>, x: Segment, y: Segment)
    requires LegalRun(w, ops) && Precedes(w.chain, x, y)
    ensures Precedes(Run(w, ops).chain, x, y)
    decreases |ops|
  {
    hide Precedes, Distinct;
    if ops == [] {
    } else {
      StepOrder(w, ops[0], x, y);
      RunOrder(Step(w, ops[0]), ops[1..], x, y);
    }
  }

  /** Segment `x` is followed by one of at least `size` bytes. */
  ghost predicate NextHas(chain: seq<Segment>, x: Segment, size: int) {
    exists i :: 0 <= i && i + 1 < |chain| && chain[i] == x && chain[i + 1].size >= size
  }

  lemma StepGrows(w: Walk, op: Op, x: Segment, size: int)
    requires Legal(w, op) && Distinct(w.chain) && NextHas(w.chain, x, size)
    ensures NextHas(Step(w, op).chain, x, size)
  {
    var i :| 0 <= i && i + 1 < |w.chain| && w.chain[i] == x && w.chain[i + 1].size >= size;
    var t := Step(w, op);
    if t.chain != w.chain {
      var i' := if i > w.pos then i + 1 else i;
      assert t.chain[i'] == x;
      assert t.chain[i' + 1] == if i == w.pos then op.s else w.chain[i + 1];
    }
  }

  /** In no run does the segment behind a given one become smaller. */
  lemma {:induction false} RunGrows(w: Walk, ops: seq<Op>, x: Segment, size: int)
    requires LegalRun(w, ops) && NextHas(w.chain, x, size)
    ensures NextHas(Run(w, ops).chain, x, size)
    decreases |ops|
  {
    hide NextHas, Distinct;
    if ops == [] {
    } else {
      StepGrows(w, ops[0], x, size);
      RunGrows(Step(w, ops[0]), ops[1..], x, size);
    }
  }

  /** Once a call of `need` bytes has been made from a segment, a later call from it that needs no
      more allocates nothing, whatever happened in between. */
  lemma CallsAreReused(w: Walk, need: nat, s: Segment, between: seq<Op>, later: nat)
    requires LegalRun(w, [Call(need, s)] + between)
    requires later <= need
    requires var t := Run(w, [Call(need, s)] + between); t.pos < |t.chain| && t.chain[t.pos] == w.chain[w.pos]
    ensures var t := Run(w, [Call(need, s)] + between); Fits(t.chain, t.pos, later)
  {
    var ops := [Call(need, s)] + between;
    var first := Step(w, ops[0]);
    assert ops[1..] == between;
    assert first.chain[w.pos] == w.chain[w.pos] by {
      assert first.chain[..w.pos + 1][w.pos] == w.chain[..w.pos + 1][w.pos];
    }
    assert NextHas(first.chain, w.chain[w.pos], need);
    RunGrows(first, between, w.chain[w.pos], need);
    RunEnds(first, between);
    var t := Run(w, ops);
    var i :| 0 <= i && i + 1 < |t.chain| && t.chain[i] == w.chain[w.pos] && t.chain[i + 1].size >= need;
    assert i == t.pos;
  }
}
