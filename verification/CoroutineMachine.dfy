/** The pointer machine of `seff.S` and `seff.c`: coroutine objects whose fields are patched in
    place, a thread-local current coroutine and one register file.  Every method is proved to
    perform one step of the list semantics in module ShallowHandlers.

    On entry to `Resume`, `Yield` and `Exit` the field `cpu` is the context in which the call
    returns: `cpu.ip` is the return address and `cpu.rsp` the stack pointer after popping it.
  */
module CoroutineMachine {
  import opened ShallowHandlers
  import opened Options

  datatype RunState = FINISHED | PAUSED | RUNNING

  class Coroutine {
    var saved: Context             // resume_point without current_coroutine
    var current: Coroutine?        // resume_point.current_coroutine
    var state: RunState
    var parent: Coroutine?
    var handled: EffectSet

    /** A coroutine's memory before `seff_coroutine_init_sized`: unspecified. */
    constructor (garbage: Context, handled: EffectSet) {
      saved, current, state, parent := garbage, null, FINISHED, null;
      this.handled := handled;
    }
  }

  type Chain = seq<Segment<Coroutine>>

  /** The fields of one coroutine object and of all known ones, as values. */
  datatype Fields = Fields(saved: Context, current: Coroutine?, state: RunState,
                           parent: Coroutine?, handled: EffectSet)

  type Memory = map<Coroutine, Fields>

  ghost function FieldsOf(k: Coroutine): Fields
    reads k
  {
    Fields(k.saved, k.current, k.state, k.parent, k.handled)
  }

  ghost function Snapshot(known: set<Coroutine>): Memory
    reads known
  {
    map k | k in known :: FieldsOf(k)
  }

  // ----- which lists the fields encode -----

  /** Each coroutine but the last points at its resumer and keeps its resumer's context. */
  ghost predicate Linked(chain: Chain, m: Memory) {
    && (forall i | 0 <= i < |chain| :: chain[i].co in m && m[chain[i].co].state == PAUSED)
    && (forall i | 0 <= i < |chain| - 1 :: m[chain[i].co].handled == chain[i].handled)
    && (forall i | 0 <= i < |chain| - 1 :: m[chain[i].co].parent == chain[i + 1].co)
    && (forall i | 0 <= i < |chain| - 1 :: m[chain[i].co].saved == chain[i + 1].ctx)
  }

  /** The last active coroutine was resumed by the main computation.  All handler sets are in
      place; that of a captured root is only chosen when it is resumed. */
  ghost predicate ActiveIn(chain: Chain, main: Context, m: Memory) {
    && Linked(chain, m)
    && (chain != [] ==>
          var last := chain[|chain| - 1];
          m[last.co].parent == null && m[last.co].saved == main && m[last.co].handled == last.handled)
  }

  /** The root of a captured chain keeps the context and the identity of the chain's top. */
  ghost predicate CapturedIn(chain: Chain, m: Memory) {
    && chain != []
    && Linked(chain, m)
    && m[chain[|chain| - 1].co].saved == chain[0].ctx
    && m[chain[|chain| - 1].co].current == chain[0].co
  }

  function Top(chain: Chain): (top: Coroutine?) {
    if chain == [] then null else chain[0].co
  }

  /** The coroutine objects hold the lists of `s`. */
  ghost predicate Layout(s: State<Coroutine>, m: Memory) {
    && ActiveIn(s.active, s.main, m)
    && (forall k | k in s.captured :: CapturedIn(s.captured[k], m))
    && (forall k | k in s.finished :: k in m && m[k].state == FINISHED)
  }

  // ----- what patching one coroutine leaves and what it builds -----

  lemma CapturedKept(captured: map<Coroutine, Chain>, m: Memory, k: Coroutine, f: Fields)
    requires forall l | l in captured :: CapturedIn(captured[l], m) && Avoids(captured[l], k)
    ensures forall l | l in captured :: CapturedIn(captured[l], m[k := f])
  {
  }

  lemma ResumeLinks(chain: Chain, active: Chain, main: Context, m: Memory, k: Coroutine, f: Fields)
    requires RootedAt(chain, k) && CapturedIn(chain, m)
    requires Avoids(active, k) && ActiveIn(active, main, m)
    requires f.parent == Top(active) && f.saved == ContextBelow(active, 0, main) && f.state == PAUSED
    ensures ActiveIn(Rehandled(chain, f.handled) + active, main, m[k := f])
  {
    var up := Rehandled(chain, f.handled) + active;
    var root := |chain| - 1;
    assert forall i | 0 <= i < root :: up[i] == chain[i] && up[i].co != k;
    assert up[root] == chain[root].(handled := f.handled);
    assert forall i | root < i < |up| :: up[i] == active[i - |chain|] && up[i].co != k;
  }

  /** Resuming `k` patches the record of `k` only, with the context and identity of its resumer,
      and finds the captured top there. */
  lemma ResumeLayout(s: State<Coroutine>, m: Memory, k: Coroutine, arg: Word, f: Fields)
    requires WellFormed(s) && Layout(s, m) && k in s.captured
    requires f.parent == Top(s.active) && f.saved == Live(s)
    requires k in m ==> f.state == m[k].state
    ensures k in m && m[k].state == PAUSED
    ensures var t := Step(s, Op.Resume(k, arg, f.handled));
            m[k].saved == Live(t) && m[k].current == Top(t.active) && Layout(t, m[k := f])
  {
    assert s.captured[k][|s.captured[k]| - 1].co == k;
    CapturedIsNotActive(s, k);
    ResumeLinks(s.captured[k], s.active, s.main, m, k, f);
    OthersAvoid(s, k);
    CapturedKept(s.captured - {k}, m, k, f);
  }

  /** Cutting at `depth` leaves an active list whose top is what the cut root was resumed from,
      whatever the root's record becomes. */
  lemma CutLayout(s: State<Coroutine>, m: Memory, depth: nat, f: Fields)
    requires WellFormed(s) && Layout(s, m) && depth < |s.active|
    ensures var h, rest := s.active[depth].co, s.active[depth + 1..];
            && h in m && m[h].state == PAUSED
            && m[h].parent == Top(rest) && m[h].saved == ContextBelow(rest, 0, s.main)
            && ActiveIn(rest, s.main, m[h := f])
            && h !in s.captured && h !in s.finished
            && forall l | l in s.captured :: CapturedIn(s.captured[l], m[h := f])
  {
    var h := s.active[depth].co;
    ActiveIsNotCaptured(s, depth);
    CapturedKept(s.captured, m, h, f);
    if h in s.captured {
      CapturedIsNotActive(s, h);
      assert false;
    }
  }

  lemma YieldLayout(s: State<Coroutine>, m: Memory, op: Op<Coroutine>, f: Fields)
    requires WellFormed(s) && Layout(s, m) && op.Yield? && Enabled(s, op)
    requires f.saved == Live(s) && f.current == Top(s.active) && f.state == PAUSED
    ensures Layout(Step(s, op), m[s.active[op.depth].co := f])
  {
    CutLayout(s, m, op.depth, f);
    CaptureLinks(s.active, s.main, m, op.depth, f);
  }

  lemma CaptureLinks(active: Chain, main: Context, m: Memory, depth: nat, f: Fields)
    requires depth < |active| && EachOnce(active) && ActiveIn(active, main, m)
    requires f.saved == active[0].ctx && f.current == active[0].co && f.state == PAUSED
    ensures CapturedIn(active[..depth + 1], m[active[depth].co := f])
  {
  }

  lemma ExitLayout(s: State<Coroutine>, m: Memory, op: Op<Coroutine>, f: Fields)
    requires WellFormed(s) && Layout(s, m) && op.Exit? && Enabled(s, op) && f.state == FINISHED
    ensures Layout(Step(s, op), m[s.active[op.depth].co := f])
  {
    CutLayout(s, m, op.depth, f);
  }

  /** A coroutine on no list may be initialised, whether or not its memory was known. */
  lemma InitLayout(s: State<Coroutine>, m: Memory, op: Op<Coroutine>, f: Fields)
    requires WellFormed(s) && Layout(s, m) && op.Init? && Enabled(s, op)
    requires f.saved == StartContext(op.self, op.fn, op.fnArg, op.stackEnd, op.frameSize)
    requires f.current == op.k && f.state == PAUSED
    ensures Layout(Step(s, op), m[op.k := f])
  {
    hide StartContext, Linked, CapturedIn, ActiveIn;
    var k := op.k;
    CapturedKept(s.captured - {k}, m, k, f);
    ActiveKept(s.active, s.main, m, k, f);
    var t := Step(s, op);
    OneLinked(t.captured[k], m, k, f);
    forall l | l in t.captured ensures CapturedIn(t.captured[l], m[k := f]) {
      assert l != k ==> l in s.captured - {k} && (s.captured - {k})[l] == t.captured[l];
    }
  }

  lemma ActiveKept(active: Chain, main: Context, m: Memory, k: Coroutine, f: Fields)
    requires ActiveIn(active, main, m) && Avoids(active, k)
    ensures ActiveIn(active, main, m[k := f])
  {
  }

  /** A coroutine alone: its resume point holds its own context. */
  lemma OneLinked(chain: Chain, m: Memory, k: Coroutine, f: Fields)
    requires |chain| == 1 && chain[0].co == k && f.saved == chain[0].ctx && f.current == k
    requires f.state == PAUSED
    ensures CapturedIn(chain, m[k := f])
  {
  }

  lemma ListedIsKnown(s: State<Coroutine>, m: Memory)
    requires WellFormed(s) && Layout(s, m)
    ensures forall k | k in s.captured :: k in m
    ensures forall i | 0 <= i < |s.active| :: s.active[i].co in m
  {
    forall k | k in s.captured ensures k in m {
      assert s.captured[k][|s.captured[k]| - 1].co == k;
    }
  }

  lemma ComputeLayout(s: State<Coroutine>, m: Memory, ctx: Context)
    requires Layout(s, m)
    ensures Layout(WithLive(s, ctx), m)
  {
  }

  /** What a default handler makes of a payload. */
  type DefaultHandler = Word -> Word

  /** How performing or throwing an effect ends: a coroutine handles it, a default handler answers it, the
      process ends with an exit code, or a null handler is called. */
  datatype Outcome = Caught(handler: Coroutine) | Default(result: Word) | Ended(code: int) | Crash

  class Machine {
    var cpu: Context
    var rax: Word
    var rdx: Word
    var rdi: Word
    var objects: map<Word, Coroutine>   // the coroutine object at an address
    var cur: Coroutine?           // _seff_current_coroutine
    var systemStack: Word         // _seff_system_stack
    var defaults: map<EffectId, DefaultHandler>   // the default handlers that are not null

    ghost var model: State<Coroutine>
    ghost var known: set<Coroutine>

    ghost predicate Valid()
      reads this, known
    {
      && WellFormed(model)
      && Layout(model, Snapshot(known))
      && cpu == Live(model)
      && cur == Top(model.active)
      && (model.active != [] ==> systemStack == model.main.rsp)
      && match model.delivered
         case Nothing => true
         case Argument(arg) => rax == arg
         case Request(effect, payload) => rax == effect && rdx == payload
    }

    constructor (start: Context)
      ensures Valid()
      ensures model == State([], start, map[], {}, Nothing) && known == {} && defaults == map[]
    {
      cpu, rax, rdx, rdi, cur, systemStack := start, 0, 0, 0, null, 0;
      defaults, objects := map[], map[];
      model, known := State([], start, map[], {}, Nothing), {};
    }

    /** The program computes: it may leave anything in the registers. */
    method Compute(ctx: Context)
      requires Valid()
      modifies this`cpu, this`model
      ensures Valid() && model == Step(old(model), Op.Compute(ctx))
    {
      hide WellFormed, Layout;
      ComputeLayout(model, Snapshot(known), ctx);
      StepKeepsWellFormed(model, Op.Compute(ctx));
      cpu := ctx;
      model := Step(model, Op.Compute(ctx));
    }

    /** The assignments of seff_coroutine_init_sized, on memory the caller provides. */
    static method PatchInit(k: Coroutine, self: Word, fn: Word, arg: Word, stackEnd: nat, frameSize: nat)
      modifies k`saved, k`current, k`state
      ensures k.saved == StartContext(self, fn, arg, stackEnd, frameSize)
      ensures k.current == k && k.state == PAUSED
    {
      var rsp := stackEnd;
      var stackTop := rsp - frameSize - PRELUDE_OVERHEAD;
      k.saved := Context(0xcacabbbb, 0xcaca1212, self, arg, fn, 0, rsp, COROUTINE_PRELUDE, stackTop);
      k.current := k;
      k.state := PAUSED;
      var pad := rsp % 16;
      k.saved := k.saved.(rsp := rsp - pad);
    }

    /** seff_coroutine_init_sized */
    method Init(k: Coroutine, self: Word, fn: Word, arg: Word, stackEnd: nat, frameSize: nat)
      requires Valid() && Enabled(model, Op.Init(k, self, fn, arg, stackEnd, frameSize))
      modifies this`model, this`known, this`objects, k`saved, k`current, k`state
      ensures Valid() && known == old(known) + {k}
      ensures objects == old(objects)[self := k]
      ensures model == Step(old(model), Op.Init(k, self, fn, arg, stackEnd, frameSize))
    {
      hide WellFormed, Layout;
      ghost var op := Op.Init(k, self, fn, arg, stackEnd, frameSize);
      PatchInit(k, self, fn, arg, stackEnd, frameSize);
      InitLayout(model, old(Snapshot(known)), op, FieldsOf(k));
      StepKeepsWellFormed(model, op);
      model := Step(model, op);
      known := known + {k};
      objects := objects[self := k];
      assert Snapshot(known) == old(Snapshot(known))[k := FieldsOf(k)];
    }

    method SwapRegisters(k: Coroutine)
      modifies this`cpu, k`saved
      ensures cpu == old(cpu).(rbx := old(k.saved.rbx), r12 := old(k.saved.r12), r13 := old(k.saved.r13),
                               r14 := old(k.saved.r14), r15 := old(k.saved.r15))
      ensures k.saved == old(k.saved).(rbx := old(cpu.rbx), r12 := old(cpu.r12), r13 := old(cpu.r13),
                                       r14 := old(cpu.r14), r15 := old(cpu.r15))
    {
      var rax, rcx, r9, r10, r11 := k.saved.rbx, k.saved.r12, k.saved.r13, k.saved.r14, k.saved.r15;
      k.saved := k.saved.(rbx := cpu.rbx, r12 := cpu.r12, r13 := cpu.r13, r14 := cpu.r14, r15 := cpu.r15);
      cpu := cpu.(rbx := rax, r12 := rcx, r13 := r9, r14 := r10, r15 := r11);
    }

    method SwapStack(k: Coroutine)
      modifies this`cpu, k`saved
      ensures cpu == old(cpu).(rbp := old(k.saved.rbp), rsp := old(k.saved.rsp))
      ensures k.saved == old(k.saved).(rbp := old(cpu.rbp), rsp := old(cpu.rsp))
    {
      var rax, rcx := k.saved.rbp, k.saved.rsp;
      k.saved := k.saved.(rbp := cpu.rbp, rsp := cpu.rsp);
      cpu := cpu.(rbp := rax, rsp := rcx);
    }

    /** The instructions of seff_resume_unwrapped. */
    method PatchResume(k: Coroutine, arg: Word, handled: EffectSet)
      modifies this`cpu, this`cur, this`systemStack, this`rax, k`saved, k`parent, k`handled
      ensures cpu == old(k.saved) && k.saved == old(cpu)
      ensures cur == old(k.current) && k.parent == old(cur)
      ensures k.handled == handled && rax == arg
      ensures systemStack == if old(cur) == null then old(cpu.rsp) else old(systemStack)
    {
      k.handled := handled;
      SwapRegisters(k);
      var top, old_current := cpu.stackTop, cur;
      cpu := cpu.(stackTop := k.saved.stackTop);
      cur := k.current;
      k.saved := k.saved.(stackTop := top);
      k.parent := old_current;
      var ret := cpu.ip;
      cpu := cpu.(ip := k.saved.ip);
      k.saved := k.saved.(ip := ret);
      if old_current == null {
        systemStack := cpu.rsp;
      }
      SwapStack(k);
      rax := arg;
    }

    /** seff_resume_unwrapped */
    method Resume(k: Coroutine, arg: Word, handled: EffectSet)
      requires Valid() && Enabled(model, Op.Resume(k, arg, handled))
      modifies this, k
      ensures Valid() && known == old(known) && defaults == old(defaults) && objects == old(objects)
      ensures k.parent == old(cur) && k.handled == handled
      ensures model == Step(old(model), Op.Resume(k, arg, handled))
    {
      hide WellFormed, Layout;
      ghost var op := Op.Resume(k, arg, handled);
      PatchResume(k, arg, handled);
      ResumeLayout(model, old(Snapshot(known)), k, arg, FieldsOf(k));
      StepKeepsWellFormed(model, op);
      model := Step(model, op);
      assert Snapshot(known) == old(Snapshot(known))[k := FieldsOf(k)];
    }

    /** The instructions of seff_yield. */
    method PatchYield(self: Coroutine, effect: EffectId, payload: Word)
      modifies this`cpu, this`cur, this`rax, this`rdx, self`saved, self`current
      ensures cpu == old(self.saved) && self.saved == old(cpu)
      ensures cur == old(self.parent) && self.current == old(cur)
      ensures rax == effect && rdx == payload
    {
      SwapRegisters(self);
      var top, old_current := cpu.stackTop, cur;
      cpu := cpu.(stackTop := self.saved.stackTop);
      cur := self.parent;
      self.saved := self.saved.(stackTop := top);
      self.current := old_current;
      var ret := cpu.ip;
      cpu := cpu.(ip := self.saved.ip);
      self.saved := self.saved.(ip := ret);
      SwapStack(self);
      rax, rdx := effect, payload;
    }

    /** seff_yield: `self` may be any active coroutine, not only the running one. */
    method Yield(self: Coroutine, effect: EffectId, payload: Word, ghost depth: nat)
      requires Valid() && Enabled(model, Op.Yield(depth, effect, payload))
      requires model.active[depth].co == self
      modifies this, self
      ensures Valid() && known == old(known) && defaults == old(defaults) && objects == old(objects)
      ensures model == Step(old(model), Op.Yield(depth, effect, payload))
    {
      hide WellFormed, Layout;
      ghost var op := Op.Yield(depth, effect, payload);
      PatchYield(self, effect, payload);
      CutLayout(model, old(Snapshot(known)), depth, FieldsOf(self));
      YieldLayout(model, old(Snapshot(known)), op, FieldsOf(self));
      StepKeepsWellFormed(model, op);
      model := Step(model, op);
      assert Snapshot(known) == old(Snapshot(known))[self := FieldsOf(self)];
    }

    /** The instructions of seff_exit, with the clean-up of debug builds. */
    method PatchExit(k: Coroutine, effect: EffectId, payload: Word)
      modifies this`cpu, this`cur, this`rax, this`rdx, k`saved, k`state
      ensures cpu == old(k.saved) && cur == old(k.parent) && k.state == FINISHED
      ensures rax == effect && rdx == payload
    {
      k.state := FINISHED;
      SwapRegisters(k);
      cpu := cpu.(stackTop := k.saved.stackTop);
      cur := k.parent;
      cpu := cpu.(ip := k.saved.ip);
      cpu := cpu.(rbp := k.saved.rbp, rsp := k.saved.rsp);
      k.saved := k.saved.(ip := 0, rbp := 0, rsp := 0);
      rax, rdx := effect, payload;
    }

    /** seff_exit: leaves through `k` without a way back. */
    method Exit(k: Coroutine, effect: EffectId, payload: Word, ghost depth: nat)
      requires Valid() && Enabled(model, Op.Exit(depth, effect, payload))
      requires model.active[depth].co == k
      modifies this, k
      ensures Valid() && known == old(known) && defaults == old(defaults) && objects == old(objects)
      ensures k.state == FINISHED
      ensures model == Step(old(model), Op.Exit(depth, effect, payload))
    {
      hide WellFormed, Layout;
      ghost var op := Op.Exit(depth, effect, payload);
      PatchExit(k, effect, payload);
      CutLayout(model, old(Snapshot(known)), depth, FieldsOf(k));
      ExitLayout(model, old(Snapshot(known)), op, FieldsOf(k));
      StepKeepsWellFormed(model, op);
      model := Step(model, op);
      assert Snapshot(known) == old(Snapshot(known))[k := FieldsOf(k)];
    }

    // ----- the life of a coroutine -----

    /** coroutine_prelude up to its call: the argument goes where the first parameter is passed, the return
        address on the stack, and the function gets the processor. */
    method PreludeCall()
      requires Valid() && cpu.ip == COROUTINE_PRELUDE
      modifies this`cpu, this`rdi, this`model
      ensures Valid() && model == Step(old(model), Op.Compute(cpu))
      ensures cpu == old(cpu).(ip := old(cpu.r15), rsp := old(cpu.rsp) - 8) && rdi == old(cpu.r14)
    {
      rdi := cpu.r14;
      Compute(cpu.(rsp := cpu.rsp - 8, ip := cpu.r15));
    }

    /** coroutine_prelude after its call, falling through into seff_exit.  The function has preserved the
        callee-saved registers, so r13 still holds the address of its coroutine. */
    method PreludeReturn(result: Word)
      requires Valid() && cur != null && cpu.r13 in objects && objects[cpu.r13] == cur
      modifies this, cur
      ensures Valid() && known == old(known) && old(cur).state == FINISHED
      ensures old(model).active != [] && cpu == ContextBelow(old(model).active, 1, old(model).main)
      ensures cur == Top(old(model).active[1..])
      ensures rax == RETURN && rdx == result
      ensures model.delivered == Request(RETURN, result)
      ensures model.active == old(model).active[1..] && model.main == old(model).main
    {
      hide WellFormed, Layout;
      ghost var before := model;
      assert before.active != [] && before.active[0].co == cur;
      ListedIsKnown(model, Snapshot(known));
      rdi := cpu.r13;
      Compute(cpu.(rsp := cpu.rsp - 8));
      assert model.active[1..] == before.active[1..] && model.main == before.main;
      Exit(objects[rdi], RETURN, result, 0);
      assert cpu == Live(model);
    }

    /** The first thing a new coroutine runs is its function, with its argument, above the computation that
        resumed it, on an aligned stack inside its own memory. */
    method FirstRun(k: Coroutine, self: Word, fn: Word, fnArg: Word, stackEnd: nat, frameSize: nat,
                    arg: Word, handled: EffectSet)
      requires Valid() && Enabled(model, Op.Init(k, self, fn, fnArg, stackEnd, frameSize))
      modifies this, k
      ensures Valid() && cur == k && k.parent == old(cur) && k.handled == handled
      ensures cpu.ip == fn && rdi == fnArg && cpu.r13 == self && objects == old(objects)[self := k]
      ensures (cpu.rsp + 8) % 16 == 0 && stackEnd - 15 <= cpu.rsp + 8 <= stackEnd
      ensures cpu.stackTop == stackEnd - frameSize - 16
      ensures |model.active| == |old(model).active| + 1 && model.active[0].co == k
      ensures model.active[1..] == old(model).active && model.main == old(model).main
    {
      hide WellFormed, Layout;
      FirstResumption(model, k, self, fn, fnArg, stackEnd, frameSize, arg, handled);
      Init(k, self, fn, fnArg, stackEnd, frameSize);
      Resume(k, arg, handled);
      ghost var resumed := model;
      PreludeCall();
      assert model.active == [resumed.active[0].(ctx := cpu)] + resumed.active[1..];
    }

    /** seff_find_effect_in */
    static method FindEffectIn(effect: EffectId, handled: EffectSet) returns (found: bool)
      ensures found <==> Handles(handled, effect)
    {
      match handled
      case HandlesAll => return true;
      case NullSet => return false;
      case Listed(ids) =>
        var i := 0;
        while ids[i] != 0
          invariant 0 <= i < |ids| && RETURN !in ids[..i] && effect !in ids[..i]
          decreases |ids| - i
        {
          assert ids[..i + 1] == ids[..i] + [ids[i]];
          if effect == ids[i] {
            return true;
          }
          assert i + 1 < |ids|;
          i := i + 1;
        }
        return false;
    }

    /** seff_locate_handler */
    method LocateHandler(effect: EffectId) returns (k: Coroutine?, ghost depth: nat)
      requires Valid()
      ensures k == Top(model.active[Locate(model.active, effect)..])
      ensures depth == Locate(model.active, effect)
    {
      k, depth := cur, 0;
      ghost var active := model.active;
      if effect != RETURN {
        var found := false;
        while k != null && !found
          invariant depth <= |active| && k == Top(active[depth..])
          invariant found ==> depth < |active| && Handles(active[depth].handled, effect)
          invariant forall i | 0 <= i < depth :: !Handles(active[i].handled, effect)
          decreases |active| - depth, !found
        {
          found := FindEffectIn(effect, k.handled);
          if !found {
            k, depth := k.parent, depth + 1;
          }
        }
      }
    }

    /** seff_set_default_handler; None is the null pointer. */
    method SetDefaultHandler(effect: EffectId, handler: Option<DefaultHandler>)
      returns (previous: Option<DefaultHandler>)
      requires Valid()
      modifies this`defaults
      ensures Valid() && previous == old(DefaultFor(effect)) && DefaultFor(effect) == handler
      ensures forall e | e != effect :: DefaultFor(e) == old(DefaultFor(e))
    {
      previous := DefaultFor(effect);
      defaults := if handler.Some? then defaults[effect := handler.value] else defaults - {effect};
    }

    /** seff_get_default_handler */
    function DefaultFor(effect: EffectId): Option<DefaultHandler>
      reads this`defaults
    {
      if effect in defaults then Some(defaults[effect]) else None
    }

    /** seff_perform.  Without a handler the default handler runs in place and its result is the result of
        the effect; default handlers may not pause the coroutine, so nothing else changes. */
    method Perform(effect: EffectId, payload: Word) returns (outcome: Outcome, ghost depth: nat)
      requires Valid()
      modifies this, known
      ensures Valid() && known == old(known) && defaults == old(defaults)
      ensures depth == Locate(old(model).active, effect)
      ensures var k := Top(old(model).active[Locate(old(model).active, effect)..]);
        if k != null then outcome == Caught(k) && model == Step(old(model), Op.Yield(depth, effect, payload))
        else
          && model == old(model) && cpu == old(cpu) && cur == old(cur)
          && outcome == (if DefaultFor(effect).Some? then Default(DefaultFor(effect).value(payload)) else Crash)
    {
      ListedIsKnown(model, Snapshot(known));
      hide WellFormed, Layout;
      var handler;
      handler, depth := LocateHandler(effect);
      if handler != null {
        Yield(handler, effect, payload, depth);
        outcome := Caught(handler);
      } else {
        outcome := CallDefault(effect, payload);
      }
    }

    /** Calls the default handler, which crashes when it is a null pointer. */
    method CallDefault(effect: EffectId, payload: Word) returns (outcome: Outcome)
      ensures outcome == if DefaultFor(effect).Some? then Default(DefaultFor(effect).value(payload)) else Crash
    {
      var handler := DefaultFor(effect);
      outcome := if handler.Some? then Default(handler.value(payload)) else Crash;
    }

    /** seff_throw.  Without a handler the default handler runs and then the process ends. */
    method Throw(effect: EffectId, payload: Word) returns (outcome: Outcome, ghost depth: nat)
      requires Valid()
      modifies this, known
      ensures Valid() && known == old(known) && defaults == old(defaults)
      ensures depth == Locate(old(model).active, effect)
      ensures var k := Top(old(model).active[Locate(old(model).active, effect)..]);
        if k != null then outcome == Caught(k) && model == Step(old(model), Op.Exit(depth, effect, payload))
        else
          && model == old(model) && cpu == old(cpu) && cur == old(cur)
          && outcome == (if DefaultFor(effect).Some? then Ended(-1) else Crash)
    {
      ListedIsKnown(model, Snapshot(known));
      hide WellFormed, Layout;
      var handler;
      handler, depth := LocateHandler(effect);
      if handler != null {
        Exit(handler, effect, payload, depth);
        outcome := Caught(handler);
      } else {
        outcome := CallDefault(effect, payload);
        if outcome.Default? {
          outcome := Ended(-1);
        }
      }
    }

    /** The active coroutine `depth` parent links above the running one. */
    method Ancestor(depth: nat) returns (k: Coroutine)
      requires Valid() && depth < |model.active|
      ensures k == model.active[depth].co
    {
      k := cur;
      for i := 0 to depth
        invariant k == model.active[i].co
      {
        assert model.active[i].co.parent == model.active[i + 1].co;
        k := k.parent;
      }
    }

    /** Every run of the pointer machine is the run of the list semantics. */
    method Execute(ops: seq<Op<Coroutine>>)
      requires Valid() && Runnable(model, ops)
      modifies this, known, Initialised(ops)
      ensures Valid() && model == Run(old(model), ops)
    {
      hide WellFormed, Layout;
      ghost var start := model;
      var i := 0;
      while i < |ops|
        invariant 0 <= i <= |ops| && Valid()
        invariant known <= old(known) + Initialised(ops)
        invariant Runnable(model, ops[i..]) && Run(model, ops[i..]) == Run(start, ops)
      {
        assert ops[i..][0] == ops[i] && ops[i..][1..] == ops[i + 1..];
        Dispatch(ops[i]);
        i := i + 1;
      }
    }

    method Dispatch(op: Op<Coroutine>)
      requires Valid() && Enabled(model, op)
      modifies this, known, Initialised([op])
      ensures Valid() && model == Step(old(model), op)
      ensures known == old(known) + Initialised([op])
    {
      hide WellFormed, Layout;
      ListedIsKnown(model, Snapshot(known));
      match op
      case Init(k, self, fn, arg, stackEnd, frameSize) =>
        assert [op][0] == op;
        Init(k, self, fn, arg, stackEnd, frameSize);
      case Compute(ctx) =>
        Compute(ctx);
      case Resume(k, arg, handled) =>
        Resume(k, arg, handled);
      case Yield(depth, effect, payload) =>
        var h := Ancestor(depth);
        Yield(h, effect, payload, depth);
      case Exit(depth, effect, payload) =>
        var h := Ancestor(depth);
        Exit(h, effect, payload, depth);
    }
  }

  ghost function Initialised(ops: seq<Op<Coroutine>>): set<Coroutine> {
    set i | 0 <= i < |ops| && ops[i].Init? :: ops[i].k
  }
}
