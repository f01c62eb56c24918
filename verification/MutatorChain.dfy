// The control flow of a bulk save: mutator i runs the hooks of builder i, checks
// builder i and calls mutator i + 1 from inside; the last one issues the batch
// insert, and then everything unwinds (backend/ent/account_create.go:2102-2149).
module MutatorChain {
  import opened Lists

  // What a hook does before and after it calls the next mutator. Swap passes on
  // another account mutation, Foreign a mutation of another type; Reject and Skip
  // return at once, with and without an error. Recover hides an error of the rest.
  datatype Before<M> = Proceed | Swap(m: M) | Foreign | Reject | Skip

  datatype After = Keep | Fail | Recover

  datatype Hook<M> = Hook(before: Before<M>, after: After)
  {
    predicate Calls() {
      !before.Reject? && !before.Skip?
    }

    function Passes(arg: Arg<M>): Arg<M> {
      match before
      case Swap(m) => Given(m)
      case Foreign => Alien
      case _ => arg
    }

    // The outcome of the hook when the next mutator ends with `inner`.
    function Judge(inner: bool): bool {
      match before
      case Reject => false
      case Skip => true
      case _ => (match after case Keep => inner case Fail => false case Recover => true)
    }
  }

  // The mutation that a mutator receives: the builder's own, another, or none of
  // its type.
  datatype Arg<M> = Own | Given(m: M) | Alien

  datatype Event = Enter(i: nat, h: nat) | Exit(i: nat, h: nat) | Check(i: nat) | Batch | Done(i: nat)

  // The hooks of every builder, whether each builder passes its check, and whether
  // the store accepts the batch.
  datatype Plan<M> = Plan(hooks: seq<seq<Hook<M>>>, passes: seq<bool>, inserts: bool)
  {
    predicate Valid() {
      |hooks| == |passes|
    }

    function Size(): nat {
      |hooks|
    }
  }

  datatype Run = Run(ok: bool, trace: seq<Event>)

  // Mutator i from its hook h on.
  function Mutate<M>(p: Plan<M>, i: nat, h: nat, arg: Arg<M>): Run
    requires p.Valid() && i < p.Size() && h <= |p.hooks[i]|
    decreases p.Size() - i, |p.hooks[i]| - h
  {
    if h < |p.hooks[i]| then
      var hook := p.hooks[i][h];
      var inner := if hook.Calls() then Mutate(p, i, h + 1, hook.Passes(arg)) else Run(false, []);
      Run(hook.Judge(inner.ok), [Enter(i, h)] + inner.trace + [Exit(i, h)])
    else if arg.Alien? then Run(false, [])
    else if !p.passes[i] then Run(false, [Check(i)])
    else
      var rest := if i < p.Size() - 1 then Mutate(p, i + 1, 0, Own) else Run(p.inserts, [Batch]);
      Run(rest.ok, [Check(i)] + rest.trace + if rest.ok then [Done(i)] else [])
  }

  // A hook that rejects or skips runs nothing below it; any other runs the rest once, on
  // the mutation that it passes on, and then decides.
  lemma HookRuns<M>(p: Plan<M>, i: nat, h: nat, arg: Arg<M>)
    requires p.Valid() && i < p.Size() && h < |p.hooks[i]|
    ensures var run, before, after := Mutate(p, i, h, arg), p.hooks[i][h].before, p.hooks[i][h].after;
            && (before.Reject? ==> run == Run(false, [Enter(i, h), Exit(i, h)]))
            && (before.Skip? ==> run == Run(true, [Enter(i, h), Exit(i, h)]))
            && (before.Proceed? ==> Wraps(run, after, i, h, Mutate(p, i, h + 1, arg)))
            && (before.Swap? ==> Wraps(run, after, i, h, Mutate(p, i, h + 1, Given(before.m))))
            && (before.Foreign? ==> Wraps(run, after, i, h, Mutate(p, i, h + 1, Alien)))
  {
  }

  ghost predicate Wraps(run: Run, after: After, i: nat, h: nat, inner: Run) {
    && run.trace == [Enter(i, h)] + inner.trace + [Exit(i, h)]
    && (after.Keep? ==> run.ok == inner.ok) && (after.Fail? ==> !run.ok) && (after.Recover? ==> run.ok)
  }

  // ---- nesting --------------------------------------------------------------------------

  // The hooks that are open after an event, if every Exit closes the last one.
  function Step(e: Event, open: seq<(nat, nat)>): Option<seq<(nat, nat)>> {
    match e
    case Enter(i, h) => Some(open + [(i, h)])
    case Exit(i, h) => if open != [] && open[|open| - 1] == (i, h) then Some(open[..|open| - 1]) else None
    case _ => Some(open)
  }

  function Open(trace: seq<Event>, open: seq<(nat, nat)>): Option<seq<(nat, nat)>> {
    if trace == [] then Some(open)
    else
      match Step(trace[0], open)
      case None => None
      case Some(o) => Open(trace[1..], o)
  }

  lemma {:induction false} OpenConcat(a: seq<Event>, b: seq<Event>, open: seq<(nat, nat)>)
    requires Open(a, open).Some?
    ensures Open(a + b, open) == Open(b, Open(a, open).value)
  {
    if a == [] {
      assert a + b == b;
    } else {
      OpenConcat(a[1..], b, Step(a[0], open).value);
      assert (a + b)[1..] == a[1..] + b;
    }
  }

  // A trace that leaves the open hooks as they are may be put between two events.
  lemma OpenAround(e: Event, mid: seq<Event>, f: Event, open: seq<(nat, nat)>)
    requires Step(e, open).Some? && Open(mid, Step(e, open).value) == Step(e, open)
    ensures Open([e] + mid + [f], open) == Step(f, Step(e, open).value)
  {
    var o := Step(e, open).value;
    assert ([e] + mid)[1..] == mid;
    OpenConcat([e] + mid, [f], open);
    assert [f][1..] == [];
  }

  // Every hook that is entered is left again, in the reverse order.
  lemma {:induction false} ProperlyNested<M>(p: Plan<M>, i: nat, h: nat, arg: Arg<M>, open: seq<(nat, nat)>)
    requires p.Valid() && i < p.Size() && h <= |p.hooks[i]|
    ensures Open(Mutate(p, i, h, arg).trace, open) == Some(open)
    decreases p.Size() - i, |p.hooks[i]| - h
  {
    if h < |p.hooks[i]| {
      var hook := p.hooks[i][h];
      var inner := if hook.Calls() then Mutate(p, i, h + 1, hook.Passes(arg)) else Run(false, []);
      if hook.Calls() {
        ProperlyNested(p, i, h + 1, hook.Passes(arg), open + [(i, h)]);
      }
      OpenAround(Enter(i, h), inner.trace, Exit(i, h), open);
    } else if !arg.Alien? {
      assert [Check(i)][1..] == [] && [Batch][1..] == [];
      if p.passes[i] {
        var rest := if i < p.Size() - 1 then Mutate(p, i + 1, 0, Own) else Run(p.inserts, [Batch]);
        if i < p.Size() - 1 {
          ProperlyNested(p, i + 1, 0, Own, open);
        }
        assert [Check(i)] + rest.trace + [] == [Check(i)] + rest.trace;
        assert ([Check(i)] + rest.trace)[1..] == rest.trace;
        OpenAround(Check(i), rest.trace, Done(i), open);
      }
    }
  }

  // ---- which hooks are open -------------------------------------------------------------

  // All hooks of the builders before i, and those of builder i before h, outermost first.
  function StackAt<M>(hooks: seq<seq<Hook<M>>>, i: nat, h: nat): seq<(nat, nat)>
    requires i < |hooks| && h <= |hooks[i]|
    decreases i
  {
    (if i == 0 then [] else StackAt(hooks, i - 1, |hooks[i - 1]|)) + HooksUpTo(i, h)
  }

  function HooksUpTo(i: nat, h: nat): (r: seq<(nat, nat)>)
    ensures |r| == h && forall k :: 0 <= k < h ==> r[k] == (i, k)
  {
    if h == 0 then [] else HooksUpTo(i, h - 1) + [(i, h - 1)]
  }

  // Event e may occur while exactly the hooks in `open` are.
  ghost predicate Placed<M>(e: Event, open: seq<(nat, nat)>, hooks: seq<seq<Hook<M>>>) {
    match e
    case Enter(i, h) => i < |hooks| && h < |hooks[i]| && open == StackAt(hooks, i, h)
    case Exit(i, h) => i < |hooks| && h < |hooks[i]| && open == StackAt(hooks, i, h + 1)
    case Check(i) => i < |hooks| && open == StackAt(hooks, i, |hooks[i]|)
    case Done(i) => i < |hooks| && open == StackAt(hooks, i, |hooks[i]|)
    case Batch => hooks != [] && open == StackAt(hooks, |hooks| - 1, |hooks[|hooks| - 1]|)
  }

  ghost predicate AllPlaced<M>(trace: seq<Event>, open: seq<(nat, nat)>, hooks: seq<seq<Hook<M>>>) {
    forall k :: 0 <= k < |trace| ==>
      Open(trace[..k], open).Some? && Placed(trace[k], Open(trace[..k], open).value, hooks)
  }

  lemma PlacedConcat<M>(
    a: seq<Event>, b: seq<Event>, open: seq<(nat, nat)>, mid: seq<(nat, nat)>, hooks: seq<seq<Hook<M>>>)
    requires AllPlaced(a, open, hooks) && Open(a, open) == Some(mid) && AllPlaced(b, mid, hooks)
    ensures AllPlaced(a + b, open, hooks)
  {
    hide Open, Placed;
    forall k | 0 <= k < |a + b|
      ensures Open((a + b)[..k], open).Some? && Placed((a + b)[k], Open((a + b)[..k], open).value, hooks)
    {
      if k < |a| {
        assert (a + b)[..k] == a[..k];
      } else {
        assert (a + b)[..k] == a + b[..k - |a|];
        OpenConcat(a, b[..k - |a|], open);
      }
    }
  }

  lemma PlacedOne<M>(e: Event, open: seq<(nat, nat)>, hooks: seq<seq<Hook<M>>>)
    requires Placed(e, open, hooks)
    ensures AllPlaced([e], open, hooks)
  {
    hide Placed;
    assert [e][..0] == [];
  }

  lemma PlacedAround<M>(
    e: Event, mid: seq<Event>, f: seq<Event>, open: seq<(nat, nat)>, inner: seq<(nat, nat)>,
    hooks: seq<seq<Hook<M>>>)
    requires Placed(e, open, hooks) && Step(e, open) == Some(inner)
    requires AllPlaced(mid, inner, hooks) && Open(mid, inner) == Some(inner)
    requires AllPlaced(f, inner, hooks)
    ensures AllPlaced([e] + mid + f, open, hooks)
  {
    hide Placed, AllPlaced;
    PlacedOne(e, open, hooks);
    assert [e][1..] == [] && Open([e], open) == Some(inner);
    PlacedConcat([e], mid, open, inner, hooks);
    OpenConcat([e], mid, open);
    PlacedConcat([e] + mid, f, open, inner, hooks);
  }

  lemma NothingPlaced<M>(open: seq<(nat, nat)>, hooks: seq<seq<Hook<M>>>)
    ensures AllPlaced([], open, hooks)
  {
  }

  // At every event of a run, the open hooks are those of the builders before it and of its
  // own builder up to it, in order: the first hook is outermost, and the check, the batch
  // and the completion of a builder stand inside all of them.
  lemma {:induction false} EventsOnStack<M>(p: Plan<M>, i: nat, h: nat, arg: Arg<M>)
    requires p.Valid() && i < p.Size() && h <= |p.hooks[i]|
    ensures AllPlaced(Mutate(p, i, h, arg).trace, StackAt(p.hooks, i, h), p.hooks)
    decreases p.Size() - i, |p.hooks[i]| - h, 1
  {
    hide AllPlaced, Open;
    var stack := StackAt(p.hooks, i, h);
    NothingPlaced(stack, p.hooks);
    if h < |p.hooks[i]| {
      HookOnStack(p, i, h, arg);
    } else if !arg.Alien? {
      PlacedOne(Check(i), stack, p.hooks);
      if p.passes[i] {
        var rest := RestTrace(p, i);
        PlacedOne(Done(i), stack, p.hooks);
        PlacedAround(Check(i), rest.trace, if rest.ok then [Done(i)] else [], stack, stack, p.hooks);
      }
    }
  }

  lemma {:induction false} HookOnStack<M>(p: Plan<M>, i: nat, h: nat, arg: Arg<M>)
    requires p.Valid() && i < p.Size() && h < |p.hooks[i]|
    ensures AllPlaced(Mutate(p, i, h, arg).trace, StackAt(p.hooks, i, h), p.hooks)
    decreases p.Size() - i, |p.hooks[i]| - h, 0
  {
    hide AllPlaced, Open;
    var stack, inner := StackAt(p.hooks, i, h), StackAt(p.hooks, i, h + 1);
    var hook := p.hooks[i][h];
    assert inner == stack + [(i, h)];
    NothingPlaced(inner, p.hooks);
    NothingOpen(inner);
    PlacedOne(Exit(i, h), inner, p.hooks);
    if hook.Calls() {
      EventsOnStack(p, i, h + 1, hook.Passes(arg));
      ProperlyNested(p, i, h + 1, hook.Passes(arg), inner);
      PlacedAround(Enter(i, h), Mutate(p, i, h + 1, hook.Passes(arg)).trace, [Exit(i, h)], stack, inner, p.hooks);
    } else {
      PlacedAround(Enter(i, h), [], [Exit(i, h)], stack, inner, p.hooks);
    }
  }

  lemma NothingOpen(open: seq<(nat, nat)>)
    ensures Open([], open) == Some(open)
  {
  }

  lemma NextStack<M>(hooks: seq<seq<Hook<M>>>, i: nat)
    requires i + 1 < |hooks|
    ensures StackAt(hooks, i + 1, 0) == StackAt(hooks, i, |hooks[i]|)
  {
  }

  lemma BatchPlaced<M>(hooks: seq<seq<Hook<M>>>)
    requires hooks != []
    ensures Placed(Batch, StackAt(hooks, |hooks| - 1, |hooks[|hooks| - 1]|), hooks)
  {
  }

  lemma BatchOpens(open: seq<(nat, nat)>)
    ensures Open([Batch], open) == Some(open)
  {
    assert [Batch][1..] == [];
  }

  // What the closure of builder i runs between its check and its completion.
  lemma {:induction false} RestTrace<M>(p: Plan<M>, i: nat) returns (rest: Run)
    requires p.Valid() && i < p.Size()
    ensures rest == if i < p.Size() - 1 then Mutate(p, i + 1, 0, Own) else Run(p.inserts, [Batch])
    ensures AllPlaced(rest.trace, StackAt(p.hooks, i, |p.hooks[i]|), p.hooks)
    ensures Open(rest.trace, StackAt(p.hooks, i, |p.hooks[i]|)) == Some(StackAt(p.hooks, i, |p.hooks[i]|))
    decreases p.Size() - i, 0, 0
  {
    hide AllPlaced, Open, Mutate, StackAt, Placed;
    var stack := StackAt(p.hooks, i, |p.hooks[i]|);
    if i < p.Size() - 1 {
      NextStack(p.hooks, i);
      EventsOnStack(p, i + 1, 0, Own);
      ProperlyNested(p, i + 1, 0, Own, stack);
      rest := Mutate(p, i + 1, 0, Own);
    } else {
      rest := Run(p.inserts, [Batch]);
      BatchPlaced(p.hooks);
      PlacedOne(Batch, stack, p.hooks);
      BatchOpens(stack);
    }
  }

  // ---- checks, batch and completions ------------------------------------------------------

  function NotHook(): Event -> bool {
    (e: Event) => !e.Enter? && !e.Exit?
  }

  // The trace without the hooks.
  function Core(trace: seq<Event>): seq<Event> {
    Filter(NotHook(), trace)
  }

  // How far the checks got, whether the batch was issued, and which builders were
  // marked done, in this order.
  datatype Outline = Outline(checked: nat, sent: bool, done: seq<nat>)

  function Checks(i: nat, k: nat): seq<Event>
    requires i <= k
  {
    seq(k - i, j requires 0 <= j => Check(i + j))
  }

  function Dones(done: seq<nat>): seq<Event> {
    seq(|done|, j requires 0 <= j < |done| => Done(done[j]))
  }

  // First all checks in ascending order, then the batch, then the completions.
  function Phases(i: nat, o: Outline): seq<Event>
    requires i <= o.checked
  {
    Checks(i, o.checked) + (if o.sent then [Batch] else []) + Dones(o.done)
  }

  // n - 1, n - 2, ..., m.
  function Down(n: nat, m: nat): (r: seq<nat>)
    requires m <= n
    ensures |r| == n - m && forall j :: 0 <= j < |r| ==> r[j] == n - 1 - j
  {
    seq(n - m, j requires 0 <= j < n - m => n - 1 - j)
  }

  ghost predicate Sound<M>(p: Plan<M>, i: nat, o: Outline) {
    && i <= o.checked <= p.Size() == |p.passes|
    && (forall j :: i <= j < o.checked - 1 ==> p.passes[j])
    && (o.sent ==> o.checked == p.Size() && forall j :: i <= j < p.Size() ==> p.passes[j])
    && (forall j :: 0 <= j < |o.done| ==> i <= o.done[j] < o.checked && p.passes[o.done[j]])
    && (forall j, k :: 0 <= j < k < |o.done| ==> o.done[j] > o.done[k])
  }

  function OutlineOf<M>(p: Plan<M>, i: nat, h: nat, arg: Arg<M>): Outline
    requires p.Valid() && i < p.Size() && h <= |p.hooks[i]|
    decreases p.Size() - i, |p.hooks[i]| - h
  {
    if h < |p.hooks[i]| then
      if p.hooks[i][h].Calls() then OutlineOf(p, i, h + 1, p.hooks[i][h].Passes(arg)) else Outline(i, false, [])
    else if arg.Alien? then Outline(i, false, [])
    else if !p.passes[i] then Outline(i + 1, false, [])
    else if i == p.Size() - 1 then Outline(i + 1, true, if p.inserts then [i] else [])
    else
      var rest := OutlineOf(p, i + 1, 0, Own);
      rest.(done := rest.done + if Mutate(p, i + 1, 0, Own).ok then [i] else [])
  }

  lemma CoreAround(e: Event, mid: seq<Event>, f: Event)
    ensures Core([e] + mid + [f]) == (if NotHook()(e) then [e] else []) + Core(mid) + (if NotHook()(f) then [f] else [])
    ensures Core([e] + mid) == (if NotHook()(e) then [e] else []) + Core(mid)
  {
    FilterConcat(NotHook(), [e] + mid, [f]);
    FilterConcat(NotHook(), [e], mid);
    FilterSnoc(NotHook(), [], e);
    FilterSnoc(NotHook(), [], f);
    assert [] + [e] == [e] && [] + [f] == [f];
  }

  // One more check in front, and one more completion at the end if all went well.
  function Extended(i: nat, rest: Outline, ok: bool): Outline {
    rest.(done := rest.done + if ok then [i] else [])
  }

  lemma ExtendPhases(i: nat, trace: seq<Event>, rest: Outline, ok: bool)
    requires i + 1 <= rest.checked && Core(trace) == Phases(i + 1, rest)
    ensures Core([Check(i)] + trace + if ok then [Done(i)] else []) == Phases(i, Extended(i, rest, ok))
  {
    hide Core;
    CoreAround(Check(i), trace, Done(i));
    assert [Check(i)] + trace + [] == [Check(i)] + trace;
    assert Checks(i, rest.checked) == [Check(i)] + Checks(i + 1, rest.checked);
    assert Dones(rest.done + [i]) == Dones(rest.done) + [Done(i)];
    assert rest.done + [] == rest.done;
  }

  lemma ExtendSound<M>(p: Plan<M>, i: nat, rest: Outline, ok: bool)
    requires i < |p.passes| && p.passes[i] && Sound(p, i + 1, rest)
    ensures Sound(p, i, Extended(i, rest, ok))
  {
  }

  lemma {:induction false} RunHasPhases<M>(p: Plan<M>, i: nat, h: nat, arg: Arg<M>)
    requires p.Valid() && i < p.Size() && h <= |p.hooks[i]|
    ensures Sound(p, i, OutlineOf(p, i, h, arg))
    ensures Core(Mutate(p, i, h, arg).trace) == Phases(i, OutlineOf(p, i, h, arg))
    decreases p.Size() - i, |p.hooks[i]| - h + 1
  {
    hide Core;
    if h < |p.hooks[i]| {
      var hook := p.hooks[i][h];
      CoreAround(Enter(i, h), [], Exit(i, h));
      EmptyCore();
      if hook.Calls() {
        RunHasPhases(p, i, h + 1, hook.Passes(arg));
        CoreAround(Enter(i, h), Mutate(p, i, h + 1, hook.Passes(arg)).trace, Exit(i, h));
      }
    } else {
      LeafHasPhases(p, i, arg);
    }
  }

  lemma EmptyCore()
    ensures Core([]) == []
  {
  }

  lemma {:induction false} LeafHasPhases<M>(p: Plan<M>, i: nat, arg: Arg<M>)
    requires p.Valid() && i < p.Size()
    ensures Sound(p, i, OutlineOf(p, i, |p.hooks[i]|, arg))
    ensures Core(Mutate(p, i, |p.hooks[i]|, arg).trace) == Phases(i, OutlineOf(p, i, |p.hooks[i]|, arg))
    decreases p.Size() - i, 0
  {
    hide Core, Phases;
    NoPhases(p, i);
    if !arg.Alien? && p.passes[i] {
      if i < p.Size() - 1 {
        RunHasPhases(p, i + 1, 0, Own);
        ExtendPhases(i, Mutate(p, i + 1, 0, Own).trace, OutlineOf(p, i + 1, 0, Own), Mutate(p, i + 1, 0, Own).ok);
        ExtendSound(p, i, OutlineOf(p, i + 1, 0, Own), Mutate(p, i + 1, 0, Own).ok);
      } else {
        BatchPhases(p, i);
        ExtendPhases(i, [Batch], Outline(i + 1, true, []), p.inserts);
        ExtendSound(p, i, Outline(i + 1, true, []), p.inserts);
        assert [] + (if p.inserts then [i] else []) == if p.inserts then [i] else [];
      }
    }
  }

  lemma NoPhases<M>(p: Plan<M>, i: nat)
    requires p.Valid() && i < p.Size()
    ensures Core([]) == Phases(i, Outline(i, false, [])) && Sound(p, i, Outline(i, false, []))
    ensures Core([Check(i)]) == Phases(i, Outline(i + 1, false, [])) && Sound(p, i, Outline(i + 1, false, []))
  {
    CoreAround(Check(i), [], Check(i));
    assert [Check(i)] + [] == [Check(i)];
  }

  lemma BatchPhases<M>(p: Plan<M>, i: nat)
    requires p.Valid() && i + 1 == p.Size()
    ensures Core([Batch]) == Phases(i + 1, Outline(i + 1, true, [])) && Sound(p, i + 1, Outline(i + 1, true, []))
  {
    CoreAround(Batch, [], Batch);
    assert [Batch] + [] == [Batch];
  }

  // The phases of any bulk save: the checks run in builder order, all of them pass
  // before the one batch insert, and completions follow it in the reverse order.
  lemma PhasesOfSave<M>(p: Plan<M>) returns (o: Outline)
    requires p.Valid() && p.Size() > 0
    ensures Sound(p, 0, o) && Core(Mutate(p, 0, 0, Own).trace) == Phases(0, o)
    ensures !Breaks(p.hooks, 0, 0, Own) ==>
              exists m :: 0 <= m <= p.Size() && o.done == Down(p.Size(), m) && (m < p.Size() ==> o.sent && p.inserts)
    ensures !Masks(p.hooks, 0, 0, Own) && Mutate(p, 0, 0, Own).ok ==> forall i: nat :: i < p.Size() ==> i in o.done
  {
    RunHasPhases(p, 0, 0, Own);
    o := OutlineOf(p, 0, 0, Own);
    if !Breaks(p.hooks, 0, 0, Own) {
      var m := DoneSuffix(p, 0, 0, Own);
    }
    if !Masks(p.hooks, 0, 0, Own) && Mutate(p, 0, 0, Own).ok {
      SuccessMeansDone(p, 0, 0, Own);
    }
  }

  // ---- hooks that hide the fate of the builders below them -----------------------------------

  // Some check results make the run succeed without completing all builders: a
  // hook skips or recovers, and no hook around it fails.
  predicate Masks<M>(hooks: seq<seq<Hook<M>>>, i: nat, h: nat, arg: Arg<M>)
    requires i < |hooks| && h <= |hooks[i]|
    decreases |hooks| - i, |hooks[i]| - h
  {
    if h < |hooks[i]| then
      var hook := hooks[i][h];
      || hook.before.Skip?
      || (hook.Calls() && (hook.after.Recover? || (hook.after.Keep? && Masks(hooks, i, h + 1, hook.Passes(arg)))))
    else !arg.Alien? && i < |hooks| - 1 && Masks(hooks, i + 1, 0, Own)
  }

  // Some builder can complete on top of such a run.
  predicate Breaks<M>(hooks: seq<seq<Hook<M>>>, i: nat, h: nat, arg: Arg<M>)
    requires i < |hooks| && h <= |hooks[i]|
    decreases |hooks| - i, |hooks[i]| - h
  {
    if h < |hooks[i]| then hooks[i][h].Calls() && Breaks(hooks, i, h + 1, hooks[i][h].Passes(arg))
    else !arg.Alien? && i < |hooks| - 1 && (Masks(hooks, i + 1, 0, Own) || Breaks(hooks, i + 1, 0, Own))
  }

  lemma {:induction false} SuccessMeansDone<M>(p: Plan<M>, i: nat, h: nat, arg: Arg<M>)
    requires p.Valid() && i < p.Size() && h <= |p.hooks[i]|
    requires !Masks(p.hooks, i, h, arg) && Mutate(p, i, h, arg).ok
    ensures forall j: nat :: i <= j < p.Size() ==> j in OutlineOf(p, i, h, arg).done
    decreases p.Size() - i, |p.hooks[i]| - h
  {
    if h < |p.hooks[i]| {
      SuccessMeansDone(p, i, h + 1, p.hooks[i][h].Passes(arg));
    } else if i < p.Size() - 1 {
      SuccessMeansDone(p, i + 1, 0, Own);
    }
  }

  // Without masking hooks, success means that the batch was issued and inserted.
  lemma {:induction false} SuccessMeansInserted<M>(p: Plan<M>, i: nat, h: nat, arg: Arg<M>)
    requires p.Valid() && i < p.Size() && h <= |p.hooks[i]|
    requires !Masks(p.hooks, i, h, arg) && Mutate(p, i, h, arg).ok
    ensures OutlineOf(p, i, h, arg).sent && p.inserts
    decreases p.Size() - i, |p.hooks[i]| - h
  {
    if h < |p.hooks[i]| {
      SuccessMeansInserted(p, i, h + 1, p.hooks[i][h].Passes(arg));
    } else if i < p.Size() - 1 {
      SuccessMeansInserted(p, i + 1, 0, Own);
    }
  }

  lemma {:induction false} DoneSuffix<M>(p: Plan<M>, i: nat, h: nat, arg: Arg<M>) returns (m: nat)
    requires p.Valid() && i < p.Size() && h <= |p.hooks[i]|
    requires !Breaks(p.hooks, i, h, arg)
    ensures i <= m <= p.Size() && OutlineOf(p, i, h, arg).done == Down(p.Size(), m)
    ensures m < p.Size() ==> OutlineOf(p, i, h, arg).sent && p.inserts
    decreases p.Size() - i, |p.hooks[i]| - h
  {
    m := p.Size();
    if h < |p.hooks[i]| {
      if p.hooks[i][h].Calls() {
        m := DoneSuffix(p, i, h + 1, p.hooks[i][h].Passes(arg));
      }
    } else if !arg.Alien? && p.passes[i] {
      if i < p.Size() - 1 {
        m := DoneSuffix(p, i + 1, 0, Own);
        if Mutate(p, i + 1, 0, Own).ok {
          SuccessMeansDone(p, i + 1, 0, Own);
          RunHasPhases(p, i + 1, 0, Own);
          AllDown(p.Size(), m, i + 1);
          m := i;
        }
      } else if p.inserts {
        m := i;
      }
    }
  }

  lemma AllDown(n: nat, m: nat, i: nat)
    requires i <= m <= n && i < n && forall j: nat :: i <= j < n ==> j in Down(n, m)
    ensures m == i
  {
    assert i in Down(n, m);
  }

  // Both conditions are exact: hooks that mask do so for some check results, even
  // when the store accepts every batch.
  lemma {:induction false} MaskWitness<M>(hooks: seq<seq<Hook<M>>>, i: nat, h: nat, arg: Arg<M>)
    returns (p: Plan<M>, j: nat)
    requires i < |hooks| && h <= |hooks[i]| && Masks(hooks, i, h, arg)
    ensures p.Valid() && p.hooks == hooks && p.inserts && i <= j < p.Size()
    ensures forall k :: 0 <= k < p.Size() ==> p.passes[k] == (k < j)
    ensures Mutate(p, i, h, arg).ok && j !in OutlineOf(p, i, h, arg).done
    decreases |hooks| - i, |hooks[i]| - h
  {
    if h < |hooks[i]| {
      var hook := hooks[i][h];
      if hook.before.Skip? || hook.after.Recover? {
        j := i;
        p := Plan(hooks, seq(|hooks|, k => k < i), true);
        RunHasPhases(p, i, h, arg);
      } else {
        p, j := MaskWitness(hooks, i, h + 1, hook.Passes(arg));
      }
    } else {
      p, j := MaskWitness(hooks, i + 1, 0, Own);
    }
  }

  lemma {:induction false} BreakWitness<M>(hooks: seq<seq<Hook<M>>>, i: nat, h: nat, arg: Arg<M>)
    returns (p: Plan<M>, k: nat, j: nat)
    requires i < |hooks| && h <= |hooks[i]| && Breaks(hooks, i, h, arg)
    ensures p.Valid() && p.hooks == hooks && p.inserts && i <= k < j < p.Size()
    ensures forall m :: 0 <= m < p.Size() ==> p.passes[m] == (m < j)
    ensures k in OutlineOf(p, i, h, arg).done && j !in OutlineOf(p, i, h, arg).done
    decreases |hooks| - i, |hooks[i]| - h
  {
    if h < |hooks[i]| {
      p, k, j := BreakWitness(hooks, i, h + 1, hooks[i][h].Passes(arg));
    } else if Masks(hooks, i + 1, 0, Own) {
      p, j := MaskWitness(hooks, i + 1, 0, Own);
      k := i;
    } else {
      p, k, j := BreakWitness(hooks, i + 1, 0, Own);
    }
  }

  // A successful save means that every builder is done, whatever the checks and the
  // store say, exactly if no hook masks.
  lemma SuccessIsHonestIff<M>(hooks: seq<seq<Hook<M>>>)
    requires |hooks| > 0
    ensures (forall p: Plan<M> :: p.Valid() && p.hooks == hooks && Mutate(p, 0, 0, Own).ok ==>
               forall i: nat :: i < p.Size() ==> Done(i) in Core(Mutate(p, 0, 0, Own).trace))
       <==> !Masks(hooks, 0, 0, Own)
  {
    if Masks(hooks, 0, 0, Own) {
      var p, j := MaskWitness(hooks, 0, 0, Own);
      RunHasPhases(p, 0, 0, Own);
      DoneInPhases(0, OutlineOf(p, 0, 0, Own), j);
      assert p.Valid() && p.hooks == hooks && Mutate(p, 0, 0, Own).ok && Done(j) !in Core(Mutate(p, 0, 0, Own).trace);
    } else {
      forall p: Plan<M>, i: nat | p.Valid() && p.hooks == hooks && Mutate(p, 0, 0, Own).ok && i < p.Size()
        ensures Done(i) in Core(Mutate(p, 0, 0, Own).trace)
      {
        SuccessMeansDone(p, 0, 0, Own);
        RunHasPhases(p, 0, 0, Own);
        DoneInPhases(0, OutlineOf(p, 0, 0, Own), i);
      }
    }
  }

  lemma DoneInPhases(i: nat, o: Outline, j: nat)
    requires i <= o.checked
    ensures Done(j) in Phases(i, o) <==> j in o.done
  {
    if j in o.done {
      var k :| 0 <= k < |o.done| && o.done[k] == j;
      assert Dones(o.done)[k] == Done(j);
    }
    if Done(j) in Phases(i, o) {
      assert Done(j) !in Checks(i, o.checked);
      assert Done(j) in Dones(o.done);
      var k :| 0 <= k < |o.done| && Dones(o.done)[k] == Done(j);
    }
  }

  // The builders that are done form a suffix of the list, whatever the checks and
  // the store say, exactly if no builder can complete on top of a masked run.
  lemma DoneIsSuffixIff<M>(hooks: seq<seq<Hook<M>>>)
    requires |hooks| > 0
    ensures (forall p: Plan<M> :: p.Valid() && p.hooks == hooks ==>
               forall i: nat, j: nat :: i < j < p.Size() && Done(i) in Core(Mutate(p, 0, 0, Own).trace) ==>
                 Done(j) in Core(Mutate(p, 0, 0, Own).trace))
       <==> !Breaks(hooks, 0, 0, Own)
  {
    if Breaks(hooks, 0, 0, Own) {
      var p, k, j := BreakWitness(hooks, 0, 0, Own);
      RunHasPhases(p, 0, 0, Own);
      DoneInPhases(0, OutlineOf(p, 0, 0, Own), k);
      DoneInPhases(0, OutlineOf(p, 0, 0, Own), j);
      assert p.Valid() && p.hooks == hooks && Done(k) in Core(Mutate(p, 0, 0, Own).trace);
    } else {
      forall p: Plan<M>, i: nat, j: nat |
        p.Valid() && p.hooks == hooks && i < j < p.Size() && Done(i) in Core(Mutate(p, 0, 0, Own).trace)
        ensures Done(j) in Core(Mutate(p, 0, 0, Own).trace)
      {
        RunHasPhases(p, 0, 0, Own);
        var m := DoneSuffix(p, 0, 0, Own);
        DoneInPhases(0, OutlineOf(p, 0, 0, Own), i);
        DoneInPhases(0, OutlineOf(p, 0, 0, Own), j);
        assert Down(p.Size(), m)[p.Size() - 1 - j] == j;
      }
    }
  }

  // Hooks that only pass on, reject before or fail after never mask.
  ghost predicate Honest<M>(hooks: seq<seq<Hook<M>>>) {
    forall i, h :: 0 <= i < |hooks| && 0 <= h < |hooks[i]| ==> !hooks[i][h].before.Skip? && !hooks[i][h].after.Recover?
  }

  lemma {:induction false} HonestNeverMasks<M>(hooks: seq<seq<Hook<M>>>, i: nat, h: nat, arg: Arg<M>)
    requires i < |hooks| && h <= |hooks[i]| && Honest(hooks)
    ensures !Masks(hooks, i, h, arg) && !Breaks(hooks, i, h, arg)
    decreases |hooks| - i, |hooks[i]| - h
  {
    if h < |hooks[i]| {
      HonestNeverMasks(hooks, i, h + 1, hooks[i][h].Passes(arg));
    } else if i < |hooks| - 1 {
      HonestNeverMasks(hooks, i + 1, 0, Own);
    }
  }

  // With such hooks, the builders that are done are the last ones of the list; there are
  // some only once the batch is inserted, and a successful save completes all.
  lemma HonestSave<M>(p: Plan<M>) returns (o: Outline, m: nat)
    requires p.Valid() && p.Size() > 0 && Honest(p.hooks)
    ensures Core(Mutate(p, 0, 0, Own).trace) == Phases(0, o) && Sound(p, 0, o)
    ensures m <= p.Size() && o.done == Down(p.Size(), m)
    ensures m < p.Size() ==> o.sent && p.inserts
    ensures Mutate(p, 0, 0, Own).ok ==> m == 0
  {
    hide Mutate, Core, Masks, Breaks, Honest;
    HonestNeverMasks(p.hooks, 0, 0, Own);
    o := PhasesOfSave(p);
    m :| 0 <= m <= p.Size() && o.done == Down(p.Size(), m) && (m < p.Size() ==> o.sent && p.inserts);
    if Mutate(p, 0, 0, Own).ok {
      assert 0 in o.done;
    }
  }
}
