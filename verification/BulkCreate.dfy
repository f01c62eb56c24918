// AccountCreate and AccountCreateBulk.Save (backend/ent/account_create.go:527-535,
// 2090-2151). The store's batch insert is a function of the rows of the batch.
module BulkCreate {
  import opened Lists
  import opened Rows
  import opened AccountChecks
  import opened MutatorChain

  // An account node that a builder has made.
  class Node {
    const fields: Row
    var ID: int

    constructor (fields: Row)
      ensures this.fields == fields && ID == 0
    {
      this.fields := fields;
      ID := 0;
    }
  }

  class AccountMutation {
    var fields: Row
    // Whose ID the mutation reports, once the save has succeeded.
    var id: Node?
    var done: bool
  }

  type AccountHook = Hook<AccountMutation>
  type AccountPlan = Plan<AccountMutation>

  class AccountCreate {
    var mutation: AccountMutation
    const hooks: seq<AccountHook>

    constructor (mutation: AccountMutation, hooks: seq<AccountHook>)
      ensures this.mutation == mutation && this.hooks == hooks
    {
      this.mutation, this.hooks := mutation, hooks;
    }

    // `if _, ok := mutation.X(); !ok { ... mutation.SetX(v) }` for column k.
    method Default(c: Column, v: Option<Cell>, ghost d: DefaultValues, ghost was: Row, ghost k: nat)
      returns (failed: bool)
      requires k < 11 && c == DefaultedAt(k) && v == d.Of(c)
      requires FillFrom(mutation.fields, d, k) == FillFrom(was, d, 0)
      modifies mutation`fields
      ensures failed ==> (mutation.fields, Some(c)) == FillFrom(was, d, 0)
      ensures !failed ==> FillFrom(mutation.fields, d, k + 1) == FillFrom(was, d, 0)
      ensures v.Some? ==> !failed
    {
      assert DEFAULTED[k..][0] == c && DEFAULTED[k..][1..] == DEFAULTED[k + 1..];
      failed := false;
      if c !in mutation.fields {
        if v.None? {
          return true;
        }
        mutation.fields := mutation.fields[c := v.value];
      }
    }

    // The defaults that a runtime import installs; the first missing one ends them.
    method RuntimeDefaults(d: DefaultValues, ghost was: Row) returns (missing: Option<Column>)
      requires FillFrom(mutation.fields, d, 0) == FillFrom(was, d, 0)
      modifies mutation`fields
      ensures missing.Some? ==> (mutation.fields, missing) == FillFrom(was, d, 0)
      ensures missing.None? ==> FillFrom(mutation.fields, d, 4) == FillFrom(was, d, 0)
    {
      hide Fill, FillFrom, DefaultedAt, DefaultValues.Of;
      RuntimeColumns(d);
      var failed := Default(CreatedAt, d.createdAt, d, was, 0);
      if failed {
        return Some(CreatedAt);
      }
      failed := Default(UpdatedAt, d.updatedAt, d, was, 1);
      if failed {
        return Some(UpdatedAt);
      }
      failed := Default(Credentials, d.credentials, d, was, 2);
      if failed {
        return Some(Credentials);
      }
      failed := Default(Extra, d.extra, d, was, 3);
      missing := if failed then Some(Extra) else None;
    }

    // The defaults that the package itself declares.
    method StaticDefaults(d: DefaultValues, ghost was: Row)
      requires FillFrom(mutation.fields, d, 4) == FillFrom(was, d, 0)
      modifies mutation`fields
      ensures FillFrom(mutation.fields, d, 11) == FillFrom(was, d, 0)
    {
      hide Fill, FillFrom, DefaultedAt, DefaultValues.Of;
      NumberColumns(d);
      StateColumns(d);
      var _ := Default(Concurrency, Some(d.concurrency), d, was, 4);
      var _ := Default(Priority, Some(d.priority), d, was, 5);
      var _ := Default(RateMultiplier, Some(d.rateMultiplier), d, was, 6);
      var _ := Default(Status, Some(d.status), d, was, 7);
      var _ := Default(AutoPauseOnExpired, Some(d.autoPauseOnExpired), d, was, 8);
      var _ := Default(Schedulable, Some(d.schedulable), d, was, 9);
      var _ := Default(QuotaDimension, Some(d.quotaDimension), d, was, 10);
    }

    method Defaults(d: DefaultValues) returns (missing: Option<Column>)
      modifies mutation`fields
      ensures (mutation.fields, missing) == Fill(old(mutation.fields), d, DEFAULTED)
    {
      hide Fill, FillFrom;
      ghost var was := mutation.fields;
      FillEnds(was, d);
      missing := RuntimeDefaults(d, was);
      if missing.None? {
        StaticDefaults(d, was);
        FillEnds(mutation.fields, d);
      }
    }

    function Check(accepts: Validator): Option<Rule>
      reads this`mutation, mutation`fields
    {
      FirstBroken(RULES, mutation.fields, accepts)
    }
  }

  // ---- mutators ------------------------------------------------------------------------

  // The closure of builder i, wrapped in the hooks that have been applied to it.
  datatype Mutator = Leaf(i: nat) | Hooked(i: nat, h: nat, hook: AccountHook, next: Mutator)

  function Chain(hooks: seq<AccountHook>, i: nat, h: nat): Mutator
    requires h <= |hooks|
    decreases |hooks| - h
  {
    if h == |hooks| then Leaf(i) else Hooked(i, h, hooks[h], Chain(hooks, i, h + 1))
  }

  // The wrapping loop: the first hook ends up outermost.
  method Wrap(hooks: seq<AccountHook>, i: nat) returns (mut: Mutator)
    ensures mut == Chain(hooks, i, 0)
  {
    mut := Leaf(i);
    var h := |hooks|;
    while h > 0
      invariant 0 <= h <= |hooks| && mut == Chain(hooks, i, h)
    {
      h := h - 1;
      mut := Hooked(i, h, hooks[h], mut);
    }
  }

  // The mutation that an argument stands for; nil for one of another type.
  function Resolve(arg: Arg<AccountMutation>, own: AccountMutation): AccountMutation? {
    match arg
    case Own => own
    case Given(m) => m
    case Alien => null
  }

  // A hook that passes on another mutation than the one it receives.
  predicate Redirects(hook: AccountHook) {
    hook.before.Swap? || hook.before.Foreign?
  }

  // What reaches the closure of a builder behind its hooks from h on.
  function Reach(hooks: seq<AccountHook>, h: nat, arg: Arg<AccountMutation>): Arg<AccountMutation>
    requires h <= |hooks|
    decreases |hooks| - h
  {
    if h == |hooks| then arg else Reach(hooks, h + 1, hooks[h].Passes(arg))
  }

  datatype Spec = Spec(fields: Row, id: Option<int>)

  // sqlgraph.BatchCreate: the ids of the inserted rows, or an error.
  datatype BatchResult = Inserted(ids: seq<Option<int>>) | Refused

  type Driver = seq<Row> -> BatchResult

  function IdAt(ids: seq<Option<int>>, j: nat): Option<int> {
    if j < |ids| then ids[j] else None
  }

  // ---- what the plan says about one hook and about one closure --------------------------------

  function RestOf(p: AccountPlan, i: nat): Run
    requires p.Valid() && i < p.Size()
  {
    if i < p.Size() - 1 then Mutate(p, i + 1, 0, Own) else Run(p.inserts, [Batch])
  }

  function RestOutline(p: AccountPlan, i: nat): Outline
    requires p.Valid() && i < p.Size()
  {
    if i < p.Size() - 1 then OutlineOf(p, i + 1, 0, Own) else Outline(i + 1, true, [])
  }

  lemma PlanOfLeaf(p: AccountPlan, i: nat, arg: Arg<AccountMutation>)
    requires p.Valid() && i < p.Size()
    ensures var r, o := Mutate(p, i, |p.hooks[i]|, arg), OutlineOf(p, i, |p.hooks[i]|, arg);
            if arg.Alien? then r == Run(false, []) && o == Outline(i, false, [])
            else if !p.passes[i] then r == Run(false, [Check(i)]) && o == Outline(i + 1, false, [])
            else
              && r == Run(RestOf(p, i).ok, [Check(i)] + RestOf(p, i).trace + if RestOf(p, i).ok then [Done(i)] else [])
              && o == Extended(i, RestOutline(p, i), RestOf(p, i).ok)
  {
    assert [] + [i] == [i] && RestOutline(p, i).done + [] == RestOutline(p, i).done;
  }

  lemma PlanOfHook(p: AccountPlan, i: nat, h: nat, arg: Arg<AccountMutation>)
    requires p.Valid() && i < p.Size() && h < |p.hooks[i]|
    ensures var hook := p.hooks[i][h];
            var inner := if hook.Calls() then Mutate(p, i, h + 1, hook.Passes(arg)) else Run(false, []);
            && Mutate(p, i, h, arg) == Run(hook.Judge(inner.ok), [Enter(i, h)] + inner.trace + [Exit(i, h)])
            && OutlineOf(p, i, h, arg)
               == if hook.Calls() then OutlineOf(p, i, h + 1, hook.Passes(arg)) else Outline(i, false, [])
  {
  }

  // ---- Save -------------------------------------------------------------------------------

  // What the closures of one Save share, with a record of what they do.
  class BulkRun {
    const builders: seq<AccountCreate>
    const specs: array<Option<Spec>>
    const nodes: array<Node?>
    const mutators: array<Mutator>
    const insert: Driver
    const accepts: Validator
    var trace: seq<Event>
    var batches: seq<seq<Row>>
    // The mutations that may reach a closure, and the one that reaches closure i.
    ghost const pool: set<AccountMutation>
    ghost const ends: seq<AccountMutation?>

    ghost predicate Valid(p: AccountPlan)
      reads mutators
    {
      && p.Valid() && |builders| == |ends| == specs.Length == nodes.Length == mutators.Length == p.Size()
      && forall j :: 0 <= j < |builders| ==>
            mutators[j] == Chain(builders[j].hooks, j, 0) && p.hooks[j] == builders[j].hooks
    }

    // Builder i stands in the list more than once.
    ghost predicate Repeated(i: nat)
      requires i < |builders|
    {
      exists j :: 0 <= j < |builders| && j != i && builders[j] == builders[i]
    }

    // Such a builder keeps its own mutation.
    ghost predicate Steady(i: nat, arg: Arg<AccountMutation>)
      requires i < |builders|
    {
      Repeated(i) ==> arg == Own && forall h :: 0 <= h < |builders[i].hooks| ==> !Redirects(builders[i].hooks[h])
    }

    // Builder i has not run yet: the plan knows its check, and `rows` its row.
    ghost predicate Awaits(p: AccountPlan, rows: seq<Row>, i: nat, h: nat, arg: Arg<AccountMutation>)
      requires p.Valid() && i < |builders| == |ends| == p.Size() == |rows| && h <= |builders[i].hooks|
      reads builders`mutation, pool`fields
    {
      && builders[i].mutation in pool && p.passes[i] == Passes(builders[i].mutation.fields, accepts) && Steady(i, arg)
      && var m := Resolve(Reach(builders[i].hooks, h, arg), builders[i].mutation);
         m == ends[i] && (m != null ==> m in pool && rows[i] == m.fields)
    }

    ghost predicate AllAwait(p: AccountPlan, rows: seq<Row>, i: nat)
      requires p.Valid() && i <= |builders| == |ends| == p.Size() == |rows|
      reads builders`mutation, pool`fields
    {
      forall j :: i <= j < |builders| ==> Awaits(p, rows, j, 0, Own)
    }

    // The first i specs are filled, and not inserted yet.
    ghost predicate Filled(rows: seq<Row>, i: nat)
      requires i <= |rows| == specs.Length
      reads specs
    {
      forall j :: 0 <= j < i ==> specs[j] == Some(Spec(rows[j], None))
    }

    // Builder j has its node, with the id of its spec, and the mutation it ends on is done.
    ghost predicate Completed(rows: seq<Row>, j: nat)
      requires j < |rows| == |builders| == |ends| == nodes.Length == specs.Length
      reads specs, nodes, nodes[j], builders`mutation, pool`done
    {
      && nodes[j] != null && nodes[j].fields == rows[j] && specs[j].Some?
      && nodes[j].ID == (if specs[j].value.id.Some? then specs[j].value.id.value else 0)
      && builders[j].mutation in pool && builders[j].mutation == ends[j] && builders[j].mutation.done
    }

    // The mutation of a completed builder reports the node of that builder, unless one
    // that completes later ends on the same mutation.
    ghost predicate Reported(done: seq<nat>)
      requires |builders| == nodes.Length && forall k :: 0 <= k < |done| ==> done[k] < |builders|
      reads nodes, builders`mutation, pool`id
    {
      forall k :: 0 <= k < |done| && builders[done[k]].mutation in pool && ReportsLast(done, k) ==>
        builders[done[k]].mutation.id == nodes[done[k]]
    }

    ghost predicate ReportsLast(done: seq<nat>, k: nat)
      requires k < |done| && forall l :: 0 <= l < |done| ==> done[l] < |builders|
      reads builders`mutation
    {
      forall l :: k < l < |done| ==> builders[done[l]].mutation != builders[done[k]].mutation
    }

    // sqlgraph.BatchCreate on all specs.
    method Insert(ghost rows: seq<Row>) returns (ok: bool)
      requires |rows| == specs.Length && Filled(rows, specs.Length)
      modifies this`trace, this`batches, specs
      ensures trace == old(trace) + [Batch] && batches == old(batches) + [rows]
      ensures ok == insert(rows).Inserted?
      ensures forall j :: 0 <= j < specs.Length ==> specs[j].Some? && specs[j].value.fields == rows[j]
      ensures ok ==> forall j :: 0 <= j < specs.Length ==> specs[j].value.id == IdAt(insert(rows).ids, j)
    {
      var batch := seq(specs.Length,
        j requires 0 <= j < specs.Length && specs[j].Some? reads specs => specs[j].value.fields);
      assert batch == rows;
      trace, batches := trace + [Batch], batches + [batch];
      match insert(batch)
      case Refused =>
        ok := false;
      case Inserted(ids) =>
        ok := true;
        for j := 0 to specs.Length
          invariant forall k :: 0 <= k < specs.Length ==> specs[k].Some? && specs[k].value.fields == rows[k]
          invariant forall k :: 0 <= k < j ==> specs[k].value.id == IdAt(ids, k)
          modifies specs
        {
          specs[j] := Some(Spec(specs[j].value.fields, IdAt(ids, j)));
        }
    }

    // Every builder holds a mutation of the pool.
    ghost predicate Pooled()
      reads builders`mutation
    {
      forall j :: 0 <= j < |builders| ==> builders[j].mutation in pool
    }

    // The specs of the batch, with their ids once it is inserted.
    ghost predicate SpecsAfter(rows: seq<Row>, i: nat, sent: bool)
      requires i <= |rows| == specs.Length
      reads specs
    {
      && (forall j :: 0 <= j < i ==> specs[j].Some? && specs[j].value.fields == rows[j])
      && (!sent ==> Filled(rows, i))
      && (sent && insert(rows).Inserted? ==>
            forall j :: 0 <= j < |rows| ==> specs[j] == Some(Spec(rows[j], IdAt(insert(rows).ids, j))))
    }

    // The builders in `done` are completed, each with a new node.
    twostate predicate DoneAfter(rows: seq<Row>, done: seq<nat>)
      requires |rows| == |builders| == |ends| == nodes.Length == specs.Length
      reads specs, nodes, nodes[..], builders`mutation, pool`done, pool`id
    {
      && (forall k :: 0 <= k < |done| ==> done[k] < |rows| && Completed(rows, done[k]) && fresh(nodes[done[k]]))
      && Reported(done)
    }

    // A run of mutator i leaves the builders before i alone, and undoes nothing.
    twostate predicate Spares(i: nat)
      requires i <= |builders| == nodes.Length
      reads nodes, builders`mutation, pool`done
    {
      && (forall j :: 0 <= j < i ==> nodes[j] == old(nodes[j]) && builders[j].mutation == old(builders[j].mutation))
      && forall m :: m in pool && old(m.done) ==> m.done
    }

    // Mutator i from its hook h on, which has received m.
    method RunMutator(
      mut: Mutator, m: AccountMutation?, ghost p: AccountPlan, ghost rows: seq<Row>, i: nat, h: nat,
      ghost arg: Arg<AccountMutation>)
      returns (ok: bool)
      requires Valid(p) && i < |builders| == |rows| && h <= |builders[i].hooks| && mut == Chain(builders[i].hooks, i, h)
      requires m == Resolve(arg, builders[i].mutation) && Awaits(p, rows, i, h, arg) && AllAwait(p, rows, i + 1)
      requires Pooled() && Filled(rows, i) && p.inserts == insert(rows).Inserted?
      modifies this`trace, this`batches, specs, nodes, builders`mutation, pool`id, pool`done
      ensures ok == Mutate(p, i, h, arg).ok && trace == old(trace) + Mutate(p, i, h, arg).trace
      ensures batches == old(batches) + if OutlineOf(p, i, h, arg).sent then [rows] else []
      ensures Pooled() && SpecsAfter(rows, i, OutlineOf(p, i, h, arg).sent)
      ensures DoneAfter(rows, OutlineOf(p, i, h, arg).done) && Spares(i)
      decreases |builders| - i, |builders[i].hooks| - h, 4
    {
      hide Mutate, OutlineOf, Completed, Passes, AllAwait, Awaits, FirstBroken;
      match mut
      case Leaf(_) =>
        ok := RunLeaf(i, m, p, rows, arg);
      case Hooked(_, _, hook, next) =>
        PlanOfHook(p, i, h, arg);
        trace := trace + [Enter(i, h)];
        var inner := false;
        if hook.Calls() {
          inner := RunNext(hook, next, m, p, rows, i, h, arg);
        }
        ok := hook.Judge(inner);
        trace := trace + [Exit(i, h)];
    }

    // The call of the next mutator from inside hook h.
    method RunNext(
      hook: AccountHook, next: Mutator, m: AccountMutation?, ghost p: AccountPlan, ghost rows: seq<Row>, i: nat,
      h: nat, ghost arg: Arg<AccountMutation>)
      returns (ok: bool)
      requires Valid(p) && i < |builders| == |rows| && h < |builders[i].hooks| && hook == builders[i].hooks[h]
                 && hook.Calls()
      requires next == Chain(builders[i].hooks, i, h + 1) && m == Resolve(arg, builders[i].mutation)
      requires Awaits(p, rows, i, h, arg) && AllAwait(p, rows, i + 1)
      requires Pooled() && Filled(rows, i) && p.inserts == insert(rows).Inserted?
      modifies this`trace, this`batches, specs, nodes, builders`mutation, pool`id, pool`done
      ensures ok == Mutate(p, i, h + 1, hook.Passes(arg)).ok
      ensures trace == old(trace) + Mutate(p, i, h + 1, hook.Passes(arg)).trace
      ensures batches == old(batches) + if OutlineOf(p, i, h + 1, hook.Passes(arg)).sent then [rows] else []
      ensures Pooled() && SpecsAfter(rows, i, OutlineOf(p, i, h + 1, hook.Passes(arg)).sent)
      ensures DoneAfter(rows, OutlineOf(p, i, h + 1, hook.Passes(arg)).done) && Spares(i)
      decreases |builders| - i, |builders[i].hooks| - h, 3
    {
      hide Mutate, OutlineOf, Chain, Filled, AllAwait, SpecsAfter, DoneAfter, Spares, Pooled, Passes;
      var passed := match hook.before case Swap(other) => other case Foreign => null case _ => m;
      ok := RunMutator(next, passed, p, rows, i, h + 1, hook.Passes(arg));
    }

    // The next mutator, or the batch insert behind the last one.
    method RunRest(i: nat, ghost p: AccountPlan, ghost rows: seq<Row>) returns (ok: bool)
      requires Valid(p) && i < |builders| == |rows| && AllAwait(p, rows, i + 1)
      requires Pooled() && Filled(rows, i + 1) && p.inserts == insert(rows).Inserted?
      modifies this`trace, this`batches, specs, nodes, builders`mutation, pool`id, pool`done
      ensures ok == RestOf(p, i).ok && trace == old(trace) + RestOf(p, i).trace
      ensures batches == old(batches) + if RestOutline(p, i).sent then [rows] else []
      ensures Pooled() && SpecsAfter(rows, i + 1, RestOutline(p, i).sent)
      ensures DoneAfter(rows, RestOutline(p, i).done) && Spares(i + 1)
      decreases |builders| - i, 0, 1
    {
      if i < mutators.Length - 1 {
        assert Awaits(p, rows, i + 1, 0, Own);
        ok := RunMutator(mutators[i + 1], builders[i + 1].mutation, p, rows, i + 1, 0, Own);
      } else {
        ok := Insert(rows);
      }
    }

    // The end of the closure: the mutation learns the id of its node.
    method Finish(i: nat, m: AccountMutation, ghost rows: seq<Row>, ghost done: seq<nat>)
      requires i < |builders| == |rows| == |ends| == specs.Length == nodes.Length
      requires Pooled() && builders[i].mutation == m == ends[i] && nodes[i] != null && nodes[i].fields == rows[i]
      requires specs[i].Some? && nodes[i].ID == 0
      requires forall k :: 0 <= k < |done| ==>
                 done[k] < |rows| && Completed(rows, done[k]) && nodes[done[k]] != nodes[i]
      requires Reported(done)
      modifies this`trace, nodes[i], m`id, m`done
      ensures trace == old(trace) + [Done(i)] && m.done && Completed(rows, i)
      ensures forall k :: 0 <= k < |done| ==> Completed(rows, done[k])
      ensures Reported(done + [i])
    {
      m.id := nodes[i];
      if specs[i].value.id.Some? {
        nodes[i].ID := specs[i].value.id.value;
      }
      m.done := true;
      trace := trace + [Done(i)];
      forall k | 0 <= k < |done| && ReportsLast(done + [i], k)
        ensures ReportsLast(done, k) && builders[done[k]].mutation != m
      {
        assert (done + [i])[|done|] == i && forall l :: 0 <= l < |done| ==> (done + [i])[l] == done[l];
      }
    }

    // The closure itself, from its first line on.
    method RunLeaf(
      i: nat, m: AccountMutation?, ghost p: AccountPlan, ghost rows: seq<Row>, ghost arg: Arg<AccountMutation>)
      returns (ok: bool)
      requires Valid(p) && i < |builders| == |rows|
      requires m == Resolve(arg, builders[i].mutation) && Awaits(p, rows, i, |builders[i].hooks|, arg)
                 && AllAwait(p, rows, i + 1)
      requires Pooled() && Filled(rows, i) && p.inserts == insert(rows).Inserted?
      modifies this`trace, this`batches, specs, nodes, builders`mutation, pool`id, pool`done
      ensures ok == Mutate(p, i, |builders[i].hooks|, arg).ok
      ensures trace == old(trace) + Mutate(p, i, |builders[i].hooks|, arg).trace
      ensures batches == old(batches) + if OutlineOf(p, i, |builders[i].hooks|, arg).sent then [rows] else []
      ensures Pooled() && SpecsAfter(rows, i, OutlineOf(p, i, |builders[i].hooks|, arg).sent)
      ensures DoneAfter(rows, OutlineOf(p, i, |builders[i].hooks|, arg).done) && Spares(i)
      decreases |builders| - i, 0, 3
    {
      hide Mutate, OutlineOf, RestOf, RestOutline, Completed, Chain, AllAwait;
      PlanOfLeaf(p, i, arg);
      if m == null {
        return false;
      }
      trace := trace + [Check(i)];
      if builders[i].Check(accepts).Some? {
        return false;
      }
      ok := RunAccepted(i, m, p, rows);
    }

    // The builder takes over the mutation, and its node and spec are made.
    method Prepare(i: nat, m: AccountMutation, ghost p: AccountPlan, ghost rows: seq<Row>)
      requires Valid(p) && i < |builders| == |rows| && m in pool && rows[i] == m.fields && m == ends[i]
      requires AllAwait(p, rows, i + 1)
      requires Repeated(i) ==> m == builders[i].mutation
      requires Pooled() && Filled(rows, i)
      modifies specs, nodes, builders`mutation
      ensures Pooled() && Filled(rows, i + 1) && AllAwait(p, rows, i + 1) && builders[i].mutation == m
      ensures nodes[i] != null && fresh(nodes[i]) && nodes[i].fields == rows[i] && nodes[i].ID == 0
      ensures forall j :: 0 <= j < i ==> nodes[j] == old(nodes[j]) && builders[j].mutation == old(builders[j].mutation)
    {
      hide Passes, Reach, Resolve, Chain;
      builders[i].mutation := m;
      nodes[i] := new Node(m.fields);
      specs[i] := Some(Spec(m.fields, None));
      assert forall j :: 0 <= j < |builders| ==>
        builders[j].mutation == old(builders[j].mutation) || builders[j] == builders[i];
      forall j | i + 1 <= j < |builders|
        ensures Awaits(p, rows, j, 0, Own)
      {
        assert old(Awaits(p, rows, j, 0, Own));
        assert builders[j] == builders[i] ==> Repeated(i);
      }
    }

    // The rest of the closure, for a builder that has passed its check.
    method RunAccepted(i: nat, m: AccountMutation, ghost p: AccountPlan, ghost rows: seq<Row>) returns (ok: bool)
      requires Valid(p) && i < |builders| == |rows| && m in pool && rows[i] == m.fields && m == ends[i]
      requires AllAwait(p, rows, i + 1)
      requires Repeated(i) ==> m == builders[i].mutation
      requires Pooled() && Filled(rows, i) && p.inserts == insert(rows).Inserted?
      modifies this`trace, this`batches, specs, nodes, builders`mutation, pool`id, pool`done
      ensures ok == RestOf(p, i).ok
      ensures trace == old(trace) + RestOf(p, i).trace + if ok then [Done(i)] else []
      ensures batches == old(batches) + if RestOutline(p, i).sent then [rows] else []
      ensures Pooled() && SpecsAfter(rows, i, RestOutline(p, i).sent)
      ensures DoneAfter(rows, Extended(i, RestOutline(p, i), ok).done) && Spares(i)
      decreases |builders| - i, 0, 2
    {
      hide RestOf, RestOutline, AllAwait, Completed, Passes, Reach, Resolve, Reported;
      Prepare(i, m, p, rows);
      ok := RunRest(i, p, rows);
      if ok {
        Finish(i, m, rows, RestOutline(p, i).done);
      } else {
        assert RestOutline(p, i).done + [] == RestOutline(p, i).done;
      }
    }

    constructor (
      builders: seq<AccountCreate>, insert: Driver, accepts: Validator, ghost pool: set<AccountMutation>,
      ghost ends: seq<AccountMutation?>)
      ensures this.builders == builders && this.insert == insert && this.accepts == accepts
      ensures this.pool == pool && this.ends == ends
      ensures fresh(specs) && fresh(nodes) && fresh(mutators) && trace == [] && batches == []
      ensures specs.Length == nodes.Length == mutators.Length == |builders|
    {
      this.builders, this.insert, this.accepts, this.pool, this.ends := builders, insert, accepts, pool, ends;
      specs := new Option<Spec>[|builders|](_ => None);
      nodes := new Node?[|builders|](_ => null);
      mutators := new Mutator[|builders|](_ => Leaf(0));
      trace, batches := [], [];
    }

    // Filled with the default values, or not yet.
    ghost predicate Filling(fields: Row, was: Row, d: DefaultValues) {
      fields == was || fields == Fill(was, d, DEFAULTED).0
    }

    twostate lemma Defaulted(d: DefaultValues)
      requires unchanged(builders`mutation)
      requires forall j :: 0 <= j < |builders| ==>
                 builders[j].mutation.fields == Fill(old(builders[j].mutation.fields), d, DEFAULTED).0
      requires forall m :: m in pool && !Held(m) ==> m.fields == old(m.fields)
      ensures forall m :: m in pool ==> m.fields == RowFor(Owned(builders), old(FieldsOf(pool)), d, m)
    {
      hide Fill;
    }

    ghost predicate Held(m: AccountMutation)
      reads builders`mutation
    {
      exists j :: 0 <= j < |builders| && builders[j].mutation == m
    }

    lemma HeldBy(i: nat)
      requires i < |builders|
      ensures Held(builders[i].mutation)
    {
    }

    // The loop of Save: default values, whose error is dropped, and the mutators.
    method Setup(d: DefaultValues)
      requires |builders| == mutators.Length && Pooled() && Separate()
      modifies mutators, pool`fields
      ensures forall j :: 0 <= j < |builders| ==> mutators[j] == Chain(builders[j].hooks, j, 0)
      ensures forall j :: 0 <= j < |builders| ==>
                builders[j].mutation.fields == Fill(old(builders[j].mutation.fields), d, DEFAULTED).0
      ensures forall m :: m in pool ==> m.fields == RowFor(Owned(builders), old(FieldsOf(pool)), d, m)
    {
      hide Fill, Chain, RowFor, Owned, FieldsOf, Held;
      for i := 0 to |builders|
        invariant forall j :: 0 <= j < i ==> mutators[j] == Chain(builders[j].hooks, j, 0)
        invariant forall j :: 0 <= j < i ==>
                    builders[j].mutation.fields == Fill(old(builders[j].mutation.fields), d, DEFAULTED).0
        invariant forall j :: i <= j < |builders| ==>
                    Filling(builders[j].mutation.fields, old(builders[j].mutation.fields), d)
        invariant forall m :: m in pool && !Held(m) ==> m.fields == old(m.fields)
      {
        HeldBy(i);
        FillTwice(old(builders[i].mutation.fields), d);
        var _ := builders[i].Defaults(d);
        mutators[i] := Wrap(builders[i].hooks, i);
      }
      Defaulted(d);
    }

    ghost predicate Separate()
      reads builders`mutation
    {
      SeparateBuilders(builders)
    }

    // The mutation behind the hooks of a builder, and its row.
    ghost predicate Reachable(b: AccountCreate)
      reads b`mutation
    {
      b.mutation in pool && var m := Resolve(Reach(b.hooks, 0, Own), b.mutation); m == null || m in pool
    }

    ghost function RowOf(b: AccountCreate): Row
      requires Reachable(b)
      reads b`mutation, pool`fields
    {
      var m := Resolve(Reach(b.hooks, 0, Own), b.mutation);
      if m == null then map[] else m.fields
    }

    // Each builder's check, row and hooks as the state has them now.
    ghost function PassesNow(n: nat): (r: seq<bool>)
      requires n <= |builders| && forall b :: b in builders ==> Reachable(b)
      reads builders`mutation, pool`fields
      ensures |r| == n && forall j :: 0 <= j < n ==> r[j] == Passes(builders[j].mutation.fields, accepts)
    {
      if n == 0 then []
      else
        assert builders[n - 1] in builders;
        PassesNow(n - 1) + [Passes(builders[n - 1].mutation.fields, accepts)]
    }

    ghost function RowsNow(n: nat): (r: seq<Row>)
      requires n <= |builders| && forall b :: b in builders ==> Reachable(b)
      reads builders`mutation, pool`fields
      ensures |r| == n && forall j :: 0 <= j < n ==> builders[j] in builders && r[j] == RowOf(builders[j])
    {
      if n == 0 then []
      else
        assert builders[n - 1] in builders;
        RowsNow(n - 1) + [RowOf(builders[n - 1])]
    }

    ghost function PlanNow(): (p: AccountPlan)
      requires forall b :: b in builders ==> Reachable(b)
      reads builders`mutation, pool`fields
      ensures p.Valid() && p.Size() == |builders| && p.hooks == HooksOf(builders)
      ensures p.passes == PassesNow(|builders|) && p.inserts == insert(RowsNow(|builders|)).Inserted?
    {
      Plan(HooksOf(builders), PassesNow(|builders|), insert(RowsNow(|builders|)).Inserted?)
    }

    // The trace, the batch, the specs and the completed builders are those of plan p.
    ghost predicate Ended(p: AccountPlan, rows: seq<Row>)
      reads this, nodes, specs, nodes[..], builders`mutation, pool`done, pool`id
    {
      && builders != [] && p.Valid() && p.hooks == HooksOf(builders) && p.inserts == insert(rows).Inserted?
      && |rows| == |builders| == |ends| == specs.Length == nodes.Length
      && trace == Mutate(p, 0, 0, Own).trace
      && var o := OutlineOf(p, 0, 0, Own);
         && batches == (if o.sent then [rows] else []) && SpecsAfter(rows, 0, o.sent)
         && (forall k :: 0 <= k < |o.done| ==> o.done[k] < |rows| && Completed(rows, o.done[k]))
         && Reported(o.done)
    }

    // No builder has run yet.
    lemma Waiting()
      requires |builders| == specs.Length == nodes.Length == mutators.Length && |builders| > 0
      requires ends == Ends(HooksOf(builders), Owned(builders))
      requires Separate() && forall b :: b in builders ==> Reachable(b)
      requires forall j :: 0 <= j < |builders| ==> mutators[j] == Chain(builders[j].hooks, j, 0)
      ensures var p, rows := PlanNow(), RowsNow(|builders|);
              && Valid(p) && Pooled() && Filled(rows, 0) && Awaits(p, rows, 0, 0, Own) && AllAwait(p, rows, 1)
    {
      hide Passes, Chain, Reach;
      forall j | 0 <= j < |builders|
        ensures Awaits(PlanNow(), RowsNow(|builders|), j, 0, Own)
      {
        assert builders[j] in builders && Reachable(builders[j]);
      }
    }

    // mutators[0].Mutate(ctx, builders[0].mutation).
    method Start() returns (ok: bool, ghost p: AccountPlan, ghost rows: seq<Row>)
      requires |builders| == specs.Length == nodes.Length == mutators.Length && |builders| > 0
      requires ends == Ends(HooksOf(builders), Owned(builders)) && trace == [] && batches == []
      requires Separate() && forall b :: b in builders ==> Reachable(b)
      requires forall j :: 0 <= j < |builders| ==> mutators[j] == Chain(builders[j].hooks, j, 0)
      modifies this`trace, this`batches, specs, nodes, builders`mutation, pool`id, pool`done
      ensures p == old(PlanNow()) && rows == old(RowsNow(|builders|))
      ensures Ended(p, rows) && ok == Mutate(p, 0, 0, Own).ok
    {
      hide Mutate, OutlineOf, Chain, Completed, Reported, SpecsAfter, Valid, AllAwait, Pooled, Filled, Separate;
      p, rows := PlanNow(), RowsNow(|builders|);
      Waiting();
      ok := RunMutator(mutators[0], builders[0].mutation, p, rows, 0, 0, Own);
    }
  }

  function Owned(builders: seq<AccountCreate>): (r: seq<AccountMutation>)
    reads builders`mutation
    ensures |r| == |builders| && forall j :: 0 <= j < |builders| ==> r[j] == builders[j].mutation
  {
    if builders == [] then [] else Owned(builders[..|builders| - 1]) + [builders[|builders| - 1].mutation]
  }

  ghost function FieldsOf(pool: set<AccountMutation>): map<AccountMutation, Row>
    reads pool`fields
  {
    map m | m in pool :: m.fields
  }

  // The row that a mutation makes: the default values reach those that builders own.
  function RowFor(
    owned: seq<AccountMutation>, was: map<AccountMutation, Row>, d: DefaultValues, m: AccountMutation): Row
    requires m in was
  {
    if m in owned then Fill(was[m], d, DEFAULTED).0 else was[m]
  }

  // Plan and rows of a save whose mutations hold `was`: builder j is checked on the row
  // of the mutation that it owns, and inserts the row of the one that it ends on.
  ghost predicate Plans(
    hooks: seq<seq<AccountHook>>, owned: seq<AccountMutation>, was: map<AccountMutation, Row>, d: DefaultValues,
    accepts: Validator, p: AccountPlan, rows: seq<Row>)
  {
    && p.Valid() && p.hooks == hooks && |hooks| == |owned| == |rows|
    && forall j :: 0 <= j < |owned| ==>
         && owned[j] in was && p.passes[j] == Passes(RowFor(owned, was, d, owned[j]), accepts)
         && var m := Ends(hooks, owned)[j];
            m != null ==> m in was && rows[j] == RowFor(owned, was, d, m)
  }

  // The mutations that reach the closures, for builders that own those in `owned`.
  function Ends(hooks: seq<seq<AccountHook>>, owned: seq<AccountMutation>): (r: seq<AccountMutation?>)
    requires |hooks| == |owned|
    ensures |r| == |owned| && forall j :: 0 <= j < |owned| ==> r[j] == Resolve(Reach(hooks[j], 0, Own), owned[j])
  {
    seq(|owned|, j requires 0 <= j < |owned| => Resolve(Reach(hooks[j], 0, Own), owned[j]))
  }

  function HooksOf(builders: seq<AccountCreate>): (r: seq<seq<AccountHook>>)
    ensures |r| == |builders| && forall j :: 0 <= j < |builders| ==> r[j] == builders[j].hooks
  {
    seq(|builders|, j requires 0 <= j < |builders| => builders[j].hooks)
  }

  // Different builders have different mutations, and no hook of a builder that stands
  // in the list more than once passes on another mutation.
  ghost predicate SeparateBuilders(builders: seq<AccountCreate>)
    reads builders`mutation
  {
    forall j, k :: 0 <= j < k < |builders| ==>
      if builders[j] == builders[k] then forall h :: 0 <= h < |builders[j].hooks| ==> !Redirects(builders[j].hooks[h])
      else builders[j].mutation != builders[k].mutation
  }

  datatype SaveError = Builder(message: string) | Mutation

  class AccountCreateBulk {
    const err: Option<string>
    const builders: seq<AccountCreate>

    constructor (err: Option<string>, builders: seq<AccountCreate>)
      ensures this.err == err && this.builders == builders
    {
      this.err, this.builders := err, builders;
    }

    // The builders are separate, and `pool` holds every mutation that a hook may pass on.
    ghost predicate Valid(pool: set<AccountMutation>)
      reads builders`mutation
    {
      && SeparateBuilders(builders)
      && (forall b :: b in builders ==> b.mutation in pool)
      && forall b :: b in builders ==>
           Resolve(Reach(b.hooks, 0, Own), b.mutation) == null || Resolve(Reach(b.hooks, 0, Own), b.mutation) in pool
    }

    method Save(d: DefaultValues, accepts: Validator, insert: Driver, ghost pool: set<AccountMutation>)
      returns (r: Result<seq<Node?>, SaveError>, run: BulkRun, ghost p: AccountPlan, ghost rows: seq<Row>)
      requires Valid(pool)
      modifies builders`mutation, pool`fields, pool`id, pool`done
      ensures fresh(run) && run.builders == builders && run.insert == insert && run.pool == pool
      ensures err.Some? ==> r == Err(Builder(err.value)) && run.trace == [] && run.batches == []
      ensures err.None? && builders == [] ==> r == Ok([]) && run.trace == [] && run.batches == []
      ensures err.None? && builders != [] ==> Follows(r, run, p, rows)
      ensures run.ends == old(Ends(HooksOf(builders), Owned(builders)))
      ensures err.None? && builders != [] ==>
                Plans(HooksOf(builders), old(Owned(builders)), old(FieldsOf(pool)), d, accepts, p, rows)
      ensures err.None? && builders != [] ==>
                forall j :: 0 <= j < |builders| ==>
                  p.passes[j] == Passes(Fill(old(builders[j].mutation.fields), d, DEFAULTED).0, accepts)
      ensures err.None? && builders != [] ==>
                forall j :: 0 <= j < |builders| && run.ends[j] == old(builders[j].mutation) ==>
                  rows[j] == Fill(old(builders[j].mutation.fields), d, DEFAULTED).0
    {
      hide Fill, Mutate, OutlineOf, Passes, Reach, Resolve, Chain, SeparateBuilders, Valid, BulkRun.Reachable;
      hide BulkRun.Ended, Ends, Plans, RowFor, Owned, HooksOf, BulkRun.PlanNow, BulkRun.RowsNow;
      run := new BulkRun(builders, insert, accepts, pool, Ends(HooksOf(builders), Owned(builders)));
      p, rows := Plan([], [], false), [];
      if err.Some? {
        return Err(Builder(err.value)), run, p, rows;
      }
      ghost var owned, was := Owned(builders), FieldsOf(pool);
      ReachableHere(run);
      run.Setup(d);
      if |builders| > 0 {
        Planned(run, owned, was, d);
        var ok;
        ok, p, rows := run.Start();
        r := if ok then Ok(run.nodes[..]) else Err(Mutation);
      } else {
        r := Ok([]);
      }
    }

    lemma Planned(run: BulkRun, owned: seq<AccountMutation>, was: map<AccountMutation, Row>, d: DefaultValues)
      requires run.builders == builders && (forall b :: b in builders ==> run.Reachable(b))
      requires owned == Owned(builders) && was.Keys == run.pool
      requires forall m :: m in run.pool ==> m.fields == RowFor(owned, was, d, m)
      ensures Plans(HooksOf(builders), owned, was, d, run.accepts, run.PlanNow(), run.RowsNow(|builders|))
    {
      hide Passes, RowFor, Reach, Resolve;
      forall j | 0 <= j < |builders|
        ensures owned[j] in was
      {
        assert builders[j] in builders && run.Reachable(builders[j]);
      }
    }

    lemma ReachableHere(run: BulkRun)
      requires Valid(run.pool) && run.builders == builders
      ensures SeparateBuilders(builders) && run.Pooled() && forall b :: b in builders ==> run.Reachable(b)
    {
      hide SeparateBuilders;
    }

    // The result, the trace and the batch of a save are those of its plan.
    ghost predicate Follows(r: Result<seq<Node?>, SaveError>, run: BulkRun, p: AccountPlan, rows: seq<Row>)
      reads run, run.nodes, run.specs, run.nodes[..], builders`mutation, run.pool`done, run.pool`id
    {
      && builders != [] && run.builders == builders && run.Ended(p, rows)
      && r == if Mutate(p, 0, 0, Own).ok then Ok(run.nodes[..]) else Err(Mutation)
    }
  }

  // ---- what a save guarantees -----------------------------------------------------------------

  // One batch at most, and only if every builder has passed its check on its own
  // mutation; its row j is that of the mutation that builder j ends on.
  lemma BatchIsChecked(
    bulk: AccountCreateBulk, r: Result<seq<Node?>, SaveError>, run: BulkRun, owned: seq<AccountMutation>,
    was: map<AccountMutation, Row>, d: DefaultValues, p: AccountPlan, rows: seq<Row>)
    requires bulk.Follows(r, run, p, rows) && Plans(p.hooks, owned, was, d, run.accepts, p, rows)
    requires run.ends == Ends(p.hooks, owned)
    ensures run.batches == [] || run.batches == [rows]
    ensures run.batches == [rows] ==>
              forall j :: 0 <= j < |rows| ==>
                && owned[j] in was && Passes(RowFor(owned, was, d, owned[j]), run.accepts)
                && run.ends[j] != null && run.ends[j] in was && rows[j] == RowFor(owned, was, d, run.ends[j])
  {
    hide Passes, RowFor, OutlineOf, Mutate, Reach, BulkRun.SpecsAfter, BulkRun.Completed, BulkRun.Reported;
    if OutlineOf(p, 0, 0, Own).sent {
      AllChecked(p);
      SentIsSendable(p.hooks, owned, was, d, run.accepts, p, rows);
      forall j | 0 <= j < |rows|
        ensures run.ends[j] != null
      {
        ReachesMutation(p.hooks, owned, j);
      }
    }
  }

  // No batch is sent with a builder whose own mutation lacks a name, a platform or a type,
  // or with a row of such a mutation.
  lemma BatchIsNamed(
    bulk: AccountCreateBulk, r: Result<seq<Node?>, SaveError>, run: BulkRun, owned: seq<AccountMutation>,
    was: map<AccountMutation, Row>, d: DefaultValues, p: AccountPlan, rows: seq<Row>)
    requires bulk.Follows(r, run, p, rows) && Plans(p.hooks, owned, was, d, run.accepts, p, rows)
    requires run.ends == Ends(p.hooks, owned) && run.batches != []
    ensures forall j :: 0 <= j < |rows| ==>
              && owned[j] in was && Name in was[owned[j]] && Platform in was[owned[j]] && Type in was[owned[j]]
              && (run.ends[j] == owned[j] ==> Name in rows[j] && Platform in rows[j] && Type in rows[j])
  {
    hide Passes, AccountCreateBulk.Follows, Plans, Fill, Ends;
    PlanSizes(p.hooks, owned, was, d, run.accepts, p, rows);
    BatchIsChecked(bulk, r, run, owned, was, d, p, rows);
    forall j | 0 <= j < |rows|
      ensures owned[j] in was && Name in was[owned[j]] && Platform in was[owned[j]] && Type in was[owned[j]]
      ensures Name in RowFor(owned, was, d, owned[j]) && Platform in RowFor(owned, was, d, owned[j])
      ensures Type in RowFor(owned, was, d, owned[j])
    {
      PassesExactly(RowFor(owned, was, d, owned[j]), run.accepts);
      CallerFieldsStay(was[owned[j]], d, Name);
      CallerFieldsStay(was[owned[j]], d, Platform);
      CallerFieldsStay(was[owned[j]], d, Type);
    }
  }

  // Unless a hook masks a failure, a successful save has inserted the batch, and every
  // builder is done with the node of its own spec: the mutation that it ends on says so
  // and, if no builder before it ends on the same one, reports this node.
  lemma SuccessfulSave(
    bulk: AccountCreateBulk, r: Result<seq<Node?>, SaveError>, run: BulkRun, p: AccountPlan, rows: seq<Row>)
    requires bulk.Follows(r, run, p, rows) && r.Ok? && !Masks(p.hooks, 0, 0, Own)
    ensures run.batches == [rows] && run.insert(rows).Inserted? && |r.value| == |rows|
    ensures forall j :: 0 <= j < |rows| ==>
              && r.value[j] != null && r.value[j].fields == rows[j]
              && (j < |run.insert(rows).ids| && run.insert(rows).ids[j].Some? ==>
                    r.value[j].ID == run.insert(rows).ids[j].value)
              && (j >= |run.insert(rows).ids| || run.insert(rows).ids[j].None? ==> r.value[j].ID == 0)
              && bulk.builders[j].mutation == run.ends[j] && bulk.builders[j].mutation.done
              && ((forall k :: 0 <= k < j ==> run.ends[k] != run.ends[j]) ==>
                    bulk.builders[j].mutation.id == r.value[j])
  {
    var o := OutlineOf(p, 0, 0, Own);
    RunHasPhases(p, 0, 0, Own);
    SuccessMeansDone(p, 0, 0, Own);
    assert 0 in o.done;
    SuccessMeansInserted(p, 0, 0, Own);
    assert r.value == run.nodes[..];
    forall j | 0 <= j < |rows|
      ensures run.Completed(rows, j) && r.value[j] == run.nodes[j]
      ensures run.specs[j] == Some(Spec(rows[j], IdAt(run.insert(rows).ids, j)))
      ensures (forall k :: 0 <= k < j ==> run.ends[k] != run.ends[j]) ==>
                bulk.builders[j].mutation.id == run.nodes[j]
    {
      assert j in o.done;
      var k :| 0 <= k < |o.done| && o.done[k] == j;
      assert forall l :: k < l < |o.done| ==> run.Completed(rows, o.done[l]) && o.done[l] < j;
    }
  }

  // ---- which rows are inserted ---------------------------------------------------------------

  // The batch is sent exactly if every hook calls the next mutator, every closure gets a
  // mutation of its type, and every check passes.
  lemma {:induction false} SentIff(p: AccountPlan, i: nat, h: nat, arg: Arg<AccountMutation>)
    requires p.Valid() && i < p.Size() && h <= |p.hooks[i]|
    ensures OutlineOf(p, i, h, arg).sent
       <==> CallsFrom(p.hooks[i], h) && !Reach(p.hooks[i], h, arg).Alien? && p.passes[i]
            && forall j :: i < j < p.Size() ==>
                 CallsFrom(p.hooks[j], 0) && !Reach(p.hooks[j], 0, Own).Alien? && p.passes[j]
    decreases p.Size() - i, |p.hooks[i]| - h
  {
    if h < |p.hooks[i]| {
      if p.hooks[i][h].Calls() {
        SentIff(p, i, h + 1, p.hooks[i][h].Passes(arg));
      }
    } else if i < p.Size() - 1 {
      SentIff(p, i + 1, 0, Own);
    }
  }

  predicate CallsFrom(hooks: seq<AccountHook>, h: nat) {
    forall k :: h <= k < |hooks| ==> hooks[k].Calls()
  }

  // The hooks let a batch through.
  predicate Sendable(hooks: seq<seq<AccountHook>>) {
    forall j :: 0 <= j < |hooks| ==> CallsFrom(hooks[j], 0) && !Reach(hooks[j], 0, Own).Alien?
  }

  // Every builder ends on a mutation that some builder owns, and so has checked.
  predicate EndsOwned(hooks: seq<seq<AccountHook>>, owned: seq<AccountMutation>)
    requires |hooks| == |owned|
  {
    forall j :: 0 <= j < |owned| ==> Ends(hooks, owned)[j] in owned
  }

  ghost predicate AllPass(rows: seq<Row>, accepts: Validator) {
    forall j :: 0 <= j < |rows| ==> Passes(rows[j], accepts)
  }


  // Such a save sends its rows to the store.
  ghost predicate Sends(
    hooks: seq<seq<AccountHook>>, owned: seq<AccountMutation>, was: map<AccountMutation, Row>, d: DefaultValues,
    accepts: Validator, p: AccountPlan, rows: seq<Row>)
  {
    Plans(hooks, owned, was, d, accepts, p, rows) && |owned| > 0 && OutlineOf(p, 0, 0, Own).sent
  }

  lemma OwnedRowsPass(
    hooks: seq<seq<AccountHook>>, owned: seq<AccountMutation>, was: map<AccountMutation, Row>, d: DefaultValues,
    accepts: Validator, p: AccountPlan, rows: seq<Row>)
    requires Sends(hooks, owned, was, d, accepts, p, rows) && EndsOwned(hooks, owned)
    ensures AllPass(rows, accepts)
  {
    hide Passes, RowFor, OutlineOf, Plans, Ends;
    PlanSizes(hooks, owned, was, d, accepts, p, rows);
    AllChecked(p);
    forall j | 0 <= j < |rows|
      ensures Passes(rows[j], accepts)
    {
      var k :| 0 <= k < |owned| && owned[k] == Ends(hooks, owned)[j];
      RowIsChecked(hooks, owned, was, d, accepts, p, rows, j, k);
    }
  }

  lemma AllChecked(p: AccountPlan)
    requires p.Valid() && p.Size() > 0 && OutlineOf(p, 0, 0, Own).sent
    ensures forall k :: 0 <= k < p.Size() ==> p.passes[k]
  {
    hide OutlineOf, Reach, CallsFrom;
    SentIff(p, 0, 0, Own);
  }

  // Row j, from what the mutations held before the save: the fields of an unowned mutation
  // as they were, and those of an owned one with the missing default values.
  lemma RowsExactly(
    hooks: seq<seq<AccountHook>>, owned: seq<AccountMutation>, was: map<AccountMutation, Row>, d: DefaultValues,
    accepts: Validator, p: AccountPlan, rows: seq<Row>, j: nat)
    requires Plans(hooks, owned, was, d, accepts, p, rows) && j < |rows| && Ends(hooks, owned)[j] != null
    ensures var m := Ends(hooks, owned)[j];
            && m in was && (m !in owned ==> rows[j] == was[m])
            && (m in owned ==> forall c ::
                  && (c in was[m] ==> c in rows[j] && rows[j][c] == was[m][c])
                  && (c in rows[j] && c !in was[m] ==> d.Of(c) == Some(rows[j][c])))
  {
    hide Fill, Passes, DefaultValues.Of;
    var m := Ends(hooks, owned)[j];
    forall c
      ensures m in owned ==> && (c in was[m] ==> c in rows[j] && rows[j][c] == was[m][c])
                             && (c in rows[j] && c !in was[m] ==> d.Of(c) == Some(rows[j][c]))
    {
      FillKeeps(was[m], d, DEFAULTED, c);
    }
  }

  // What reaches the closure: the last hook that redirects decides, or the argument stays.
  lemma {:induction false} ReachKept(hooks: seq<AccountHook>, h: nat, arg: Arg<AccountMutation>)
    requires h <= |hooks| && forall k :: h <= k < |hooks| ==> !hooks[k].before.Swap? && !hooks[k].before.Foreign?
    ensures Reach(hooks, h, arg) == arg
    decreases |hooks| - h
  {
    if h < |hooks| {
      ReachKept(hooks, h + 1, arg);
    }
  }

  lemma {:induction false} ReachLast(hooks: seq<AccountHook>, h: nat, arg: Arg<AccountMutation>, k: nat)
    requires h <= k < |hooks| && (hooks[k].before.Swap? || hooks[k].before.Foreign?)
    requires forall j :: k < j < |hooks| ==> !hooks[j].before.Swap? && !hooks[j].before.Foreign?
    ensures Reach(hooks, h, arg) == if hooks[k].before.Swap? then Given(hooks[k].before.m) else Alien
    decreases k - h
  {
    if h < k {
      ReachLast(hooks, h + 1, hooks[h].Passes(arg), k);
    } else {
      ReachKept(hooks, h + 1, hooks[h].Passes(arg));
    }
  }

  lemma PlanSizes(
    hooks: seq<seq<AccountHook>>, owned: seq<AccountMutation>, was: map<AccountMutation, Row>, d: DefaultValues,
    accepts: Validator, p: AccountPlan, rows: seq<Row>)
    requires Plans(hooks, owned, was, d, accepts, p, rows)
    ensures p.Valid() && p.hooks == hooks && p.Size() == |owned| == |rows| == |hooks|
  {
  }

  // The row of a builder that ends on the mutation of builder k is the row that builder
  // k has checked.
  lemma RowIsChecked(
    hooks: seq<seq<AccountHook>>, owned: seq<AccountMutation>, was: map<AccountMutation, Row>, d: DefaultValues,
    accepts: Validator, p: AccountPlan, rows: seq<Row>, j: nat, k: nat)
    requires Plans(hooks, owned, was, d, accepts, p, rows) && j < |rows| && k < |owned|
    requires Ends(hooks, owned)[j] == owned[k]
    ensures p.passes[k] <==> Passes(rows[j], accepts)
  {
    hide Passes, RowFor, Reach, Ends;
  }

  // A row with every column that some rule names.
  function RowMeeting(rules: seq<Rule>): Row {
    if rules == [] then map[] else RowMeeting(rules[1..])[rules[0].c := Null]
  }

  lemma {:induction false} MeetsAll(rules: seq<Rule>)
    ensures forall r :: r in rules ==> r.c in RowMeeting(rules)
  {
    if rules != [] {
      MeetsAll(rules[1..]);
    }
  }

  lemma MeetingPasses(d: DefaultValues, accepts: Validator)
    requires forall c, v :: accepts(c, v)
    ensures Passes(Fill(RowMeeting(RULES), d, DEFAULTED).0, accepts)
  {
    hide Fill, RowMeeting;
    var f := Fill(RowMeeting(RULES), d, DEFAULTED).0;
    MeetsAll(RULES);
    FirstBrokenIsBroken(RULES, f, accepts);
    forall r | r in RULES
      ensures !Broken(r, f, accepts)
    {
      FillKeeps(RowMeeting(RULES), d, DEFAULTED, r.c);
    }
  }

  lemma EmptyFails(accepts: Validator)
    ensures !Passes(map[], accepts)
  {
  }

  // What the owned mutations hold so that every check passes, and the others so that
  // none would.
  function Telling(owned: seq<AccountMutation>, m: AccountMutation): Row {
    if m in owned then RowMeeting(RULES) else map[]
  }

  // On such mutations, a builder that ends on an unowned one inserts an unchecked row.
  lemma UnownedRowFails(
    hooks: seq<seq<AccountHook>>, owned: seq<AccountMutation>, was: map<AccountMutation, Row>, d: DefaultValues,
    accepts: Validator, p: AccountPlan, rows: seq<Row>)
    requires Plans(hooks, owned, was, d, accepts, p, rows) && |owned| > 0 && Sendable(hooks)
    requires (forall m :: m in was ==> was[m] == Telling(owned, m)) && forall c, v :: accepts(c, v)
    requires !EndsOwned(hooks, owned)
    ensures Sends(hooks, owned, was, d, accepts, p, rows) && !AllPass(rows, accepts)
  {
    hide Passes, RowMeeting, Fill, OutlineOf, CallsFrom;
    forall k | 0 <= k < |owned|
      ensures p.passes[k]
    {
      MeetingPasses(d, accepts);
    }
    SentIff(p, 0, 0, Own);
    var j :| 0 <= j < |owned| && Ends(hooks, owned)[j] !in owned;
    ReachesMutation(hooks, owned, j);
    EmptyFails(accepts);
    assert rows[j] == map[];
  }

  lemma ReachesMutation(hooks: seq<seq<AccountHook>>, owned: seq<AccountMutation>, j: nat)
    requires |hooks| == |owned| && Sendable(hooks) && j < |owned|
    ensures Ends(hooks, owned)[j] != null
  {
    hide Reach;
  }

  // Whatever the mutations hold, and whatever the default values and the validators,
  // every inserted row passes its check: exactly if the hooks hold every batch back, or
  // every builder ends on a mutation that some builder owns.
  lemma InsertedRowsPassIff(hooks: seq<seq<AccountHook>>, owned: seq<AccountMutation>)
    requires |hooks| == |owned| > 0
    ensures (forall was, d, accepts, p, rows ::
               Sends(hooks, owned, was, d, accepts, p, rows) ==> AllPass(rows, accepts))
       <==> (Sendable(hooks) ==> EndsOwned(hooks, owned))
  {
    hide Sends, Plans, EndsOwned, Sendable, AllPass;
    if Sendable(hooks) && !EndsOwned(hooks, owned) {
      var was, d, accepts, p, rows := TellingPlan(hooks, owned);
      UnownedRowFails(hooks, owned, was, d, accepts, p, rows);
    }
    forall was, d, accepts, p, rows |
      Sends(hooks, owned, was, d, accepts, p, rows) && (Sendable(hooks) ==> EndsOwned(hooks, owned))
      ensures AllPass(rows, accepts)
    {
      SentIsSendable(hooks, owned, was, d, accepts, p, rows);
      OwnedRowsPass(hooks, owned, was, d, accepts, p, rows);
    }
  }

  lemma SentIsSendable(
    hooks: seq<seq<AccountHook>>, owned: seq<AccountMutation>, was: map<AccountMutation, Row>, d: DefaultValues,
    accepts: Validator, p: AccountPlan, rows: seq<Row>)
    requires Sends(hooks, owned, was, d, accepts, p, rows)
    ensures Sendable(hooks)
  {
    hide OutlineOf, Plans, Reach, CallsFrom;
    PlanSizes(hooks, owned, was, d, accepts, p, rows);
    SentIff(p, 0, 0, Own);
  }

  lemma TellingPlan(hooks: seq<seq<AccountHook>>, owned: seq<AccountMutation>)
    returns (was: map<AccountMutation, Row>, d: DefaultValues, accepts: Validator, p: AccountPlan, rows: seq<Row>)
    requires |hooks| == |owned|
    ensures Plans(hooks, owned, was, d, accepts, p, rows)
    ensures (forall m :: m in was ==> was[m] == Telling(owned, m)) && forall c, v :: accepts(c, v)
  {
    hide Passes, Reach, Resolve, Fill, RowMeeting;
    var ends := Ends(hooks, owned);
    was := map m: AccountMutation | m in owned || m in ends :: Telling(owned, m);
    d := DefaultValues(None, None, None, None, Null, Null, Null, Null, Null, Null, Null);
    accepts := (c, v) => true;
    p := Plan(hooks, seq(|owned|, j requires 0 <= j < |owned| =>
                Passes(RowFor(owned, was, d, owned[j]), accepts)), true);
    rows := seq(|owned|, j requires 0 <= j < |owned| =>
      if ends[j] == null then map[] else RowFor(owned, was, d, ends[j]));
  }

  // A save that inserts an unchecked row, for any builders that the condition excludes.
  method SaveUnchecked(bulk: AccountCreateBulk, pool: set<AccountMutation>, d: DefaultValues)
    returns (run: BulkRun, accepts: Validator, ghost rows: seq<Row>)
    requires bulk.Valid(pool) && bulk.err.None? && bulk.builders != [] && Sendable(HooksOf(bulk.builders))
    requires !EndsOwned(HooksOf(bulk.builders), Owned(bulk.builders))
    modifies bulk.builders`mutation, pool`fields, pool`id, pool`done
    ensures run.batches == [rows] && !AllPass(rows, accepts)
  {
    hide Passes, RowMeeting, AccountCreateBulk.Valid, Plans, OutlineOf, Mutate, Ends, EndsOwned, Fill, AllPass;
    var owned := Owned(bulk.builders);
    forall m | m in pool {
      m.fields := Telling(owned, m);
    }
    accepts := (c, v) => true;
    ghost var was := FieldsOf(pool);
    var r;
    ghost var p;
    r, run, p, rows := bulk.Save(d, accepts, batch => Refused, pool);
    UnownedRowFails(HooksOf(bulk.builders), owned, was, d, accepts, p, rows);
  }

  // check looks at the builder's own mutation. The mutation that is inserted is the
  // same one exactly if no hook passes on another, or the last hook that does passes
  // on the builder's own.
  lemma {:induction false} OwnMutationIff(
    hooks: seq<AccountHook>, h: nat, arg: Arg<AccountMutation>, own: AccountMutation)
    requires h <= |hooks|
    ensures Resolve(Reach(hooks, h, arg), own) == own
       <==> (Resolve(arg, own) == own && forall k :: h <= k < |hooks| ==> !Redirects(hooks[k]))
            || exists k :: h <= k < |hooks| && hooks[k].before == Swap(own)
                           && forall j :: k < j < |hooks| ==> !Redirects(hooks[j])
    decreases |hooks| - h
  {
    if h < |hooks| {
      OwnMutationIff(hooks, h + 1, hooks[h].Passes(arg), own);
    }
  }
}
