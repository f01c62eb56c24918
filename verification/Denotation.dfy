// When a node of the object graph stands for a tree of values.
module Denotation {
  import opened Lists
  import opened Rows
  import opened Entities
  import opened EagerSpec

  ghost predicate EntitiesDenote(xs: seq<Entity>, ts: seq<Row>) {
    |xs| == |ts| && forall i :: 0 <= i < |xs| ==> xs[i].fields == ts[i]
  }

  ghost predicate EntityDenotes(x: Entity?, t: Option<Row>) {
    if x == null then t.None? else t == Some(x.fields)
  }

  // Node n unfolds to tree t, all of it inside the set S.
  ghost predicate AccountDenotes(S: set<object>, n: Account, t: AccountTree)
    reads S
    decreases t, 1
  {
    && n in S && n.fields == t.fields && n.loadedTypes == t.loadedTypes
    && EntitiesDenote(n.Groups, t.groups) && EntityDenotes(n.Proxy, t.proxy)
    && ParentDenotes(S, n.Parent, t.parent) && AccountsDenote(S, n.Children, t.children)
    && EntitiesDenote(n.UsageLogs, t.usageLogs) && JoinsDenote(S, n.AccountGroups, t.accountGroups)
  }

  ghost predicate ParentDenotes(S: set<object>, p: Account?, t: Option<AccountTree>)
    reads S
    decreases t, 2
  {
    if p == null then t.None? else t.Some? && AccountDenotes(S, p, t.value)
  }

  ghost predicate AccountsDenote(S: set<object>, ns: seq<Account>, ts: seq<AccountTree>)
    reads S
    decreases ts, 0
  {
    |ns| == |ts| && forall i :: 0 <= i < |ns| ==> AccountDenotes(S, ns[i], ts[i])
  }

  ghost predicate JoinDenotes(S: set<object>, n: AccountGroup, t: AccountGroupTree)
    reads S
    decreases t, 1
  {
    && n in S && n.fields == t.fields && n.loadedTypes == t.loadedTypes
    && ParentDenotes(S, n.Account, t.account) && EntityDenotes(n.Group, t.group)
  }

  ghost predicate JoinsDenote(S: set<object>, ns: seq<AccountGroup>, ts: seq<AccountGroupTree>)
    reads S
    decreases ts, 0
  {
    |ns| == |ts| && forall i :: 0 <= i < |ns| ==> JoinDenotes(S, ns[i], ts[i])
  }

  lemma {:induction false} Grow(S: set<object>, S': set<object>, n: Account, t: AccountTree)
    requires S <= S' && AccountDenotes(S, n, t)
    ensures AccountDenotes(S', n, t)
    decreases t, 1
  {
    if t.parent.Some? {
      Grow(S, S', n.Parent, t.parent.value);
    }
    forall i | 0 <= i < |t.children|
      ensures AccountDenotes(S', n.Children[i], t.children[i])
    {
      Grow(S, S', n.Children[i], t.children[i]);
    }
    forall i | 0 <= i < |t.accountGroups|
      ensures JoinDenotes(S', n.AccountGroups[i], t.accountGroups[i])
    {
      GrowJoin(S, S', n.AccountGroups[i], t.accountGroups[i]);
    }
  }

  lemma {:induction false} GrowJoin(S: set<object>, S': set<object>, n: AccountGroup, t: AccountGroupTree)
    requires S <= S' && JoinDenotes(S, n, t)
    ensures JoinDenotes(S', n, t)
    decreases t, 1
  {
    if t.account.Some? {
      Grow(S, S', n.Account, t.account.value);
    }
  }

  lemma GrowParent(S: set<object>, S': set<object>, p: Account?, t: Option<AccountTree>)
    requires S <= S' && ParentDenotes(S, p, t)
    ensures ParentDenotes(S', p, t)
  {
    if p != null {
      Grow(S, S', p, t.value);
    }
  }

  lemma GrowAll(S: set<object>, S': set<object>, ns: seq<Account>, ts: seq<AccountTree>)
    requires S <= S' && AccountsDenote(S, ns, ts)
    ensures AccountsDenote(S', ns, ts)
  {
    forall i | 0 <= i < |ns|
      ensures AccountDenotes(S', ns[i], ts[i])
    {
      Grow(S, S', ns[i], ts[i]);
    }
  }

  lemma GrowJoins(S: set<object>, S': set<object>, ns: seq<AccountGroup>, ts: seq<AccountGroupTree>)
    requires S <= S' && JoinsDenote(S, ns, ts)
    ensures JoinsDenote(S', ns, ts)
  {
    forall i | 0 <= i < |ns|
      ensures JoinDenotes(S', ns[i], ts[i])
    {
      GrowJoin(S, S', ns[i], ts[i]);
    }
  }

  lemma EntitiesPicked(p: int -> bool, keys: seq<int>, xs: seq<Entity>, ts: seq<Row>)
    requires |keys| == |xs| && EntitiesDenote(xs, ts)
    ensures EntitiesDenote(Picked(p, keys, xs), Picked(p, keys, ts))
  {
    PositionsMembers(p, keys);
  }

  lemma AccountsPicked(S: set<object>, p: int -> bool, keys: seq<int>, xs: seq<Account>, ts: seq<AccountTree>)
    requires |keys| == |xs| && AccountsDenote(S, xs, ts)
    ensures AccountsDenote(S, Picked(p, keys, xs), Picked(p, keys, ts))
  {
    PositionsMembers(p, keys);
  }

  lemma JoinsPicked(S: set<object>, p: int -> bool, keys: seq<int>, xs: seq<AccountGroup>, ts: seq<AccountGroupTree>)
    requires |keys| == |xs| && JoinsDenote(S, xs, ts)
    ensures JoinsDenote(S, Picked(p, keys, xs), Picked(p, keys, ts))
  {
    PositionsMembers(p, keys);
  }

  // ---- one edge of every node in a list ----------------------------------------------

  ghost predicate GroupsDenote(nodes: seq<Account>, ts: seq<seq<Row>>)
    reads nodes`Groups
  {
    |nodes| == |ts| && forall i :: 0 <= i < |nodes| ==> EntitiesDenote(nodes[i].Groups, ts[i])
  }

  ghost predicate ProxiesDenote(nodes: seq<Account>, ts: seq<Option<Row>>)
    reads nodes`Proxy
  {
    |nodes| == |ts| && forall i :: 0 <= i < |nodes| ==> EntityDenotes(nodes[i].Proxy, ts[i])
  }

  ghost predicate ParentsDenote(S: set<object>, nodes: seq<Account>, ts: seq<Option<AccountTree>>)
    reads S, nodes`Parent
  {
    |nodes| == |ts| && forall i :: 0 <= i < |nodes| ==> ParentDenotes(S, nodes[i].Parent, ts[i])
  }

  ghost predicate ChildrenDenote(S: set<object>, nodes: seq<Account>, ts: seq<seq<AccountTree>>)
    reads S, nodes`Children
  {
    |nodes| == |ts| && forall i :: 0 <= i < |nodes| ==> AccountsDenote(S, nodes[i].Children, ts[i])
  }

  ghost predicate LogsDenote(nodes: seq<Account>, ts: seq<seq<Row>>)
    reads nodes`UsageLogs
  {
    |nodes| == |ts| && forall i :: 0 <= i < |nodes| ==> EntitiesDenote(nodes[i].UsageLogs, ts[i])
  }

  ghost predicate AccountGroupsDenote(S: set<object>, nodes: seq<Account>, ts: seq<seq<AccountGroupTree>>)
    reads S, nodes`AccountGroups
  {
    |nodes| == |ts| && forall i :: 0 <= i < |nodes| ==> JoinsDenote(S, nodes[i].AccountGroups, ts[i])
  }
}
