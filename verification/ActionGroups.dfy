/** Action groups, and mergers that keep the reference-counted union of the groups registered with them. */
module ActionGroups {
  import opened ActionTallies
  import opened OptionType
  import opened Sequences

  /** The groups and mergers of one network, and the actions alive in it. */
  datatype Network = Network(groups: set<ActionGroup>, mergers: set<ActionGroupMerger>, live: set<Action>)

  // ---------- the network ----------

  /** Every merger owns its output group; who observes a group lists it and has an output that lies higher. */
  ghost predicate Linked(f: Network)
    reads f.groups`observers, f.mergers`groups
  {
    && (forall m <- f.mergers :: m.actionGroup in f.groups)
    && (forall m <- f.mergers, n <- f.mergers :: m.actionGroup == n.actionGroup ==> m == n)
    && (forall g <- f.groups, i | 0 <= i < |g.observers| ::
          && g.observers[i] in f.mergers
          && g in g.observers[i].groups
          && g.observers[i].actionGroup.rank < g.rank)
    && (forall g <- f.groups :: Distinct(g.observers))
  }

  /** Distinct live actions have distinct names, and the groups hold live actions only. */
  ghost predicate Live(f: Network)
    reads f.groups`actions
  {
    && (forall a <- f.live, b <- f.live :: a.name == b.name ==> a == b)
    && (forall g <- f.groups :: g.actions <= f.live)
  }

  /** The merger's counts, names and output agree with what it has seen of its groups. */
  ghost predicate Tallies(m: ActionGroupMerger)
    reads m, m.actionGroup`actions
  {
    && Counted(m.count, m.seen) && Named(m.names, m.count)
    && m.actionGroup.actions == m.count.Keys && m.groups <= m.seen.Keys
  }

  ghost predicate TalliesAbove(f: Network, r: nat)
    reads f.groups`actions, f.mergers
  {
    forall m <- f.mergers :: m.actionGroup.rank < r ==> m.actionGroup in f.groups && Tallies(m)
  }

  /** The observers of groups above depth `r` have seen all their current actions. */
  ghost predicate SeesAbove(f: Network, r: nat)
    reads f.groups, f.mergers`seen
  {
    forall g <- f.groups, i | 0 <= i < |g.observers| ::
      g.rank < r && g.observers[i] in f.mergers ==> g in g.observers[i].seen && g.observers[i].seen[g] == g.actions
  }

  /** The merger has seen exactly its registered groups as they are, and is connected to each of them. */
  ghost predicate Current(m: ActionGroupMerger)
    reads m, m.groups
  {
    m.seen.Keys == m.groups && forall g <- m.groups :: m in g.observers && m.seen[g] == g.actions
  }

  /** The state between two events. */
  ghost predicate Settled(f: Network)
    reads f.groups, f.mergers, set m <- f.mergers, g <- m.groups :: g
  {
    && Linked(f) && Live(f)
    && (forall m <- f.mergers, g <- m.groups :: g in f.groups && m.actionGroup.rank < g.rank)
    && forall m <- f.mergers :: Tallies(m) && Current(m)
  }

  /** Nothing at depth `r` or below changed, except the actions of `g`, what was seen of it, and the merger `x`. */
  twostate predicate OnlyAbove(f: Network, r: nat, g: ActionGroup, x: ActionGroupMerger?)
    reads f.groups`actions, f.mergers
  {
    && (forall h <- f.groups :: h.rank >= r && h != g ==> h.actions == old(h.actions))
    && (forall m <- f.mergers :: m.actionGroup.rank >= r && m != x ==>
          m.count == old(m.count) && m.names == old(m.names) && m.seen == old(m.seen))
    && (forall m <- f.mergers :: m != x ==>
          (m.seen.Keys == old(m.seen.Keys)
           && forall h <- m.seen :: h.rank >= r && h != g ==> m.seen[h] == old(m.seen)[h]))
  }

  lemma SettledAbove(r: nat, f: Network)
    requires Settled(f)
    ensures SeesAbove(f, r + 1) && TalliesAbove(f, r)
  {
    hide Counted, Named, Live;
  }

  // ---------- ActionGroup ----------

  class ActionGroup {
    var actions: set<Action>
    var observers: seq<ActionGroupMerger>  // connected to the signals, in connection order
    ghost const rank: nat                  // depth in the network

    constructor (ghost rank: nat)
      ensures actions == {} && observers == [] && this.rank == rank
    {
      actions, observers := {}, [];
      this.rank := rank;
    }

    method Add(action: Action, ghost f: Network)
      requires this in f.groups && action in f.live && Linked(f) && Live(f)
      requires SeesAbove(f, rank + 1) && TalliesAbove(f, rank)
      modifies f.groups`actions, f.mergers`count, f.mergers`names, f.mergers`seen
      ensures actions == old(actions) + {action} && Live(f)
      ensures SeesAbove(f, rank + 1) && TalliesAbove(f, rank) && OnlyAbove(f, rank, this, null)
      decreases rank, 2, 1
    {
      if action in actions {
        return;
      }
      hide Live;
      actions := actions + {action};
      EmitActionAdded(action, f);
    }

    method EmitActionAdded(action: Action, ghost f: Network)
      requires this in f.groups && action in f.live && action in actions && Linked(f) && Live(f)
      requires SeesAbove(f, rank) && TalliesAbove(f, rank)
      requires forall j | 0 <= j < |observers| :: this in observers[j].seen && observers[j].seen[this] == actions - {action}
      modifies f.groups`actions, f.mergers`count, f.mergers`names, f.mergers`seen
      ensures actions == old(actions) && Live(f) && TalliesAbove(f, rank) && SeesAbove(f, rank)
      ensures OnlyAbove(f, rank, this, null)
      ensures forall j | 0 <= j < |observers| :: this in observers[j].seen && observers[j].seen[this] == actions
      decreases rank, 2, 0
    {
      ghost var before := actions - {action};
      assert before + {action} == actions;
      hide Live, TalliesAbove;
      for i := 0 to |observers|
        invariant Live(f) && TalliesAbove(f, rank) && OnlyAbove(f, rank, this, null) && SeesAbove(f, rank)
        invariant actions == old(actions)
        invariant forall j | 0 <= j < |observers| ::
          this in observers[j].seen && observers[j].seen[this] == if j < i then actions else before
      {
        NotifyAdded(i, action, f);
      }
    }

    /** One delivery of the actionAdded signal. */
    method NotifyAdded(i: nat, action: Action, ghost f: Network)
      requires this in f.groups && i < |observers| && action in f.live && Linked(f) && Live(f)
      requires SeesAbove(f, rank) && TalliesAbove(f, rank)
      requires this in observers[i].seen && action !in observers[i].seen[this]
      modifies f.groups`actions, f.mergers`count, f.mergers`names, f.mergers`seen
      ensures Live(f) && SeesAbove(f, rank) && TalliesAbove(f, rank)
      ensures OnlyAbove(f, rank, this, null) && actions == old(actions)
      ensures this in observers[i].seen && observers[i].seen[this] == old(observers[i].seen[this]) + {action}
      ensures forall j | 0 <= j < |observers| && j != i && old(this in observers[j].seen) ::
                this in observers[j].seen && observers[j].seen[this] == old(observers[j].seen[this])
      decreases rank, 1
    {
      hide Live, Counted, Named;
      observers[i].NoConflict(action, f);
      observers[i].AddAction(action, this, f);
    }

    method Remove(action: Action, ghost f: Network)
      requires this in f.groups && Linked(f) && Live(f)
      requires SeesAbove(f, rank + 1) && TalliesAbove(f, rank)
      modifies f.groups`actions, f.mergers`count, f.mergers`names, f.mergers`seen
      ensures actions == old(actions) - {action} && Live(f)
      ensures SeesAbove(f, rank + 1) && TalliesAbove(f, rank) && OnlyAbove(f, rank, this, null)
      decreases rank, 2, 1
    {
      if action !in actions {
        return;
      }
      hide Live, TalliesAbove;
      EmitActionRemoved(action, f);
      actions := actions - {action};
    }

    method EmitActionRemoved(action: Action, ghost f: Network)
      requires this in f.groups && action in actions && Linked(f) && Live(f)
      requires SeesAbove(f, rank + 1) && TalliesAbove(f, rank)
      modifies f.groups`actions, f.mergers`count, f.mergers`names, f.mergers`seen
      ensures actions == old(actions) && Live(f) && TalliesAbove(f, rank) && SeesAbove(f, rank)
      ensures OnlyAbove(f, rank, this, null)
      ensures forall j | 0 <= j < |observers| :: this in observers[j].seen && observers[j].seen[this] == actions - {action}
      decreases rank, 2, 0
    {
      hide Live, TalliesAbove;
      for i := 0 to |observers|
        invariant Live(f) && TalliesAbove(f, rank) && OnlyAbove(f, rank, this, null) && SeesAbove(f, rank)
        invariant actions == old(actions)
        invariant forall j | 0 <= j < |observers| ::
          this in observers[j].seen && observers[j].seen[this] == if j < i then actions - {action} else actions
      {
        NotifyRemoved(i, action, f);
      }
    }

    /** One delivery of the actionRemoved signal. */
    method NotifyRemoved(i: nat, action: Action, ghost f: Network)
      requires this in f.groups && i < |observers| && Linked(f) && Live(f)
      requires SeesAbove(f, rank) && TalliesAbove(f, rank)
      requires this in observers[i].seen && action in observers[i].seen[this]
      modifies f.groups`actions, f.mergers`count, f.mergers`names, f.mergers`seen
      ensures Live(f) && SeesAbove(f, rank) && TalliesAbove(f, rank)
      ensures OnlyAbove(f, rank, this, null) && actions == old(actions)
      ensures this in observers[i].seen && observers[i].seen[this] == old(observers[i].seen[this]) - {action}
      ensures forall j | 0 <= j < |observers| && j != i && old(this in observers[j].seen) ::
                this in observers[j].seen && observers[j].seen[this] == old(observers[j].seen[this])
      decreases rank, 1
    {
      hide Live, Counted, Named;
      var ok := observers[i].RemoveAction(action, this, f);
    }

    /** An item adds an action to its own group, which no merger writes. */
    method AddToLeaf(action: Action, ghost f: Network)
      requires this in f.groups && action in f.live && Settled(f) && forall m <- f.mergers :: m.actionGroup != this
      modifies f.groups`actions, f.mergers`count, f.mergers`names, f.mergers`seen
      ensures actions == old(actions) + {action} && Settled(f)
    {
      hide Live, Tallies;
      SettledAbove(rank, f);
      Add(action, f);
      LeafSettled(f);
    }

    method RemoveFromLeaf(action: Action, ghost f: Network)
      requires this in f.groups && Settled(f) && forall m <- f.mergers :: m.actionGroup != this
      modifies f.groups`actions, f.mergers`count, f.mergers`names, f.mergers`seen
      ensures actions == old(actions) - {action} && Settled(f)
    {
      hide Live, Tallies;
      SettledAbove(rank, f);
      Remove(action, f);
      LeafSettled(f);
    }

    /** An edit of a group that no merger writes settles everywhere. */
    twostate lemma LeafSettled(f: Network)
      requires this in f.groups && old(Settled(f)) && forall m <- f.mergers :: m.actionGroup != this
      requires forall g <- f.groups :: g.observers == old(g.observers)
      requires forall m <- f.mergers :: m.groups == old(m.groups)
      requires Live(f) && SeesAbove(f, rank + 1) && TalliesAbove(f, rank) && OnlyAbove(f, rank, this, null)
      ensures Settled(f)
    {
      hide Counted, Named, Live;
      forall m <- f.mergers ensures Tallies(m) && Current(m) {
        if rank <= m.actionGroup.rank {
          assert old(Tallies(m)) && old(Current(m));
        }
        assert old(Current(m));
      }
    }
  }

  // ---------- ActionGroupMerger ----------

  class ActionGroupMerger {
    const actionGroup: ActionGroup
    var count: map<Action, nat>
    var names: map<string, Action>
    var groups: set<ActionGroup>
    ghost var seen: map<ActionGroup, set<Action>>  // the actions of each group, as far as this merger was told

    constructor (ghost rank: nat)
      ensures groups == {} && seen == map[] && Tallies(this)
      ensures fresh(actionGroup) && actionGroup.observers == [] && actionGroup.rank == rank
    {
      actionGroup := new ActionGroup(rank);
      count, names, groups, seen := map[], map[], {}, map[];
    }

    /** Another action has the same name. */
    predicate IsConflicting(action: Action)
      reads this`count, this`names
    {
      Conflicts(Books(), action)
    }

    function Books(): Tally
      reads this`count, this`names
    {
      Tally(count, names)
    }

    /** The action was added to the group `g`, which is registered or being registered here. */
    method AddAction(action: Action, ghost g: ActionGroup, ghost f: Network)
      requires this in f.mergers && g in seen && action !in seen[g] && actionGroup.rank < g.rank
      requires !IsConflicting(action) ==> action in f.live
      requires Linked(f) && Live(f) && Tallies(this)
      requires SeesAbove(f, actionGroup.rank + 1) && TalliesAbove(f, actionGroup.rank)
      modifies f.groups`actions, f.mergers`count, f.mergers`names, f.mergers`seen
      ensures Tallies(this) && Live(f) && Books() == Added(old(Books()), action)
      ensures seen == if old(IsConflicting(action)) then old(seen) else old(seen)[g := old(seen)[g] + {action}]
      ensures SeesAbove(f, actionGroup.rank + 1) && TalliesAbove(f, actionGroup.rank)
      ensures OnlyAbove(f, actionGroup.rank, actionGroup, this)
      decreases g.rank, 0
    {
      hide Live, Counted, Named, SeesAbove, TalliesAbove, Holders;
      if action.name in names {
        if names[action.name] != action {
          return;
        }
      }
      NamedAdd(names, count, action, (if action in count then count[action] else 0) + 1);
      CountedAdd(count, seen, g, action);
      EnterName(action, g, f);
      if action in count {
        Increment(action, f);
      } else {
        Publish(action, f);
      }
    }

    /** The name of an action, if it is new, is noted. */
    method EnterName(action: Action, ghost g: ActionGroup, ghost f: Network)
      requires this in f.mergers && g in seen && actionGroup.rank < g.rank && !IsConflicting(action)
      requires SeesAbove(f, actionGroup.rank + 1) && TalliesAbove(f, actionGroup.rank)
      modifies this`names, this`seen
      ensures names == old(names)[action.name := action] && seen == old(seen)[g := old(seen)[g] + {action}]
      ensures SeesAbove(f, actionGroup.rank + 1) && TalliesAbove(f, actionGroup.rank)
    {
      hide Counted, Named;
      if action.name !in names {
        names := names[action.name := action];
      }
      assert names == old(names)[action.name := action];
      Note(g, seen[g] + {action}, f);
    }

    method Increment(action: Action, ghost f: Network)
      requires this in f.mergers && action in count
      requires SeesAbove(f, actionGroup.rank + 1) && TalliesAbove(f, actionGroup.rank)
      modifies this`count
      ensures count == old(count)[action := old(count)[action] + 1]
      ensures SeesAbove(f, actionGroup.rank + 1) && TalliesAbove(f, actionGroup.rank)
    {
      hide Counted, Named;
      count := count[action := count[action] + 1];
    }

    /** Counts and publishes an action that no group held before. */
    method Publish(action: Action, ghost f: Network)
      requires this in f.mergers && action in f.live && Linked(f) && Live(f)
      requires SeesAbove(f, actionGroup.rank + 1) && TalliesAbove(f, actionGroup.rank)
      modifies f.groups`actions, f.mergers`count, f.mergers`names, f.mergers`seen
      ensures actionGroup.actions == old(actionGroup.actions) + {action} && Live(f)
      ensures names == old(names) && count == old(count)[action := 1] && seen == old(seen)
      ensures SeesAbove(f, actionGroup.rank + 1) && TalliesAbove(f, actionGroup.rank)
      ensures OnlyAbove(f, actionGroup.rank, actionGroup, this)
      decreases actionGroup.rank, 3
    {
      hide Live, Counted, Named, SeesAbove, Tallies;
      count := count[action := 1];
      actionGroup.Add(action, f);
    }

    /**
      * The action is about to leave the group `g`. If it has been counted, for this group among others, it is taken
      * back; otherwise the assertion fails and nothing happens.
      */
    method RemoveAction(action: Action, ghost g: ActionGroup, ghost f: Network) returns (ok: bool)
      requires this in f.mergers && g in seen && actionGroup.rank < g.rank && (action in count ==> action in seen[g])
      requires Linked(f) && Live(f) && Tallies(this)
      requires SeesAbove(f, actionGroup.rank + 1) && TalliesAbove(f, actionGroup.rank)
      modifies f.groups`actions, f.mergers`count, f.mergers`names, f.mergers`seen
      ensures (if ok then Some(Books()) else None) == Removed(old(Books()), action)
      ensures old(action in seen[g]) ==> ok
      ensures Tallies(this) && Live(f)
      ensures seen == if ok then old(seen)[g := old(seen)[g] - {action}] else old(seen)
      ensures SeesAbove(f, actionGroup.rank + 1) && TalliesAbove(f, actionGroup.rank)
      ensures OnlyAbove(f, actionGroup.rank, actionGroup, this)
      decreases g.rank, 0
    {
      hide Live, Counted, Named, SeesAbove, TalliesAbove;
      if action !in count {
        NotSeen(action, g);
        return false;
      }
      CountedRemove(count, seen, g, action);
      NamedRemove(names, count, action, count[action] - 1);
      Decrement(action, g, f);
      if count[action] == 0 {
        Forget(action, f);
        assert count == old(count) - {action};
      }
      ok := true;
    }

    /** An action that is not counted was seen in no group. */
    lemma NotSeen(action: Action, g: ActionGroup)
      requires Counted(count, seen) && action !in count && g in seen
      ensures action !in seen[g]
    {
    }

    method Decrement(action: Action, ghost g: ActionGroup, ghost f: Network)
      requires this in f.mergers && g in seen && actionGroup.rank < g.rank && action in count && count[action] > 0
      requires SeesAbove(f, actionGroup.rank + 1) && TalliesAbove(f, actionGroup.rank)
      modifies this`count, this`seen
      ensures count == old(count)[action := old(count)[action] - 1] && seen == old(seen)[g := old(seen)[g] - {action}]
      ensures SeesAbove(f, actionGroup.rank + 1) && TalliesAbove(f, actionGroup.rank)
    {
      hide Counted, Named;
      Note(g, seen[g] - {action}, f);
      count := count[action := count[action] - 1];
    }

    /** Removes an action that no group holds any more. */
    method Forget(action: Action, ghost f: Network)
      requires this in f.mergers && Linked(f) && Live(f)
      requires SeesAbove(f, actionGroup.rank + 1) && TalliesAbove(f, actionGroup.rank)
      modifies f.groups`actions, f.mergers`count, f.mergers`names, f.mergers`seen
      ensures actionGroup.actions == old(actionGroup.actions) - {action} && Live(f)
      ensures names == old(names) - {action.name} && count == old(count) - {action} && seen == old(seen)
      ensures SeesAbove(f, actionGroup.rank + 1) && TalliesAbove(f, actionGroup.rank)
      ensures OnlyAbove(f, actionGroup.rank, actionGroup, this)
      decreases actionGroup.rank, 3
    {
      actionGroup.Remove(action, f);
      hide SeesAbove, Live;
      names := names - {action.name};
      count := count - {action};
    }

    /** Updates what was seen of a group below this merger. */
    ghost method Note(g: ActionGroup, told: set<Action>, f: Network)
      requires this in f.mergers && actionGroup.rank < g.rank
      requires SeesAbove(f, actionGroup.rank + 1) && TalliesAbove(f, actionGroup.rank)
      modifies this`seen
      ensures seen == old(seen)[g := told]
      ensures SeesAbove(f, actionGroup.rank + 1) && TalliesAbove(f, actionGroup.rank)
    {
      hide Counted, Named;
      seen := seen[g := told];
    }

    /** Once edits of this merger's output have settled above it, all other mergers are settled. */
    twostate lemma OthersSettled(f: Network)
      requires this in f.mergers && Linked(f)
      requires old(forall m <- f.mergers, g <- m.groups :: g in f.groups && m.actionGroup.rank < g.rank)
      requires old(forall m <- f.mergers :: m != this ==> Tallies(m) && Current(m))
      requires forall g <- f.groups :: g.observers == old(g.observers)
      requires forall m <- f.mergers :: m.groups == old(m.groups)
      requires SeesAbove(f, actionGroup.rank + 1) && TalliesAbove(f, actionGroup.rank)
      requires OnlyAbove(f, actionGroup.rank, actionGroup, this)
      ensures forall m <- f.mergers :: m != this ==> Tallies(m) && Current(m)
    {
      hide Counted, Named, Live;
      forall m <- f.mergers | m != this ensures Tallies(m) && Current(m) {
        assert old(Tallies(m)) && old(Current(m));
      }
    }

    /** Adds all actions of a group that is being registered. */
    method AddAll(group: ActionGroup, ghost f: Network)
      requires this in f.mergers && group in f.groups && group !in groups && actionGroup.rank < group.rank && Settled(f)
      modifies f.groups`actions, f.mergers`count, f.mergers`names, f.mergers`seen
      ensures Tallies(this) && Live(f) && seen == old(seen)[group := group.actions]
      ensures OnlyAbove(f, actionGroup.rank, actionGroup, this)
      ensures forall m <- f.mergers :: m != this ==> Tallies(m) && Current(m)
    {
      SettledAbove(actionGroup.rank, f);
      AddEach(group, f);
      OthersSettled(f);
    }

    method AddEach(group: ActionGroup, ghost f: Network)
      requires this in f.mergers && group in f.groups && group !in seen && actionGroup.rank < group.rank
      requires Tallies(this) && Live(f) && Linked(f)
      requires SeesAbove(f, actionGroup.rank + 1) && TalliesAbove(f, actionGroup.rank)
      modifies f.groups`actions, f.mergers`count, f.mergers`names, f.mergers`seen
      ensures Tallies(this) && Live(f) && seen == old(seen)[group := old(group.actions)]
      ensures SeesAbove(f, actionGroup.rank + 1) && TalliesAbove(f, actionGroup.rank)
      ensures OnlyAbove(f, actionGroup.rank, actionGroup, this)
    {
      CountedEmpty(count, seen, group);
      hide Named, Counted, SeesAbove, TalliesAbove;
      Note(group, {}, f);
      var rest := group.actions;
      ghost var told: set<Action> := {};
      while rest != {}
        invariant told !! rest && told + rest == group.actions && seen == old(seen)[group := told]
        invariant Tallies(this) && Live(f) && OnlyAbove(f, actionGroup.rank, actionGroup, this)
        invariant SeesAbove(f, actionGroup.rank + 1) && TalliesAbove(f, actionGroup.rank)
      {
        var action :| action in rest;
        NoConflict(action, f);
        AddAction(action, group, f);
        rest, told := rest - {action}, told + {action};
      }
      assert told == group.actions;
    }

    lemma NoConflict(action: Action, f: Network)
      requires Tallies(this) && Live(f) && actionGroup in f.groups && action in f.live
      ensures !IsConflicting(action)
    {
    }

    /** Connects to the signals of a group and enters it. */
    method Connect(group: ActionGroup, ghost f: Network)
      requires this in f.mergers && group in f.groups && group !in groups && actionGroup.rank < group.rank
      requires Linked(f) && Live(f) && Tallies(this) && seen.Keys == groups + {group} && seen[group] == group.actions
      requires forall m <- f.mergers, g <- m.groups :: g in f.groups && m.actionGroup.rank < g.rank
      requires forall m <- f.mergers :: m != this ==> Tallies(m) && Current(m)
      requires forall g <- groups :: this in g.observers && seen[g] == g.actions
      modifies this`groups, group`observers
      ensures groups == old(groups) + {group} && Settled(f)
    {
      hide Counted, Named, Live, Linked;
      ConnectSignals(group, f);
      assert forall m <- f.mergers :: Tallies(m) && Current(m);
    }

    method ConnectSignals(group: ActionGroup, ghost f: Network)
      requires this in f.mergers && group in f.groups && group !in groups && actionGroup.rank < group.rank && Linked(f)
      modifies this`groups, group`observers
      ensures groups == old(groups) + {group} && group.observers == old(group.observers) + [this] && Linked(f)
    {
      group.observers := group.observers + [this];
      groups := groups + {group};
    }

    method AddGroup(group: ActionGroup, ghost f: Network)
      requires this in f.mergers && group in f.groups && actionGroup.rank < group.rank && Settled(f)
      modifies f.groups`actions, f.mergers`count, f.mergers`names, f.mergers`seen, this`groups, group`observers
      ensures groups == old(groups) + {group} && Settled(f)
    {
      hide Tallies, Live;
      if group in groups {
        return;
      }
      AddAll(group, f);
      assert forall g <- groups :: this in g.observers && seen[g] == g.actions;
      Connect(group, f);
    }

    /** Takes back all actions of a group that is being unregistered. */
    method RemoveEach(group: ActionGroup, ghost f: Network)
      requires this in f.mergers && group in f.groups && group in seen && actionGroup.rank < group.rank
      requires Tallies(this) && Live(f) && Linked(f) && seen[group] == group.actions
      requires SeesAbove(f, actionGroup.rank + 1) && TalliesAbove(f, actionGroup.rank)
      modifies f.groups`actions, f.mergers`count, f.mergers`names, f.mergers`seen
      ensures Tallies(this) && Live(f) && seen == old(seen)[group := {}]
      ensures SeesAbove(f, actionGroup.rank + 1) && TalliesAbove(f, actionGroup.rank)
      ensures OnlyAbove(f, actionGroup.rank, actionGroup, this)
    {
      hide Named, Counted, SeesAbove, TalliesAbove;
      var rest := group.actions;
      while rest != {}
        invariant rest <= group.actions && seen == old(seen)[group := rest]
        invariant Tallies(this) && Live(f) && OnlyAbove(f, actionGroup.rank, actionGroup, this)
        invariant SeesAbove(f, actionGroup.rank + 1) && TalliesAbove(f, actionGroup.rank)
      {
        var action :| action in rest;
        var ok := RemoveAction(action, group, f);
        rest := rest - {action};
      }
    }

    /** Disconnects from the signals of a group and unregisters it, while its actions are still counted. */
    method Disconnect(group: ActionGroup, ghost f: Network)
      requires this in f.mergers && group in groups && Settled(f)
      modifies this`groups, group`observers
      ensures groups == old(groups) - {group} && Linked(f) && Live(f)
      ensures Disconnected(group, f) && seen[group] == group.actions
      ensures SeesAbove(f, actionGroup.rank + 1) && TalliesAbove(f, actionGroup.rank)
      ensures forall m <- f.mergers :: m != this ==> Tallies(m) && Current(m)
    {
      hide Counted, Named, Live, Without, Linked;
      SettledAbove(actionGroup.rank, f);
      DisconnectSignals(group, f);
    }

    method DisconnectSignals(group: ActionGroup, ghost f: Network)
      requires this in f.mergers && group in f.groups && Linked(f)
      modifies this`groups, group`observers
      ensures groups == old(groups) - {group} && Linked(f)
      ensures forall m <- group.observers :: m in old(group.observers) && m != this
      ensures forall m <- old(group.observers) :: m != this ==> m in group.observers
    {
      hide Without;
      WithoutDistinctMembers(group.observers, this);
      group.observers := Without(group.observers, this);
      groups := groups - {group};
      forall i | 0 <= i < |group.observers|
        ensures group.observers[i] in f.mergers && group in group.observers[i].groups
        ensures group.observers[i].actionGroup.rank < group.rank
      {
        assert group.observers[i] in group.observers;
        assert group.observers[i] in old(group.observers) && group.observers[i] != this;
      }
    }

    /** Takes back the actions of the disconnected group and forgets the group. */
    method TakeBack(group: ActionGroup, ghost f: Network)
      requires Disconnected(group, f) && Linked(f) && Live(f)
      requires SeesAbove(f, actionGroup.rank + 1) && TalliesAbove(f, actionGroup.rank)
      requires seen[group] == group.actions
      requires forall m <- f.mergers :: m != this ==> Tallies(m) && Current(m)
      modifies f.groups`actions, f.mergers`count, f.mergers`names, f.mergers`seen
      ensures Disconnected(group, f) && Linked(f) && Live(f) && seen[group] == {}
      ensures forall m <- f.mergers :: m != this ==> Tallies(m) && Current(m)
    {
      hide SeesAbove, TalliesAbove, Live, Counted, Named;
      RemoveEach(group, f);
      OthersSettled(f);
    }

    /** The group is no longer registered, but still counted. */
    ghost predicate Disconnected(group: ActionGroup, f: Network)
      reads this, actionGroup`actions, f.groups, f.mergers`groups
    {
      && this in f.mergers && group in f.groups && group !in groups && actionGroup.rank < group.rank
      && Tallies(this) && seen.Keys == groups + {group}
      && (forall m <- f.mergers, g <- m.groups :: g in f.groups && m.actionGroup.rank < g.rank)
      && forall g <- groups :: g in f.groups && this in g.observers && seen[g] == g.actions
    }

    ghost method Forgotten(group: ActionGroup, f: Network)
      requires Disconnected(group, f) && Linked(f) && Live(f) && seen[group] == {}
      requires forall m <- f.mergers :: m != this ==> Tallies(m) && Current(m)
      modifies this`seen
      ensures Settled(f)
    {
      CountedEmpty(count, seen, group);
      hide Live, Counted, Named;
      seen := seen - {group};
    }

    method RemoveGroup(group: ActionGroup, ghost f: Network)
      requires this in f.mergers && Settled(f)
      modifies f.groups`actions, f.mergers`count, f.mergers`names, f.mergers`seen, this`groups, group`observers
      ensures groups == old(groups) - {group} && Settled(f)
    {
      if group !in groups {
        return;
      }
      hide Tallies, Live;
      Disconnect(group, f);
      TakeBack(group, f);
      Forgotten(group, f);
    }
  }

  // ---------- the union ----------

  /** Between events the output holds exactly the union of the registered groups, and counts how many hold each action. */
  lemma OutputIsUnion(m: ActionGroupMerger, f: Network)
    requires Settled(f) && m in f.mergers
    ensures m.actionGroup.actions == set g <- m.groups, a <- g.actions :: a
    ensures forall a <- m.count :: m.count[a] == |set g <- m.groups | a in g.actions| > 0
    ensures forall a <- m.actionGroup.actions :: a.name in m.names && m.names[a.name] == a
  {
    hide Linked, Live;
    assert Tallies(m) && Current(m);
    forall a <- m.count ensures Holders(m.seen, a) == set g <- m.groups | a in g.actions {}
    forall a <- m.count ensures exists g <- m.groups :: a in g.actions {
      var g :| g in Holders(m.seen, a);
    }
  }

  /** The actions of the groups below `g` that no merger writes. */
  ghost function LeafActions(f: Network, bound: nat, g: ActionGroup): set<Action>
    requires Settled(f) && g in f.groups && forall h <- f.groups :: h.rank < bound
    reads f.groups, f.mergers, set m <- f.mergers, h <- m.groups :: h
    decreases bound - g.rank
  {
    if exists m :: m in f.mergers && m.actionGroup == g then
      var m :| m in f.mergers && m.actionGroup == g;
      set h <- m.groups, a <- LeafActions(f, bound, h) :: a
    else g.actions
  }

  /** A network of mergers, shared groups included, publishes at every level the union of its leaves. */
  lemma {:induction false} ActionsAreLeafActions(f: Network, bound: nat, g: ActionGroup)
    requires Settled(f) && g in f.groups && forall h <- f.groups :: h.rank < bound
    ensures g.actions == LeafActions(f, bound, g)
    decreases bound - g.rank
  {
    if m: ActionGroupMerger :| m in f.mergers && m.actionGroup == g {
      OutputIsUnion(m, f);
      forall h <- m.groups ensures h.actions == LeafActions(f, bound, h) {
        ActionsAreLeafActions(f, bound, h);
      }
    }
  }
}
