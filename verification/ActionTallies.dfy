/** The counts and names that a merger keeps of announced actions, over any run, with or without name conflicts. */
module ActionTallies {
  import opened OptionType

  datatype Action = Action(id: nat, name: string)

  /** How many announcements of each action were accepted and not withdrawn, and which action each name stands for. */
  datatype Tally = Tally(count: map<Action, nat>, names: map<string, Action>)

  function CountOf(t: Tally, a: Action): nat {
    if a in t.count then t.count[a] else 0
  }

  /** Another action has the same name. */
  predicate Conflicts(t: Tally, a: Action) {
    a.name in t.names && t.names[a.name] != a
  }

  /** One announcement: ignored if the name stands for another action. */
  function Added(t: Tally, a: Action): Tally {
    if Conflicts(t, a) then t else Tally(t.count[a := CountOf(t, a) + 1], t.names[a.name := a])
  }

  /** One withdrawal; the assertion that the action is counted fails if it is not. */
  function Removed(t: Tally, a: Action): Option<Tally> {
    if a !in t.count then None
    else if t.count[a] <= 1 then Some(Tally(t.count - {a}, t.names - {a.name}))
    else Some(Tally(t.count[a := t.count[a] - 1], t.names))
  }

  // ---------- counting ----------

  /** The groups that were seen to contain `a`. */
  ghost function Holders<G>(seen: map<G, set<Action>>, a: Action): set<G> {
    set g <- seen | a in seen[g]
  }

  /** Exactly the actions seen in some group are counted, each with the number of groups that contain it. */
  ghost predicate Counted<G>(count: map<Action, nat>, seen: map<G, set<Action>>) {
    && (forall g <- seen, a <- seen[g] :: a in count)
    && forall a <- count :: count[a] == |Holders(seen, a)| > 0
  }

  /** The names index exactly the counted actions. */
  ghost predicate Named(names: map<string, Action>, count: map<Action, nat>) {
    && (forall n <- names :: names[n] in count && names[n].name == n)
    && forall a <- count :: a.name in names && names[a.name] == a
  }

  lemma CountedAdd<G>(count: map<Action, nat>, seen: map<G, set<Action>>, g: G, a: Action)
    requires Counted(count, seen) && g in seen && a !in seen[g]
    ensures Counted(count[a := (if a in count then count[a] else 0) + 1], seen[g := seen[g] + {a}])
  {
    var after := seen[g := seen[g] + {a}];
    assert Holders(after, a) == Holders(seen, a) + {g};
    if a !in count {
      assert Holders(seen, a) == {};
    }
    forall b | b != a ensures Holders(after, b) == Holders(seen, b) {}
  }

  lemma CountedRemove<G>(count: map<Action, nat>, seen: map<G, set<Action>>, g: G, a: Action)
    requires Counted(count, seen) && g in seen && a in seen[g]
    ensures a in count && count[a] > 0
    ensures Counted(if count[a] == 1 then count - {a} else count[a := count[a] - 1], seen[g := seen[g] - {a}])
  {
    var after := seen[g := seen[g] - {a}];
    assert Holders(after, a) == Holders(seen, a) - {g};
    forall b | b != a ensures Holders(after, b) == Holders(seen, b) {}
    if count[a] == 1 {
      assert |Holders(after, a)| == 0;
      forall h <- after, b <- after[h] ensures b in count - {a} {
        assert b == a ==> h in Holders(after, a);
      }
    }
  }

  lemma NamedAdd(names: map<string, Action>, count: map<Action, nat>, a: Action, n: nat)
    requires Named(names, count) && (a.name in names ==> names[a.name] == a)
    ensures Named(names[a.name := a], count[a := n])
    ensures a.name in names <==> a in count
  {
  }

  lemma NamedRemove(names: map<string, Action>, count: map<Action, nat>, a: Action, n: nat)
    requires Named(names, count) && a in count
    ensures Named(names - {a.name}, count - {a}) && Named(names, count[a := n])
  {
  }

  /** A group that was seen empty counts for nothing. */
  lemma CountedEmpty<G>(count: map<Action, nat>, seen: map<G, set<Action>>, g: G)
    ensures Counted(count, seen) && g !in seen ==> Counted(count, seen[g := {}])
    ensures Counted(count, seen) && g in seen && seen[g] == {} ==> Counted(count, seen - {g})
  {
    if g !in seen {
      forall a ensures Holders(seen[g := {}], a) == Holders(seen, a) {}
    } else if seen[g] == {} {
      forall a ensures Holders(seen - {g}, a) == Holders(seen, a) {}
    }
  }

  // ---------- runs ----------

  /** A group announces an action to the merger, or withdraws it. */
  datatype Step<G> = Announced(group: G, action: Action) | Withdrawn(group: G, action: Action)

  ghost function HeldBy<G>(seen: map<G, set<Action>>, g: G): set<Action> {
    if g in seen then seen[g] else {}
  }

  ghost function After<G>(seen: map<G, set<Action>>, step: Step<G>): map<G, set<Action>> {
    match step
    case Announced(g, a) => seen[g := HeldBy(seen, g) + {a}]
    case Withdrawn(g, a) => seen[g := HeldBy(seen, g) - {a}]
  }

  /** What the registered groups hold after a run. */
  ghost function Seen<G>(run: seq<Step<G>>): map<G, set<Action>> {
    if run == [] then map[] else After(Seen(run[..|run| - 1]), run[|run| - 1])
  }

  /** A group announces what it does not hold yet, and withdraws what it holds. */
  ghost predicate Possible<G>(run: seq<Step<G>>) {
    run == [] ||
    var before, last := run[..|run| - 1], run[|run| - 1];
    Possible(before) && (last.Announced? <==> last.action !in HeldBy(Seen(before), last.group))
  }

  /** A group holds the actions that it announced and has not withdrawn since. */
  lemma {:induction false} HeldIsLastStep<G>(run: seq<Step<G>>, g: G, a: Action)
    ensures a in HeldBy(Seen(run), g) <==>
      exists i :: 0 <= i < |run| && run[i] == Announced(g, a) && forall j :: i < j < |run| ==> run[j] != Withdrawn(g, a)
  {
    if run != [] {
      var n := |run| - 1;
      HeldIsLastStep(run[..n], g, a);
      if run[n] == Announced(g, a) {
        assert a in HeldBy(Seen(run), g);
      } else if i :| 0 <= i < n && run[i] == Announced(g, a) && forall j :: i < j < |run| ==> run[j] != Withdrawn(g, a) {
        assert run[..n][i] == Announced(g, a) && forall j :: i < j < n ==> run[..n][j] == run[j];
      }
      assert forall j :: 0 <= j < n ==> run[..n][j] == run[j];
    }
  }

  /** What the merger keeps after a run, nothing once the assertion has failed. */
  ghost function Tallied<G>(run: seq<Step<G>>): Option<Tally> {
    if run == [] then Some(Tally(map[], map[])) else
      match Tallied(run[..|run| - 1])
      case None => None
      case Some(t) =>
        match run[|run| - 1]
        case Announced(_, a) => Some(Added(t, a))
        case Withdrawn(_, a) => Removed(t, a)
  }

  /** How often in the run the merger ignored an announcement of `a`. */
  ghost function Ignored<G>(run: seq<Step<G>>, a: Action): nat {
    if run == [] then 0 else
      var before, last := run[..|run| - 1], run[|run| - 1];
      Ignored(before, a) +
      if last.Announced? && last.action == a && Tallied(before).Some? && Conflicts(Tallied(before).value, a) then 1 else 0
  }

  /** Two different actions with the same name are held. */
  ghost predicate Clash<G>(seen: map<G, set<Action>>) {
    exists g <- seen, h <- seen, a <- seen[g], b <- seen[h] :: a.name == b.name && a != b
  }

  /** At no moment of the run were two different actions with the same name held. */
  ghost predicate NeverClashes<G>(run: seq<Step<G>>) {
    !Clash(Seen(run)) && (run == [] || NeverClashes(run[..|run| - 1]))
  }

  ghost predicate NothingHeld<G>(seen: map<G, set<Action>>) {
    forall g <- seen :: seen[g] == {}
  }

  ghost function AllHeld<G>(seen: map<G, set<Action>>): set<Action> {
    set g <- seen, a <- seen[g] :: a
  }

  /** Names index the counted actions, and no count is zero. */
  ghost predicate Orderly(t: Tally) {
    Named(t.names, t.count) && forall a <- t.count :: t.count[a] > 0
  }

  lemma AddedIsOrderly(t: Tally, a: Action)
    requires Orderly(t)
    ensures Orderly(Added(t, a))
    ensures forall b :: CountOf(Added(t, a), b) == CountOf(t, b) + if b == a && !Conflicts(t, a) then 1 else 0
  {
  }

  lemma RemovedIsOrderly(t: Tally, a: Action)
    requires Orderly(t)
    ensures Removed(t, a).None? <==> CountOf(t, a) == 0
    ensures Removed(t, a).Some? ==> Orderly(Removed(t, a).value)
    ensures Removed(t, a).Some? ==>
              forall b :: CountOf(Removed(t, a).value, b) == CountOf(t, b) - if b == a then 1 else 0
  {
  }

  /** The books of a run: whoever holds an action was counted, or was ignored. */
  ghost predicate Balanced<G>(run: seq<Step<G>>, t: Tally) {
    Orderly(t) && forall a :: |Holders(Seen(run), a)| == CountOf(t, a) + Ignored(run, a)
  }

  lemma HoldersAfter<G>(seen: map<G, set<Action>>, step: Step<G>, a: Action)
    ensures Holders(After(seen, step), a) ==
      if a != step.action then Holders(seen, a)
      else if step.Announced? then Holders(seen, a) + {step.group} else Holders(seen, a) - {step.group}
    ensures step.group in Holders(seen, step.action) <==> step.action in HeldBy(seen, step.group)
  {
  }

  lemma {:induction false} RunIsBalanced<G>(run: seq<Step<G>>)
    requires Possible(run) && Tallied(run).Some?
    ensures Balanced(run, Tallied(run).value)
  {
    hide Holders, After, Orderly, Added, Removed, CountOf, Conflicts, HeldBy;
    if run == [] {
      NothingIsBalanced<G>();
    } else {
      var before, last := run[..|run| - 1], run[|run| - 1];
      RunIsBalanced(before);
      AddedIsOrderly(Tallied(before).value, last.action);
      RemovedIsOrderly(Tallied(before).value, last.action);
      forall a ensures |Holders(Seen(run), a)| == CountOf(Tallied(run).value, a) + Ignored(run, a) {
        HoldersAfter(Seen(before), last, a);
      }
    }
  }

  lemma NothingIsBalanced<G>()
    ensures Balanced<G>([], Tally(map[], map[]))
  {
    assert Seen<G>([]) == map[];
    forall a ensures Holders<G>(map[], a) == {} {}
  }

  /** The assertion fails on a withdrawal exactly if as many announcements of the action were ignored as groups hold it. */
  lemma RemovalFailsIff<G>(run: seq<Step<G>>, g: G, a: Action)
    requires Possible(run) && Tallied(run).Some? && a in HeldBy(Seen(run), g)
    ensures Tallied(run + [Withdrawn(g, a)]) == None <==> |Holders(Seen(run), a)| == Ignored(run, a)
  {
    RunIsBalanced(run);
    var after := run + [Withdrawn(g, a)];
    assert after[..|after| - 1] == run;
    RemovedIsOrderly(Tallied(run).value, a);
  }

  // ---------- name clashes ----------

  lemma OutputHasNoClash<G>(run: seq<Step<G>>)
    requires Possible(run) && Tallied(run).Some? && AllHeld(Seen(run)) <= Tallied(run).value.count.Keys
    ensures !Clash(Seen(run))
  {
    RunIsBalanced(run);
    var t := Tallied(run).value;
    forall g <- Seen(run), h <- Seen(run), a <- Seen(run)[g], b <- Seen(run)[h] | a.name == b.name ensures a == b {
      assert a in AllHeld(Seen(run)) && b in AllHeld(Seen(run));
      assert t.names[a.name] == a && t.names[b.name] == b;
    }
  }

  /** An announcement that is ignored makes a clash. */
  lemma IgnoredIsClash<G>(run: seq<Step<G>>)
    requires run != [] && Possible(run) && run[|run| - 1].Announced?
    requires var before := run[..|run| - 1];
      && Tallied(before).Some? && Conflicts(Tallied(before).value, run[|run| - 1].action)
      && Tallied(before).value.count.Keys == AllHeld(Seen(before))
    ensures Clash(Seen(run))
  {
    var before, last := run[..|run| - 1], run[|run| - 1];
    RunIsBalanced(before);
    var b := Tallied(before).value.names[last.action.name];
    assert b in AllHeld(Seen(before));
    var h :| h in Seen(before) && b in Seen(before)[h];
    assert b in Seen(run)[h] && last.action in Seen(run)[last.group];
  }

  /** Without a clash nothing is ignored, the assertion holds, and exactly the held actions are counted. */
  lemma {:induction false} NoClashNoFailure<G>(run: seq<Step<G>>)
    requires Possible(run) && NeverClashes(run)
    ensures Tallied(run).Some? && (forall a :: Ignored(run, a) == 0)
    ensures Tallied(run).value.count.Keys == AllHeld(Seen(run))
  {
    hide Clash, Added, Removed, Conflicts, After, Holders, AllHeld, Seen, Orderly;
    if run != [] {
      var before, last := run[..|run| - 1], run[|run| - 1];
      NoClashNoFailure(before);
      if last.Announced? {
        if Conflicts(Tallied(before).value, last.action) {
          IgnoredIsClash(run);
        }
      } else {
        RunIsBalanced(before);
        HoldersAfter(Seen(before), last, last.action);
        RemovedIsOrderly(Tallied(before).value, last.action);
      }
    }
    HeldIsCounted(run);
  }

  lemma HeldIsCounted<G>(run: seq<Step<G>>)
    requires Possible(run) && Tallied(run).Some? && forall a :: Ignored(run, a) == 0
    ensures Tallied(run).value.count.Keys == AllHeld(Seen(run))
  {
    RunIsBalanced(run);
    var t := Tallied(run).value;
    forall a ensures a in t.count <==> a in AllHeld(Seen(run)) {
      assert a in AllHeld(Seen(run)) <==> Holders(Seen(run), a) != {} by {
        if a in AllHeld(Seen(run)) {
          var g :| g in Seen(run) && a in Seen(run)[g];
          assert g in Holders(Seen(run), a);
        }
      }
    }
  }

  /** If nothing was ever ignored and the assertion never failed, there never was a clash. */
  lemma {:induction false} NothingIgnoredNoClash<G>(run: seq<Step<G>>)
    requires Possible(run) && Tallied(run).Some? && forall a :: Ignored(run, a) == 0
    ensures NeverClashes(run)
  {
    HeldIsCounted(run);
    OutputHasNoClash(run);
    if run != [] {
      var before := run[..|run| - 1];
      forall a ensures Ignored(before, a) == 0 {
        assert Ignored(run, a) == 0;
      }
      NothingIgnoredNoClash(before);
    }
  }

  /** A run that takes everything back passes all assertions exactly if it never had two actions of one name at a time. */
  lemma TornDownIff<G>(run: seq<Step<G>>)
    requires Possible(run) && NothingHeld(Seen(run))
    ensures Tallied(run).Some? <==> NeverClashes(run)
  {
    if Tallied(run).Some? {
      RunIsBalanced(run);
      forall a ensures Ignored(run, a) == 0 {
        assert Holders(Seen(run), a) == {};
      }
      NothingIgnoredNoClash(run);
    } else if NeverClashes(run) {
      NoClashNoFailure(run);
    }
  }

  /** After the first `n` steps the assertion has held, and the counted actions are the union of what is held. */
  ghost predicate UnionAt<G>(run: seq<Step<G>>, n: nat)
    requires n <= |run|
  {
    Tallied(run[..n]).Some? && Tallied(run[..n]).value.count.Keys == AllHeld(Seen(run[..n]))
  }

  /** The output is the union at every moment of a run exactly if the run never had two actions of one name at a time. */
  lemma {:induction false} AlwaysUnionIff<G>(run: seq<Step<G>>)
    requires Possible(run)
    ensures (forall n: nat :: n <= |run| ==> UnionAt(run, n)) <==> NeverClashes(run)
  {
    assert run[..|run|] == run;
    if run == [] {
      NoClashNoFailure(run);
    } else {
      var before := run[..|run| - 1];
      AlwaysUnionIff(before);
      forall n: nat | n < |run| ensures UnionAt(run, n) == UnionAt(before, n) {
        assert before[..n] == run[..n];
      }
      if NeverClashes(run) {
        NoClashNoFailure(run);
        assert UnionAt(run, |run|);
      } else if UnionAt(run, |run|) {
        OutputHasNoClash(run);
      }
    }
  }

  /** One more step. */
  lemma OneMore<G>(run: seq<Step<G>>, step: Step<G>)
    ensures Seen(run + [step]) == After(Seen(run), step)
    ensures Possible(run + [step]) <==> Possible(run) && (step.Announced? <==> step.action !in HeldBy(Seen(run), step.group))
    ensures Tallied(run).Some? && step.Announced? ==> Tallied(run + [step]) == Some(Added(Tallied(run).value, step.action))
    ensures Tallied(run).Some? && step.Withdrawn? ==> Tallied(run + [step]) == Removed(Tallied(run).value, step.action)
  {
    assert (run + [step])[..|run + [step]| - 1] == run;
  }

  /** Two groups with equal names: the second action is ignored, and withdrawing it fails. */
  lemma IgnoredThenWithdrawn(x: Action, y: Action)
    requires x != y && x.name == y.name
    ensures var run := [Announced(0, x)] + [Announced(1, y)] + [Withdrawn(1, y)]; Possible(run) && Tallied(run) == None
  {
    assert [] + [Announced(0, x)] == [Announced(0, x)];
    OneMore([], Announced(0, x));
    OneMore([Announced(0, x)], Announced(1, y));
    OneMore([Announced(0, x)] + [Announced(1, y)], Withdrawn(1, y));
  }

  /** The assertion may also pass and take an action out of the output that another group still holds. */
  lemma WithdrawnForAnother(x: Action, y: Action)
    requires x != y && x.name == y.name
    ensures var run := [Announced(0, x)] + [Announced(1, y)] + [Withdrawn(0, x)] + [Announced(2, y)] + [Withdrawn(1, y)];
      && Possible(run) && Tallied(run).Some?
      && y in AllHeld(Seen(run)) && y !in Tallied(run).value.count
  {
    assert [] + [Announced(0, x)] == [Announced(0, x)];
    OneMore([], Announced(0, x));
    var run := [Announced(0, x)];
    OneMore(run, Announced(1, y));
    run := run + [Announced(1, y)];
    OneMore(run, Withdrawn(0, x));
    run := run + [Withdrawn(0, x)];
    OneMore(run, Announced(2, y));
    run := run + [Announced(2, y)];
    OneMore(run, Withdrawn(1, y));
    run := run + [Withdrawn(1, y)];
    assert y in Seen(run)[2];
  }
}
