/** The list model of VPN connections: the row changes it announces rebuild it. */
module ListModel {
  import opened OptionType

  datatype Kind = Openvpn | Pptp

  class VpnConnection {
    const path: string
    const kind: Kind

    constructor (path: string, kind: Kind)
      ensures this.path == path && this.kind == kind
    {
      this.path, this.kind := path, kind;
    }
  }

  // ---------- what an observer makes of the announcements ----------

  /** Rows were removed, or were inserted with the contents that the model then shows. */
  datatype RowChange =
    | RowsRemoved(first: int, last: int)
    | RowsInserted(first: int, last: int, contents: seq<VpnConnection>)

  /** The mirror after one change, nothing if the change names rows that are not there. */
  ghost function Applied(mirror: seq<VpnConnection>, change: RowChange): Option<seq<VpnConnection>> {
    match change
    case RowsRemoved(first, last) =>
      if 0 <= first <= last < |mirror| then Some(mirror[..first] + mirror[last + 1..]) else None
    case RowsInserted(first, last, contents) =>
      if 0 <= first <= |mirror| && first <= last && |contents| == last - first + 1
      then Some(mirror[..first] + contents + mirror[first..]) else None
  }

  /** The mirror after all changes, nothing if one of them named rows that were not there. */
  ghost function Replayed(mirror: seq<VpnConnection>, changes: seq<RowChange>): Option<seq<VpnConnection>> {
    if changes == [] then Some(mirror) else
      match Replayed(mirror, changes[..|changes| - 1])
      case None => None
      case Some(before) => Applied(before, changes[|changes| - 1])
  }

  /** Removed rows were there and are gone; the rows behind them move up. */
  lemma RemovalMeans(mirror: seq<VpnConnection>, first: int, last: int)
    ensures var after := Applied(mirror, RowsRemoved(first, last));
      && (after.Some? <==> 0 <= first <= last < |mirror|)
      && (after.Some? ==>
            && |after.value| == |mirror| - (last - first + 1)
            && (forall i :: 0 <= i < first ==> after.value[i] == mirror[i])
            && forall i :: first <= i < |after.value| ==> after.value[i] == mirror[i + (last - first + 1)])
  {
  }

  /** Inserted rows stand where they were announced; the rows behind them move down. */
  lemma InsertionMeans(mirror: seq<VpnConnection>, first: int, last: int, contents: seq<VpnConnection>)
    ensures var after := Applied(mirror, RowsInserted(first, last, contents));
      && (after.Some? <==> 0 <= first <= |mirror| && first <= last && |contents| == last - first + 1)
      && (after.Some? ==>
            && |after.value| == |mirror| + |contents|
            && (forall i :: 0 <= i < first ==> after.value[i] == mirror[i])
            && (forall i :: first <= i <= last ==> after.value[i] == contents[i - first])
            && forall i :: last < i < |after.value| ==> after.value[i] == mirror[i - |contents|])
  {
  }

  /** No changes leave the mirror as it is, and each further change is applied to what the ones before it left. */
  lemma ReplayedMeans(mirror: seq<VpnConnection>, changes: seq<RowChange>, change: RowChange)
    ensures Replayed(mirror, []) == Some(mirror)
    ensures Replayed(mirror, changes + [change])
         == if Replayed(mirror, changes).None? then None else Applied(Replayed(mirror, changes).value, change)
  {
    assert (changes + [change])[..|changes + [change]| - 1] == changes;
  }

  lemma ReplayedOneMore(mirror: seq<VpnConnection>, changes: seq<RowChange>, change: RowChange)
    requires Replayed(mirror, changes).Some?
    ensures Replayed(mirror, changes + [change]) == Applied(Replayed(mirror, changes).value, change)
  {
    assert (changes + [change])[..|changes + [change]| - 1] == changes;
  }

  lemma AppliedAtEnd(mirror: seq<VpnConnection>, added: seq<VpnConnection>)
    requires added != []
    ensures Applied(mirror, RowsInserted(|mirror|, |mirror| + |added| - 1, added)) == Some(mirror + added)
  {
    assert mirror[..|mirror|] + added + mirror[|mirror|..] == mirror + added;
  }

  // ---------- the connections that stay ----------

  ghost function Paths(connections: seq<VpnConnection>): set<string> {
    set c <- connections :: c.path
  }

  ghost predicate DistinctPaths(connections: seq<VpnConnection>) {
    forall i, j :: 0 <= i < j < |connections| ==> connections[i].path != connections[j].path
  }

  /** The connections with a path outside `gone`, in order. */
  ghost function Surviving(connections: seq<VpnConnection>, gone: set<string>): seq<VpnConnection> {
    if connections == [] then
      []
    else
      var last := connections[|connections| - 1];
      Surviving(connections[..|connections| - 1], gone) + if last.path in gone then [] else [last]
  }

  lemma PathsAppended(connections: seq<VpnConnection>, c: VpnConnection)
    ensures Paths(connections + [c]) == Paths(connections) + {c.path}
    ensures DistinctPaths(connections) && c.path !in Paths(connections) <==> DistinctPaths(connections + [c])
  {
    if DistinctPaths(connections) && c.path !in Paths(connections) {
      forall i, j | 0 <= i < j < |connections| + 1 ensures (connections + [c])[i].path != (connections + [c])[j].path {
        assert connections[i].path in Paths(connections);
      }
    }
    if DistinctPaths(connections + [c]) {
      assert forall i :: 0 <= i < |connections| ==> (connections + [c])[i].path != (connections + [c])[|connections|].path;
      assert forall i :: 0 <= i < |connections| ==> (connections + [c])[i] == connections[i];
    }
  }

  lemma {:induction false} SurvivingPaths(connections: seq<VpnConnection>, gone: set<string>)
    ensures Paths(Surviving(connections, gone)) == Paths(connections) - gone
    ensures DistinctPaths(connections) ==> DistinctPaths(Surviving(connections, gone))
  {
    hide Paths, DistinctPaths;
    if connections == [] {
      NoPaths();
    } else {
      var n := |connections| - 1;
      SurvivingPaths(connections[..n], gone);
      assert connections == connections[..n] + [connections[n]];
      PathsAppended(connections[..n], connections[n]);
      PathsAppended(Surviving(connections[..n], gone), connections[n]);
      assert Surviving(connections[..n], gone) + [] == Surviving(connections[..n], gone);
    }
  }

  /** Exactly the connections with other paths stay. */
  lemma {:induction false} SurvivingMembers(connections: seq<VpnConnection>, gone: set<string>)
    ensures forall c <- Surviving(connections, gone) :: c in connections && c.path !in gone
    ensures forall c <- connections :: c.path !in gone ==> c in Surviving(connections, gone)
  {
    if connections != [] {
      SurvivingMembers(connections[..|connections| - 1], gone);
    }
  }

  /** Those that stay keep their order. */
  lemma {:induction false} SurvivingInOrder(connections: seq<VpnConnection>, gone: set<string>, i: nat, j: nat)
      returns (k: nat, l: nat)
    requires i < j < |Surviving(connections, gone)|
    ensures k < l < |connections|
    ensures connections[k] == Surviving(connections, gone)[i] && connections[l] == Surviving(connections, gone)[j]
  {
    var n := |connections| - 1;
    var before := Surviving(connections[..n], gone);
    if j < |before| {
      k, l := SurvivingInOrder(connections[..n], gone, i, j);
    } else {
      SurvivingMembers(connections[..n], gone);
      assert before[i] in before;
      k :| 0 <= k < n && connections[..n][k] == before[i];
      l := n;
    }
  }

  lemma NoPaths()
    ensures Paths([]) == {}
  {
  }

  function KindOf(path: string, kinds: map<string, Kind>): Kind {
    if path in kinds && kinds[path] == Openvpn then Openvpn else Pptp
  }

  lemma SurvivingNone(gone: set<string>)
    ensures Surviving([], gone) == []
  {
  }

  lemma SurvivingOneMore(connections: seq<VpnConnection>, i: nat, gone: set<string>)
    requires i < |connections|
    ensures Surviving(connections[..i + 1], gone) ==
      Surviving(connections[..i], gone) + if connections[i].path in gone then [] else [connections[i]]
  {
    assert connections[..i + 1][..i] == connections[..i];
  }

  class VpnConnectionsListModel {
    var vpnConnections: seq<VpnConnection>
    var changes: seq<RowChange>  // announced so far

    constructor ()
      ensures vpnConnections == [] && changes == []
    {
      vpnConnections, changes := [], [];
    }

    /** The announcements since `from` turn the rows `before` into the present ones, each naming rows that are there. */
    ghost predicate Follows(before: seq<VpnConnection>, from: nat)
      reads this
    {
      from <= |changes| && Replayed(before, changes[from..]) == Some(vpnConnections)
    }

    /** Removes the rows of some paths, one by one. */
    method RemovePaths(toRemove: set<string>)
      modifies this
      ensures Follows(old(vpnConnections), |old(changes)|) && old(changes) <= changes
      ensures vpnConnections == Surviving(old(vpnConnections), toRemove)
    {
      hide Replayed, Applied, Surviving;
      var position := 0;  // of the list's iterator
      var idx := 0;
      ghost var seen := 0;
      ghost var before, from := vpnConnections, |changes|;
      NothingYet();
      SurvivingNone(toRemove);
      while position < |vpnConnections|
        invariant 0 <= idx == position <= |vpnConnections| && seen <= |before|
        invariant vpnConnections[..position] == Surviving(before[..seen], toRemove)
        invariant vpnConnections[position..] == before[seen..]
        invariant Follows(before, from) && old(changes) <= changes
        decreases |vpnConnections| - position
      {
        var vpnConnection := vpnConnections[position];
        SurvivingOneMore(before, seen, toRemove);
        if vpnConnection.path in toRemove {
          RowRemoved(before, from, idx);
          changes := changes + [RowsRemoved(idx, idx)];
          vpnConnections := vpnConnections[..position] + vpnConnections[position + 1..];
        } else {
          position := position + 1;
          idx := idx + 1;
        }
        seen := seen + 1;
      }
      assert before[..seen] == before;
    }

    /** Removing one row that is there, and announcing it. */
    lemma RowRemoved(before: seq<VpnConnection>, from: nat, row: nat)
      requires Follows(before, from) && row < |vpnConnections|
      ensures Replayed(before, (changes + [RowsRemoved(row, row)])[from..]) ==
                Some(vpnConnections[..row] + vpnConnections[row + 1..])
    {
      assert (changes + [RowsRemoved(row, row)])[from..] == changes[from..] + [RowsRemoved(row, row)];
      ReplayedOneMore(before, changes[from..], RowsRemoved(row, row));
    }

    /** Appending rows, if there are any, and announcing them. */
    lemma RowsAppended(before: seq<VpnConnection>, from: nat, removals: seq<RowChange>, between: seq<VpnConnection>)
      requires from <= |removals| && Replayed(before, removals[from..]) == Some(between) && between <= vpnConnections
      requires changes == removals + if between == vpnConnections then [] else
                 [RowsInserted(|between|, |vpnConnections| - 1, vpnConnections[|between|..])]
      ensures Follows(before, from)
    {
      hide Replayed, Applied;
      var added := vpnConnections[|between|..];
      assert vpnConnections == between + added;
      if added == [] {
        assert between == vpnConnections && changes == removals;
      } else {
        var change := RowsInserted(|between|, |between| + |added| - 1, added);
        assert changes[from..] == removals[from..] + [change];
        ReplayedOneMore(before, removals[from..], change);
        AppliedAtEnd(between, added);
      }
    }

    lemma NothingYet()
      ensures Follows(vpnConnections, |changes|)
    {
      assert changes[|changes|..] == [];
    }

    /** Appends a new connection for each of some paths. */
    method CreateConnections(toAdd: set<string>, kinds: map<string, Kind>)
      requires DistinctPaths(vpnConnections) && Paths(vpnConnections) !! toAdd
      modifies this`vpnConnections
      ensures DistinctPaths(vpnConnections) && Paths(vpnConnections) == old(Paths(vpnConnections)) + toAdd
      ensures old(vpnConnections) <= vpnConnections && |vpnConnections| == |old(vpnConnections)| + |toAdd|
      ensures forall i :: |old(vpnConnections)| <= i < |vpnConnections| ==>
                fresh(vpnConnections[i]) && vpnConnections[i].kind == KindOf(vpnConnections[i].path, kinds)
    {
      hide Paths, DistinctPaths, KindOf;
      var rest := toAdd;
      while rest != {}
        invariant rest <= toAdd && old(vpnConnections) <= vpnConnections
        invariant |vpnConnections| + |rest| == |old(vpnConnections)| + |toAdd|
        invariant DistinctPaths(vpnConnections) && Paths(vpnConnections) == old(Paths(vpnConnections)) + (toAdd - rest)
        invariant forall i :: |old(vpnConnections)| <= i < |vpnConnections| ==>
                    fresh(vpnConnections[i]) && vpnConnections[i].kind == KindOf(vpnConnections[i].path, kinds)
      {
        var path :| path in rest;
        var vpnConnection := new VpnConnection(path, KindOf(path, kinds));
        PathsAppended(vpnConnections, vpnConnection);
        vpnConnections := vpnConnections + [vpnConnection];
        rest := rest - {path};
      }
    }

    /** Appends a new connection for each of some paths, announced as one group of rows. */
    method AddPaths(toAdd: set<string>, kinds: map<string, Kind>)
      requires DistinctPaths(vpnConnections) && Paths(vpnConnections) !! toAdd
      modifies this
      ensures DistinctPaths(vpnConnections) && Paths(vpnConnections) == old(Paths(vpnConnections)) + toAdd
      ensures old(vpnConnections) <= vpnConnections && |vpnConnections| == |old(vpnConnections)| + |toAdd|
      ensures changes == old(changes) + if toAdd == {} then [] else
                [RowsInserted(|old(vpnConnections)|, |vpnConnections| - 1, vpnConnections[|old(vpnConnections)|..])]
      ensures forall i :: |old(vpnConnections)| <= i < |vpnConnections| ==>
                fresh(vpnConnections[i]) && vpnConnections[i].kind == KindOf(vpnConnections[i].path, kinds)
    {
      hide Paths, DistinctPaths, KindOf;
      if toAdd != {} {
        var first, last := |vpnConnections|, |vpnConnections| + |toAdd| - 1;
        CreateConnections(toAdd, kinds);
        changes := changes + [RowsInserted(first, last, vpnConnections[first..last + 1])];
        assert vpnConnections[first..last + 1] == vpnConnections[first..];
      }
    }

    /** The paths shown. */
    method Current() returns (current: set<string>)
      ensures current == Paths(vpnConnections)
    {
      hide Paths, DistinctPaths;
      NoPaths();
      current := {};
      for i := 0 to |vpnConnections|
        invariant current == Paths(vpnConnections[..i])
      {
        PathsAppended(vpnConnections[..i], vpnConnections[i]);
        assert vpnConnections[..i + 1] == vpnConnections[..i] + [vpnConnections[i]];
        current := current + {vpnConnections[i].path};
      }
      assert vpnConnections[..|vpnConnections|] == vpnConnections;
    }

    /** Removes the rows that are no longer wanted, and appends those that are missing. */
    method UpdateRows(paths: set<string>, kinds: map<string, Kind>) returns (ghost kept: seq<VpnConnection>)
      requires DistinctPaths(vpnConnections)
      modifies this
      ensures Follows(old(vpnConnections), |old(changes)|) && old(changes) <= changes
      ensures DistinctPaths(vpnConnections) && Paths(vpnConnections) == paths
      ensures kept == Surviving(old(vpnConnections), old(Paths(vpnConnections)) - paths) && kept <= vpnConnections
      ensures forall i :: |kept| <= i < |vpnConnections| ==>
                fresh(vpnConnections[i]) && vpnConnections[i].kind == KindOf(vpnConnections[i].path, kinds)
    {
      hide Paths, DistinctPaths, KindOf, Surviving, Replayed, Applied;
      var current := Current();
      SurvivingPaths(vpnConnections, current - paths);
      RemovePaths(current - paths);
      ghost var from, between := |old(changes)|, vpnConnections;
      ghost var removals := changes;
      AddPaths(paths - current, kinds);
      RowsAppended(old(vpnConnections), from, removals, between);
      kept := between;
    }

    /** What the rows are after an update, row by row. */
    lemma Updated(before: seq<VpnConnection>, kept: seq<VpnConnection>, paths: set<string>)
      requires DistinctPaths(before) && Paths(vpnConnections) == paths
      requires kept <= vpnConnections && kept == Surviving(before, Paths(before) - paths)
      ensures (forall c <- vpnConnections :: c.path in paths) && forall p <- paths :: exists c <- vpnConnections :: c.path == p
      ensures forall c <- before :: c.path in paths ==> c in vpnConnections[..|kept|]
      ensures forall c <- vpnConnections[..|kept|] :: c in before
      ensures forall i, j, k, l | 0 <= i < j < |kept| && 0 <= k < |before| && 0 <= l < |before| ::
                vpnConnections[i] == before[k] && vpnConnections[j] == before[l] ==> k < l
    {
      var gone := Paths(before) - paths;
      assert vpnConnections[..|kept|] == kept;
      SurvivingMembers(before, gone);
      forall i, j, k, l | 0 <= i < j < |kept| && 0 <= k < |before| && 0 <= l < |before| && kept[i] == before[k] && kept[j] == before[l]
        ensures k < l
      {
        var m, n := SurvivingInOrder(before, gone, i, j);
        assert before[m].path == before[k].path && before[n].path == before[l].path;
      }
    }

    /**
      * Shows exactly the connections at `paths`: those already shown stay, in order, and new ones of the kinds given
      * follow; `kept` is the number of those that stay. An observer that repeats the announced changes shows the same.
      */
    method UpdatePaths(paths: set<string>, kinds: map<string, Kind>) returns (ghost kept: nat)
      requires forall i, j :: 0 <= i < j < |vpnConnections| ==> vpnConnections[i].path != vpnConnections[j].path
      modifies this
      ensures old(changes) <= changes && Replayed(old(vpnConnections), changes[|old(changes)|..]) == Some(vpnConnections)
      ensures forall i, j :: 0 <= i < j < |vpnConnections| ==> vpnConnections[i].path != vpnConnections[j].path
      ensures (forall c <- vpnConnections :: c.path in paths) && forall p <- paths :: exists c <- vpnConnections :: c.path == p
      ensures kept <= |vpnConnections| && forall c <- vpnConnections[..kept] :: c in old(vpnConnections)
      ensures forall c <- old(vpnConnections) :: c.path in paths ==> c in vpnConnections[..kept]
      ensures forall i, j, k, l | 0 <= i < j < kept && 0 <= k < |old(vpnConnections)| && 0 <= l < |old(vpnConnections)| ::
                vpnConnections[i] == old(vpnConnections)[k] && vpnConnections[j] == old(vpnConnections)[l] ==> k < l
      ensures forall i :: kept <= i < |vpnConnections| ==>
                var c := vpnConnections[i];
                fresh(c) && c.kind == if c.path in kinds && kinds[c.path] == Openvpn then Openvpn else Pptp
    {
      hide Paths, Surviving, Replayed, Applied;
      var stay := UpdateRows(paths, kinds);
      kept := |stay|;
      Updated(old(vpnConnections), stay, paths);
    }
  }
}
