/** latitude/substratestate.go: the persisted machine index and the server index derived from it. */
module SubstrateIndices {
  import opened Machines

  datatype MachineState = MachineState(
    machineId: string,
    serverId: string,
    hostKey: string,
    userDataId: string,
    clusterId: string)

  datatype Tables = Tables(byMachine: map<string, MachineState>, byServer: map<string, string>)

  const NO_TABLES := Tables(map[], map[])

  /* ---- the operations as functions ---- */

  function Upserted(t: Tables, st: MachineState): Tables {
    var freed :=
      if st.machineId in t.byMachine && t.byMachine[st.machineId].serverId != ""
          && t.byMachine[st.machineId].serverId != st.serverId
      then t.byServer - {t.byMachine[st.machineId].serverId} else t.byServer;
    Tables(t.byMachine[st.machineId := st], if st.serverId != "" then freed[st.serverId := st.machineId] else freed)
  }

  function Rebound(t: Tables, server: string, cluster: string): Tables
    requires Consistent(t)
  {
    if server in t.byServer
    then t.(byMachine := t.byMachine[t.byServer[server] := t.byMachine[t.byServer[server]].(clusterId := cluster)])
    else t
  }

  function Removed(t: Tables, server: string): Tables
    requires Consistent(t)
  {
    if server in t.byServer
    then Tables(t.byMachine - {t.byServer[server]}, t.byServer - {server}) else t
  }

  /** newSubstrateIndex on the decoded entries; None stands for a JSON null. */
  function Loaded(entries: seq<Option<MachineState>>): Tables {
    if |entries| == 0 then NO_TABLES
    else Admitted(Loaded(entries[..|entries| - 1]), entries[|entries| - 1])
  }

  function Admitted(t: Tables, e: Option<MachineState>): Tables {
    if e == None || e.value.machineId == "" then t
    else Tables(t.byMachine[e.value.machineId := e.value],
                if e.value.serverId != "" then t.byServer[e.value.serverId := e.value.machineId] else t.byServer)
  }

  /* ---- what always holds ---- */

  /** A server names a machine that is there and that names the server back. */
  ghost predicate Consistent(t: Tables) {
    && (forall m :: m in t.byMachine ==> t.byMachine[m].machineId == m && m != "")
    && (forall s :: s in t.byServer ==>
          s != "" && t.byServer[s] in t.byMachine && t.byMachine[t.byServer[s]].serverId == s)
  }

  ghost predicate Unshared(t: Tables) {
    forall a, b :: a in t.byMachine && b in t.byMachine && SameServer(t.byMachine[a], t.byMachine[b]) ==> a == b
  }

  predicate SameServer(a: MachineState, b: MachineState) {
    a.serverId != "" && a.serverId == b.serverId
  }

  /** The two maps are exact inverses of one another. */
  ghost predicate Inverse(t: Tables) {
    && Consistent(t)
    && forall m :: m in t.byMachine && t.byMachine[m].serverId != "" ==>
         t.byMachine[m].serverId in t.byServer && t.byServer[t.byMachine[m].serverId] == m
  }

  class SubstrateIndex {
    const path: string
    var byMachine: map<string, MachineState>
    var byServer: map<string, string>
    var disk: seq<Option<MachineState>>

    function Contents(): Tables
      reads this
    {
      Tables(byMachine, byServer)
    }

    ghost predicate Valid()
      reads this
    {
      Consistent(Contents())
    }

    /** The file as the last save left it; an absent file is the empty list. */
    constructor (path: string, entries: seq<Option<MachineState>>)
      ensures this.path == path && disk == entries
      ensures Valid() <==> path == "" || Settled(entries)
      ensures Contents() == if path == "" then NO_TABLES else Loaded(entries)
    {
      this.path, disk := path, entries;
      byMachine, byServer := map[], map[];
      new;
      if path != "" {
        for k := 0 to |entries|
          invariant disk == entries
          invariant Contents() == Loaded(entries[..k])
        {
          assert entries[..k + 1][..k] == entries[..k];
          var e := entries[k];
          if e.Some? && e.value.machineId != "" {
            byMachine := byMachine[e.value.machineId := e.value];
            if e.value.serverId != "" {
              byServer := byServer[e.value.serverId := e.value.machineId];
            }
          }
        }
        assert entries[..|entries|] == entries;
        ConsistentIfSettled(entries);
      }
    }

    method MachineByServer(server: string) returns (st: Option<MachineState>)
      requires Valid()
      ensures st.Some? <==> server in byServer
      ensures st.Some? ==> st.value.serverId == server
      ensures st.Some? ==> st.value.machineId in byMachine && byMachine[st.value.machineId] == st.value
    {
      if server !in byServer {
        return None;
      }
      return Some(byMachine[byServer[server]]);
    }

    method Upsert(st: MachineState) returns (ok: bool)
      requires Valid()
      modifies this
      ensures Valid() && ok == (st.machineId != "")
      ensures Contents() == if ok then Upserted(old(Contents()), st) else old(Contents())
      ensures ok ==> byMachine == old(byMachine)[st.machineId := st]
      ensures ok ==> forall s :: s in byServer <==>
                (s == st.serverId && s != "") || (s in old(byServer) && !Leaves(old(byMachine), st.machineId, s))
      ensures ok ==> forall s :: s in byServer ==>
                byServer[s] == if s == st.serverId then st.machineId else old(byServer)[s]
      ensures ok && path != "" ==> Snapshots(disk, byMachine)
      ensures !ok || path == "" ==> disk == old(disk)
    {
      if st.machineId == "" {
        return false;
      }
      UpsertKeeps(Contents(), st);
      if st.machineId in byMachine {
        var prev := byMachine[st.machineId];
        if prev.serverId != "" && prev.serverId != st.serverId {
          byServer := byServer - {prev.serverId};
        }
      }
      byMachine := byMachine[st.machineId := st];
      if st.serverId != "" {
        byServer := byServer[st.serverId := st.machineId];
      }
      Save();
      ok := true;
    }

    method SetCluster(server: string, cluster: string)
      requires Valid()
      modifies this
      ensures Valid() && Contents() == Rebound(old(Contents()), server, cluster)
      ensures byServer == old(byServer) && byMachine.Keys == old(byMachine).Keys
      ensures forall m :: m in byMachine ==>
                if server in old(byServer) && m == old(byServer)[server]
                then byMachine[m].clusterId == cluster
                     && byMachine[m].(clusterId := old(byMachine)[m].clusterId) == old(byMachine)[m]
                else byMachine[m] == old(byMachine)[m]
      ensures if server in old(byServer) && path != "" then Snapshots(disk, byMachine) else disk == old(disk)
    {
      if server !in byServer {
        return;
      }
      var id := byServer[server];
      byMachine := byMachine[id := byMachine[id].(clusterId := cluster)];
      Save();
    }

    method RemoveByServer(server: string)
      requires Valid()
      modifies this
      ensures Valid() && Contents() == Removed(old(Contents()), server)
      ensures if server in old(byServer)
              then && byServer == (map s | s in old(byServer) && s != server :: old(byServer)[s])
                   && byMachine == map m | m in old(byMachine) && m != old(byServer)[server] :: old(byMachine)[m]
              else byServer == old(byServer) && byMachine == old(byMachine)
      ensures if server in old(byServer) && path != "" then Snapshots(disk, byMachine) else disk == old(disk)
    {
      if server !in byServer {
        return;
      }
      RemoveKeeps(Contents(), server);
      var id := byServer[server];
      byServer := byServer - {server};
      byMachine := byMachine - {id};
      Save();
    }

    /** The entries in map order, replacing the file atomically. */
    method Save()
      requires forall m :: m in byMachine ==> byMachine[m].machineId == m
      modifies this`disk
      ensures if path == "" then disk == old(disk) else Snapshots(disk, byMachine)
    {
      if path == "" {
        return;
      }
      var states: seq<Option<MachineState>> := [];
      var todo := byMachine.Keys;
      while todo != {}
        invariant todo <= byMachine.Keys
        invariant forall i :: 0 <= i < |states| ==>
                    states[i].Some? && states[i].value.machineId in byMachine && states[i].value.machineId !in todo
                    && byMachine[states[i].value.machineId] == states[i].value
        invariant forall m :: m in byMachine && m !in todo ==> Some(byMachine[m]) in states
        invariant forall i, j :: 0 <= i < j < |states| ==> Apart(states[i], states[j])
      {
        var m :| m in todo;
        states := states + [Some(byMachine[m])];
        todo := todo - {m};
      }
      disk := states;
    }
  }

  /** The machine was on that server so far. */
  predicate Leaves(byMachine: map<string, MachineState>, machine: string, server: string) {
    machine in byMachine && byMachine[machine].serverId == server
  }

  /** Two entries of one file do not name one machine. */
  predicate Apart(a: Option<MachineState>, b: Option<MachineState>) {
    a.Some? && b.Some? ==> a.value.machineId != b.value.machineId
  }

  /** A file holding every machine's state once. */
  ghost predicate Snapshots(entries: seq<Option<MachineState>>, byMachine: map<string, MachineState>) {
    && (forall e :: e in entries ==>
          e.Some? && e.value.machineId in byMachine && byMachine[e.value.machineId] == e.value)
    && (forall m :: m in byMachine ==> Some(byMachine[m]) in entries)
    && (forall i, j :: 0 <= i < j < |entries| ==> Apart(entries[i], entries[j]))
  }

  /* ---- every operation keeps the maps consistent ---- */

  lemma UpsertKeeps(t: Tables, st: MachineState)
    requires Consistent(t) && st.machineId != ""
    ensures Consistent(Upserted(t, st))
  {
  }

  lemma RemoveKeeps(t: Tables, server: string)
    requires Consistent(t)
    ensures Consistent(Removed(t, server))
  {
  }

  /** A lookup by server after an upsert finds that very state, and nothing else still names the machine. */
  lemma UpsertIsFound(t: Tables, st: MachineState)
    requires Consistent(t) && st.machineId != ""
    ensures var u := Upserted(t, st);
            && u.byMachine[st.machineId] == st
            && (forall s :: s in u.byServer && u.byServer[s] == st.machineId ==> s == st.serverId)
            && (st.serverId != "" ==> st.serverId in u.byServer && u.byServer[st.serverId] == st.machineId)
  {
  }

  /** The maps stay exact inverses exactly when the server is not another machine's. */
  lemma InverseExactlyWhen(t: Tables, st: MachineState)
    requires Inverse(t) && st.machineId != ""
    ensures Inverse(Upserted(t, st)) <==>
              st.serverId == "" || st.serverId !in t.byServer || t.byServer[st.serverId] == st.machineId
  {
    var u := Upserted(t, st);
    UpsertKeeps(t, st);
    if st.serverId != "" && st.serverId in t.byServer && t.byServer[st.serverId] != st.machineId {
      var other := t.byServer[st.serverId];
      assert other in u.byMachine && u.byMachine[other].serverId == st.serverId;
      assert u.byServer[st.serverId] != other;
    }
  }

  lemma RemoveKeepsInverse(t: Tables, server: string)
    requires Inverse(t)
    ensures Inverse(Removed(t, server))
  {
  }

  lemma RebindKeepsInverse(t: Tables, server: string, cluster: string)
    requires Consistent(t)
    ensures Consistent(Rebound(t, server, cluster)) && (Inverse(t) <==> Inverse(Rebound(t, server, cluster)))
  {
    var u := Rebound(t, server, cluster);
    assert forall m :: m in t.byMachine ==> m in u.byMachine && u.byMachine[m].serverId == t.byMachine[m].serverId;
  }

  /**
    Once shared, a server id can be lost until the next reload: two machines on one server, then the
    first moves away, and the second, now alone on it, is no longer found by it.
   */
  lemma SharingLosesTheServer(m1: string, m2: string, s: string, s2: string)
    requires m1 != m2 && m1 != "" && m2 != "" && s != s2 && s != ""
    ensures var one := Upserted(NO_TABLES, MachineState(m1, s, "", "", ""));
            var two := Upserted(one, MachineState(m2, s, "", "", ""));
            var three := Upserted(two, MachineState(m1, s2, "", "", ""));
            && Consistent(three) && Unshared(three) && !Inverse(three)
            && three.byMachine[m2].serverId == s && s !in three.byServer
  {
    var one := Upserted(NO_TABLES, MachineState(m1, s, "", "", ""));
    var two := Upserted(one, MachineState(m2, s, "", "", ""));
    UpsertKeeps(NO_TABLES, MachineState(m1, s, "", "", ""));
    UpsertKeeps(one, MachineState(m2, s, "", "", ""));
    UpsertKeeps(two, MachineState(m1, s2, "", "", ""));
    var three := Upserted(two, MachineState(m1, s2, "", "", ""));
    assert m2 in three.byMachine && three.byMachine[m2].serverId == s && s !in three.byServer;
  }

  /* ---- loading ---- */

  predicate Read(e: Option<MachineState>) {
    e.Some? && e.value.machineId != ""
  }

  predicate LastOfMachine(entries: seq<Option<MachineState>>, i: nat)
    requires i < |entries| && Read(entries[i])
  {
    forall j :: i < j < |entries| && Read(entries[j]) ==> entries[j].value.machineId != entries[i].value.machineId
  }

  predicate LastOfServer(entries: seq<Option<MachineState>>, i: nat)
    requires i < |entries| && Read(entries[i])
  {
    && entries[i].value.serverId != ""
    && forall j :: i < j < |entries| && Read(entries[j]) ==> entries[j].value.serverId != entries[i].value.serverId
  }

  /** The last entry to name a server is the last entry of its machine. */
  predicate Settled(entries: seq<Option<MachineState>>) {
    forall i :: 0 <= i < |entries| && Read(entries[i]) && LastOfServer(entries, i) ==> LastOfMachine(entries, i)
  }

  /* For both maps the last entry that names the key decides. */

  lemma OneMachineMore(entries: seq<Option<MachineState>>, i: nat)
    requires i < |entries| - 1 && Read(entries[i])
    ensures var n := |entries| - 1;
            LastOfMachine(entries, i) <==>
              && LastOfMachine(entries[..n], i)
              && !(Read(entries[n]) && entries[n].value.machineId == entries[i].value.machineId)
  {
    var init := entries[..|entries| - 1];
    assert forall j :: 0 <= j < |init| ==> init[j] == entries[j];
  }

  lemma {:induction false} LastMachineDecides(entries: seq<Option<MachineState>>, i: nat)
    requires i < |entries| && Read(entries[i]) && LastOfMachine(entries, i)
    ensures entries[i].value.machineId in Loaded(entries).byMachine
    ensures Loaded(entries).byMachine[entries[i].value.machineId] == entries[i].value
  {
    var n := |entries| - 1;
    if i < n {
      OneMachineMore(entries, i);
      LastMachineDecides(entries[..n], i);
    }
  }

  lemma {:induction false} MachineHasEntry(entries: seq<Option<MachineState>>, key: string) returns (i: nat)
    requires key in Loaded(entries).byMachine
    ensures i < |entries| && Read(entries[i]) && LastOfMachine(entries, i) && entries[i].value.machineId == key
  {
    var n := |entries| - 1;
    if Read(entries[n]) && entries[n].value.machineId == key {
      i := n;
    } else {
      i := MachineHasEntry(entries[..n], key);
      OneMachineMore(entries, i);
    }
  }

  lemma LoadedMachines(entries: seq<Option<MachineState>>)
    ensures forall i :: 0 <= i < |entries| && Read(entries[i]) && LastOfMachine(entries, i) ==>
              entries[i].value.machineId in Loaded(entries).byMachine
              && Loaded(entries).byMachine[entries[i].value.machineId] == entries[i].value
    ensures forall key :: key in Loaded(entries).byMachine ==>
              exists i :: 0 <= i < |entries| && Read(entries[i]) && LastOfMachine(entries, i)
                  && entries[i].value.machineId == key
  {
    hide Loaded, LastOfMachine;
    forall i | 0 <= i < |entries| && Read(entries[i]) && LastOfMachine(entries, i)
      ensures entries[i].value.machineId in Loaded(entries).byMachine
      ensures Loaded(entries).byMachine[entries[i].value.machineId] == entries[i].value
    {
      LastMachineDecides(entries, i);
    }
    forall key | key in Loaded(entries).byMachine
      ensures exists i :: 0 <= i < |entries| && Read(entries[i]) && LastOfMachine(entries, i)
                && entries[i].value.machineId == key
    {
      var i := MachineHasEntry(entries, key);
    }
  }

  lemma OneServerMore(entries: seq<Option<MachineState>>, i: nat)
    requires i < |entries| - 1 && Read(entries[i])
    ensures var n := |entries| - 1;
            LastOfServer(entries, i) <==>
              && LastOfServer(entries[..n], i)
              && !(Read(entries[n]) && entries[n].value.serverId == entries[i].value.serverId)
  {
    var init := entries[..|entries| - 1];
    assert forall j :: 0 <= j < |init| ==> init[j] == entries[j];
  }

  lemma {:induction false} LastServerDecides(entries: seq<Option<MachineState>>, i: nat)
    requires i < |entries| && Read(entries[i]) && LastOfServer(entries, i)
    ensures entries[i].value.serverId in Loaded(entries).byServer
    ensures Loaded(entries).byServer[entries[i].value.serverId] == entries[i].value.machineId
  {
    var n := |entries| - 1;
    if i < n {
      OneServerMore(entries, i);
      LastServerDecides(entries[..n], i);
    }
  }

  lemma {:induction false} ServerHasEntry(entries: seq<Option<MachineState>>, key: string) returns (i: nat)
    requires key in Loaded(entries).byServer
    ensures i < |entries| && Read(entries[i]) && LastOfServer(entries, i) && entries[i].value.serverId == key
  {
    var n := |entries| - 1;
    if Read(entries[n]) && entries[n].value.serverId == key && key != "" {
      i := n;
    } else {
      i := ServerHasEntry(entries[..n], key);
      OneServerMore(entries, i);
    }
  }

  lemma LoadedServers(entries: seq<Option<MachineState>>)
    ensures forall i :: 0 <= i < |entries| && Read(entries[i]) && LastOfServer(entries, i) ==>
              entries[i].value.serverId in Loaded(entries).byServer
              && Loaded(entries).byServer[entries[i].value.serverId] == entries[i].value.machineId
    ensures forall key :: key in Loaded(entries).byServer ==>
              exists i :: 0 <= i < |entries| && Read(entries[i]) && LastOfServer(entries, i)
                  && entries[i].value.serverId == key
  {
    hide Loaded, LastOfServer;
    forall i | 0 <= i < |entries| && Read(entries[i]) && LastOfServer(entries, i)
      ensures entries[i].value.serverId in Loaded(entries).byServer
      ensures Loaded(entries).byServer[entries[i].value.serverId] == entries[i].value.machineId
    {
      LastServerDecides(entries, i);
    }
    forall key | key in Loaded(entries).byServer
      ensures exists i :: 0 <= i < |entries| && Read(entries[i]) && LastOfServer(entries, i)
                && entries[i].value.serverId == key
    {
      var i := ServerHasEntry(entries, key);
    }
  }

  /** A file loads into consistent maps exactly when no superseded entry is the last to name its server. */
  lemma ConsistentIfSettled(entries: seq<Option<MachineState>>)
    ensures Consistent(Loaded(entries)) <==> Settled(entries)
  {
    hide Loaded, LastOfMachine, LastOfServer;
    LoadedMachines(entries);
    LoadedServers(entries);
    MachinesAreNamed(entries);
    forall i | 0 <= i < |entries| && Read(entries[i]) && LastOfServer(entries, i)
      ensures LastOfMachine(entries, i) <==> LoadedAgrees(entries, entries[i].value.serverId)
    {
      ServerAgrees(entries, i);
    }
  }

  ghost predicate LoadedAgrees(entries: seq<Option<MachineState>>, s: string) {
    var t := Loaded(entries);
    s != "" && s in t.byServer && t.byServer[s] in t.byMachine && t.byMachine[t.byServer[s]].serverId == s
  }

  lemma {:induction false} MachinesAreNamed(entries: seq<Option<MachineState>>)
    ensures forall m :: m in Loaded(entries).byMachine ==> Loaded(entries).byMachine[m].machineId == m && m != ""
  {
    if |entries| > 0 {
      MachinesAreNamed(entries[..|entries| - 1]);
    }
  }

  lemma ServerAgrees(entries: seq<Option<MachineState>>, i: nat)
    requires i < |entries| && Read(entries[i]) && LastOfServer(entries, i)
    ensures LastOfMachine(entries, i) <==> LoadedAgrees(entries, entries[i].value.serverId)
  {
    hide Loaded;
    LoadedMachines(entries);
    LoadedServers(entries);
    var m := entries[i].value.machineId;
    if LoadedAgrees(entries, entries[i].value.serverId) {
      var j :| 0 <= j < |entries| && Read(entries[j]) && LastOfMachine(entries, j) && entries[j].value.machineId == m;
      assert entries[j].value.serverId == entries[i].value.serverId;
    }
  }

  /** Save then load gives every machine back, and repairs the server map of any index in which no server is shared. */
  lemma SaveThenLoad(t: Tables, entries: seq<Option<MachineState>>)
    requires Consistent(t) && Snapshots(entries, t.byMachine)
    ensures Consistent(Loaded(entries)) && Loaded(entries).byMachine == t.byMachine
    ensures Unshared(t) <==> Inverse(Loaded(entries))
    ensures Unshared(t) ==> (Loaded(entries) == t <==> Inverse(t))
    ensures Inverse(t) ==> Unshared(t)
  {
    hide Loaded, Consistent, Snapshots, Unshared, Inverse, LastOfMachine, LastOfServer;
    EntriesAreLast(t, entries);
    ConsistentIfSettled(entries);
    ReloadedMachines(t, entries);
    AllServersLoaded(t, entries);
    InverseIfUnshared(Loaded(entries));
    SameUnshared(t, Loaded(entries));
    if Inverse(t) {
      InverseIsUnshared(t);
      InverseIsUnique(t, Loaded(entries));
    }
  }

  /** Both maps come back, whatever order the save walked them in, exactly when they were inverses. */
  lemma BothMapsSurviveExactlyWhen(t: Tables)
    requires Consistent(t)
    ensures (forall entries :: Snapshots(entries, t.byMachine) ==> Loaded(entries) == t) <==> Inverse(t)
  {
    hide Loaded, Unshared;
    if Inverse(t) {
      forall entries | Snapshots(entries, t.byMachine)
        ensures Loaded(entries) == t
      {
        SaveThenLoad(t, entries);
      }
    } else {
      var m :| m in t.byMachine && t.byMachine[m].serverId != ""
        && !(t.byMachine[m].serverId in t.byServer && t.byServer[t.byMachine[m].serverId] == m);
      var entries := SnapshotEndingWith(t, m);
      LastServerDecides(entries, |entries| - 1);
    }
  }

  /** Some save writes this machine last. */
  lemma SnapshotEndingWith(t: Tables, m: string) returns (entries: seq<Option<MachineState>>)
    requires Consistent(t) && m in t.byMachine
    ensures Snapshots(entries, t.byMachine) && |entries| > 0 && entries[|entries| - 1] == Some(t.byMachine[m])
    ensures t.byMachine[m].serverId != "" ==>
              && Read(entries[|entries| - 1]) && LastOfServer(entries, |entries| - 1)
              && entries[|entries| - 1].value.machineId == m
  {
    var rest := SomeSnapshot(t.byMachine - {m});
    entries := rest + [Some(t.byMachine[m])];
    assert forall k :: k in t.byMachine && k != m ==> k in t.byMachine - {m};
  }

  lemma {:induction false} SomeSnapshot(all: map<string, MachineState>) returns (entries: seq<Option<MachineState>>)
    requires forall m :: m in all ==> all[m].machineId == m
    ensures Snapshots(entries, all)
    decreases |all|
  {
    if all == map[] {
      entries := [];
    } else {
      var m :| m in all;
      var rest := SomeSnapshot(all - {m});
      entries := rest + [Some(all[m])];
      OneEntryMore(all, m, rest);
    }
  }

  lemma OneEntryMore(all: map<string, MachineState>, m: string, rest: seq<Option<MachineState>>)
    requires m in all && all[m].machineId == m && Snapshots(rest, all - {m})
    ensures Snapshots(rest + [Some(all[m])], all)
  {
    var entries := rest + [Some(all[m])];
    assert forall k :: k in all && k != m ==> k in all - {m};
    assert forall i :: 0 <= i < |rest| ==> entries[i] in rest;
  }

  lemma EntriesAreLast(t: Tables, entries: seq<Option<MachineState>>)
    requires Consistent(t) && Snapshots(entries, t.byMachine)
    ensures Settled(entries) && forall i :: 0 <= i < |entries| ==> Read(entries[i]) && LastOfMachine(entries, i)
  {
    forall i | 0 <= i < |entries|
      ensures Read(entries[i]) && LastOfMachine(entries, i)
    {
      assert entries[i] in entries;
      assert entries[i].value.machineId in t.byMachine;
    }
  }

  lemma AllServersLoaded(t: Tables, entries: seq<Option<MachineState>>)
    requires Consistent(t) && Snapshots(entries, t.byMachine)
    ensures forall m :: m in t.byMachine && t.byMachine[m].serverId != "" ==>
              t.byMachine[m].serverId in Loaded(entries).byServer
  {
    forall m | m in t.byMachine && t.byMachine[m].serverId != ""
      ensures t.byMachine[m].serverId in Loaded(entries).byServer
    {
      ServerIsLoaded(entries, Some(t.byMachine[m]));
    }
  }

  /** With every server indexed, inverse maps and unshared servers are the same thing. */
  lemma InverseIfUnshared(u: Tables)
    requires Consistent(u) && forall m :: m in u.byMachine && u.byMachine[m].serverId != "" ==>
              u.byMachine[m].serverId in u.byServer
    ensures Unshared(u) <==> Inverse(u)
  {
    if Unshared(u) {
      assert Inverse(u);
    }
  }

  lemma InverseIsUnshared(t: Tables)
    requires Inverse(t)
    ensures Unshared(t)
  {
  }

  lemma SameUnshared(t: Tables, u: Tables)
    requires t.byMachine == u.byMachine
    ensures Unshared(t) <==> Unshared(u)
  {
  }

  lemma InverseIsUnique(t: Tables, u: Tables)
    requires Inverse(t) && Inverse(u) && t.byMachine == u.byMachine
    ensures t == u
  {
    assert t.byServer.Keys == u.byServer.Keys;
  }

  lemma ReloadedMachines(t: Tables, entries: seq<Option<MachineState>>)
    requires Consistent(t) && Snapshots(entries, t.byMachine)
    requires forall i :: 0 <= i < |entries| ==> Read(entries[i]) && LastOfMachine(entries, i)
    ensures Loaded(entries).byMachine == t.byMachine
  {
    hide Loaded, LastOfMachine, Consistent;
    forall m | m in t.byMachine || m in Loaded(entries).byMachine
      ensures m in Loaded(entries).byMachine && m in t.byMachine && Loaded(entries).byMachine[m] == t.byMachine[m]
    {
      ReloadedMachine(t, entries, m);
    }
  }

  lemma ReloadedMachine(t: Tables, entries: seq<Option<MachineState>>, m: string)
    requires Consistent(t) && Snapshots(entries, t.byMachine)
    requires forall i :: 0 <= i < |entries| ==> Read(entries[i]) && LastOfMachine(entries, i)
    ensures m in Loaded(entries).byMachine <==> m in t.byMachine
    ensures m in t.byMachine ==> Loaded(entries).byMachine[m] == t.byMachine[m]
  {
    LoadedMachines(entries);
    hide Loaded, LastOfMachine;
    if m in t.byMachine {
      var i :| 0 <= i < |entries| && entries[i] == Some(t.byMachine[m]);
    }
    if m in Loaded(entries).byMachine {
      var i :| 0 <= i < |entries| && Read(entries[i]) && LastOfMachine(entries, i) && entries[i].value.machineId == m;
      assert entries[i] in entries;
    }
  }

  lemma {:induction false} ServerIsLoaded(entries: seq<Option<MachineState>>, e: Option<MachineState>)
    requires e in entries && Read(e) && e.value.serverId != ""
    ensures e.value.serverId in Loaded(entries).byServer
  {
    var init := entries[..|entries| - 1];
    assert entries == init + [entries[|entries| - 1]];
    if e in init {
      ServerIsLoaded(init, e);
    }
  }

  /* ---- over any history ---- */

  datatype Step =
    | UpsertStep(st: MachineState)
    | RebindStep(server: string, cluster: string)
    | RemoveStep(server: string)
    | ReloadStep(entries: seq<Option<MachineState>>)    // a restart, from what the last save wrote

  ghost predicate Takes(t: Tables, u: Tables, s: Step) {
    Consistent(t)
    && match s {
      case UpsertStep(st) => u == if st.machineId == "" then t else Upserted(t, st)
      case RebindStep(server, cluster) => u == Rebound(t, server, cluster)
      case RemoveStep(server) => u == Removed(t, server)
      case ReloadStep(entries) => Snapshots(entries, t.byMachine) && u == Loaded(entries)
    }
  }

  ghost predicate History(states: seq<Tables>, steps: seq<Step>) {
    && |states| == |steps| + 1 && states[0] == NO_TABLES
    && forall i :: 0 <= i < |steps| && Consistent(states[i]) ==> Takes(states[i], states[i + 1], steps[i])
  }

  /** No upsert ever names a server that is another machine's at the time. */
  ghost predicate NeverShares(states: seq<Tables>, steps: seq<Step>) {
    |states| == |steps| + 1 && forall i :: 0 <= i < |steps| ==> OwnServer(states[i], steps[i])
  }

  predicate OwnServer(t: Tables, s: Step) {
    s.UpsertStep? && s.st.machineId != "" ==>
      s.st.serverId == "" || s.st.serverId !in t.byServer || t.byServer[s.st.serverId] == s.st.machineId
  }

  lemma StepKeeps(t: Tables, u: Tables, s: Step)
    requires Takes(t, u, s)
    ensures Consistent(u)
    ensures Inverse(t) && OwnServer(t, s) ==> Inverse(u)
  {
    hide Consistent, Inverse, Upserted, Removed, Rebound, Loaded, Unshared;
    match s
    case UpsertStep(st) =>
      if st.machineId != "" {
        UpsertKeeps(t, st);
        if Inverse(t) {
          InverseExactlyWhen(t, st);
        }
      }
    case RebindStep(server, cluster) => RebindKeepsInverse(t, server, cluster);
    case RemoveStep(server) =>
      RemoveKeeps(t, server);
      if Inverse(t) {
        RemoveKeepsInverse(t, server);
      }
    case ReloadStep(entries) => SaveThenLoad(t, entries);
  }

  /**
    In every reachable state a lookup by server finds a record that names the server back, and if no
    upsert ever took over another machine's server the two maps are exact inverses.
   */
  lemma {:induction false} AlwaysConsistent(states: seq<Tables>, steps: seq<Step>, i: nat)
    requires History(states, steps) && i < |states|
    ensures Consistent(states[i])
    ensures NeverShares(states, steps) ==> Inverse(states[i])
  {
    if i > 0 {
      AlwaysConsistent(states, steps, i - 1);
      hide Consistent, Inverse, Takes;
      StepKeeps(states[i - 1], states[i], steps[i - 1]);
    }
  }

  /** The two maps are exact inverses in every state of a history exactly when no upsert in it takes a server over. */
  lemma AlwaysInverseExactlyWhen(states: seq<Tables>, steps: seq<Step>)
    requires History(states, steps)
    ensures (forall i :: 0 <= i < |states| ==> Inverse(states[i])) <==> NeverShares(states, steps)
  {
    hide Consistent, Inverse, Upserted;
    forall i | 0 <= i < |states|
      ensures Consistent(states[i]) && (NeverShares(states, steps) ==> Inverse(states[i]))
    {
      AlwaysConsistent(states, steps, i);
    }
    if forall i :: 0 <= i < |states| ==> Inverse(states[i]) {
      forall i | 0 <= i < |steps|
        ensures OwnServer(states[i], steps[i])
      {
        assert Takes(states[i], states[i + 1], steps[i]);
        if steps[i].UpsertStep? && steps[i].st.machineId != "" {
          InverseExactlyWhen(states[i], steps[i].st);
        }
      }
    }
  }

  /* ---- what removal and rebinding mean ---- */

  /** The step brings the server back: an upsert puts a machine on it, or a reload reads one that is. */
  predicate Names(s: Step, server: string) {
    match s
    case UpsertStep(st) => st.machineId != "" && st.serverId == server
    case ReloadStep(entries) => exists e :: e in entries && e.Some? && e.value.serverId == server
    case _ => false
  }

  /** A removed server is found by no lookup until a later step names it. */
  lemma {:induction false} RemovedStaysAway(states: seq<Tables>, steps: seq<Step>, i: nat, j: nat, server: string)
    requires History(states, steps) && i < j < |states| && steps[i] == RemoveStep(server)
    requires forall k :: i < k < j ==> !Names(steps[k], server)
    ensures server !in states[j].byServer
  {
    AlwaysConsistent(states, steps, j - 1);
    assert Takes(states[j - 1], states[j], steps[j - 1]);
    hide Consistent, Snapshots;
    if j > i + 1 {
      RemovedStaysAway(states, steps, i, j - 1, server);
      if steps[j - 1].ReloadStep? {
        LoadedServers(steps[j - 1].entries);
      }
    } else {
      RemovedIsGone(states[i], server);
    }
  }

  /** A removal takes the server and its machine, and nothing else. */
  lemma RemovedIsGone(t: Tables, server: string)
    requires Consistent(t)
    ensures var u := Removed(t, server);
            && server !in u.byServer
            && (forall s :: s != server ==> (s in u.byServer <==> s in t.byServer))
            && (forall s :: s in u.byServer ==> u.byServer[s] == t.byServer[s])
            && (forall m :: m in u.byMachine <==>
                  m in t.byMachine && !(server in t.byServer && t.byServer[server] == m))
            && (forall m :: m in u.byMachine ==> u.byMachine[m] == t.byMachine[m])
  {
  }

  /** No lookup finds the server, and no record is on it. */
  ghost predicate Nowhere(t: Tables, server: string) {
    server !in t.byServer && forall m :: m in t.byMachine ==> t.byMachine[m].serverId != server
  }

  lemma StaysNowhere(t: Tables, u: Tables, s: Step, server: string)
    requires Takes(t, u, s) && Nowhere(t, server) && server != "" && (s.UpsertStep? ==> !Names(s, server))
    ensures Nowhere(u, server)
  {
    match s
    case UpsertStep(st) =>
    case RebindStep(other, cluster) =>
    case RemoveStep(other) =>
    case ReloadStep(entries) =>
      SaveThenLoad(t, entries);
      hide Snapshots, Loaded, Unshared, Inverse;
  }

  lemma RemovedNowhere(t: Tables, server: string)
    requires Consistent(t) && server in t.byServer
    requires forall m :: m in t.byMachine && t.byMachine[m].serverId == server ==> m == t.byServer[server]
    ensures Nowhere(Removed(t, server), server)
  {
  }

  /** Where the machine was the only one on its server, reloads do not bring that server back either. */
  lemma {:induction false} RemovedForGood(states: seq<Tables>, steps: seq<Step>, i: nat, j: nat, server: string)
    requires History(states, steps) && i < j < |states| && steps[i] == RemoveStep(server)
    requires server in states[i].byServer
    requires forall m :: m in states[i].byMachine && states[i].byMachine[m].serverId == server ==>
               m == states[i].byServer[server]
    requires forall k :: i < k < j && steps[k].UpsertStep? ==> !Names(steps[k], server)
    ensures Nowhere(states[j], server)
  {
    AlwaysConsistent(states, steps, i);
    AlwaysConsistent(states, steps, j - 1);
    ServerIsNamed(states[i], server);
    hide Consistent, Takes, Nowhere, Names;
    if j == i + 1 {
      RemovedNowhere(states[i], server);
      RemovesIt(states[i], states[j], server);
    } else {
      RemovedForGood(states, steps, i, j - 1, server);
      StaysNowhere(states[j - 1], states[j], steps[j - 1], server);
    }
  }

  lemma ServerIsNamed(t: Tables, server: string)
    requires Consistent(t) && server in t.byServer
    ensures server != ""
  {
  }

  lemma RemovesIt(t: Tables, u: Tables, server: string)
    requires Takes(t, u, RemoveStep(server))
    ensures Consistent(t) && u == Removed(t, server)
  {
  }

  /** Rebinding changes one field of one record: the cluster of the machine on that server. */
  lemma ReboundExactly(t: Tables, server: string, cluster: string)
    requires Consistent(t)
    ensures var u := Rebound(t, server, cluster);
            && u.byServer == t.byServer && u.byMachine.Keys == t.byMachine.Keys
            && forall m :: m in t.byMachine ==>
                 if server in t.byServer && t.byServer[server] == m
                 then u.byMachine[m].clusterId == cluster
                      && u.byMachine[m].(clusterId := t.byMachine[m].clusterId) == t.byMachine[m]
                 else u.byMachine[m] == t.byMachine[m]
  {
  }
}
