/** Snapshots and the in-memory store of store.go. */
module Store {
  import opened Machines
  import opened Kit

  datatype FenceRecord = FenceRecord(shard: string, machine: string, epoch: int, sequence: int)

  datatype OpRecord = OpRecord(machine: string, kind: string, op: OpId)

  datatype Snapshot = Snapshot(
    machines: seq<Machine>,
    fences: seq<FenceRecord>,
    ops: seq<OpRecord>,
    rev: nat,
    nextOp: nat)

  const EMPTY_SNAPSHOT := Snapshot([], [], [], 0, 0)

  /* ---- what loadSnapshot rebuilds: a later record for a key wins ---- */

  /** Records put into a map one after another. */
  function Folded(start: map<string, Machine>, list: seq<Machine>): map<string, Machine> {
    if |list| == 0 then start
    else Folded(start, list[..|list| - 1])[list[|list| - 1].id := list[|list| - 1]]
  }

  function MachineMap(list: seq<Machine>): map<string, Machine> {
    Folded(map[], list)
  }

  function FenceMap(list: seq<FenceRecord>): map<FenceKey, FenceMark> {
    if |list| == 0 then map[]
    else
      var r := list[|list| - 1];
      FenceMap(list[..|list| - 1])[FenceKey(r.shard, r.machine) := FenceMark(r.epoch, r.sequence)]
  }

  function OpMap(list: seq<OpRecord>): map<OpKey, OpId> {
    if |list| == 0 then map[]
    else
      var r := list[|list| - 1];
      OpMap(list[..|list| - 1])[OpRecordKey(r) := r.op]
  }

  function Decode(s: Snapshot): Durable {
    Durable(MachineMap(s.machines), FenceMap(s.fences), OpMap(s.ops), s.rev, s.nextOp)
  }

  /* ---- what snapshotLocked may write: each map's entries, in whatever order the map yields them ---- */

  function FenceRecordOf(key: FenceKey, mark: FenceMark): FenceRecord {
    FenceRecord(key.shard, key.machine, mark.epoch, mark.sequence)
  }

  function OpRecordOf(key: OpKey, op: OpId): OpRecord {
    OpRecord(key.id, KindText(key.kind), op)
  }

  function OpRecordKey(r: OpRecord): OpKey {
    OpKey(r.machine, KindFromText(r.kind))
  }

  ghost predicate Enumerates(s: Snapshot, d: Durable) {
    && (forall m :: m in s.machines <==> m.id in d.machines && d.machines[m.id] == m)
    && (forall r :: r in s.fences <==> exists key :: key in d.fences && r == FenceRecordOf(key, d.fences[key]))
    && (forall r :: r in s.ops <==> exists key :: key in d.ops && r == OpRecordOf(key, d.ops[key]))
    && s.rev == d.rev && s.nextOp == d.nextOp
  }

  predicate Keyed(machines: map<string, Machine>) {
    forall id :: id in machines ==> machines[id].id == id
  }

  lemma {:induction false} FoldedContents(start: map<string, Machine>, list: seq<Machine>, all: map<string, Machine>)
    requires forall r :: r in list ==> r.id in all && all[r.id] == r
    ensures forall id :: id in Folded(start, list) <==>
              id in start || (id in all && all[id] in list && all[id].id == id)
    ensures forall id :: id in Folded(start, list) ==>
              Folded(start, list)[id] == if id in all && all[id] in list && all[id].id == id then all[id] else start[id]
  {
    if |list| > 0 {
      var init := list[..|list| - 1];
      assert list == init + [list[|list| - 1]];
      FoldedContents(start, init, all);
    }
  }

  lemma {:induction false} FenceMapOf(list: seq<FenceRecord>, fences: map<FenceKey, FenceMark>)
    requires forall r :: r in list ==>
      FenceKey(r.shard, r.machine) in fences && fences[FenceKey(r.shard, r.machine)] == FenceMark(r.epoch, r.sequence)
    ensures forall key :: key in FenceMap(list) <==> key in fences && FenceRecordOf(key, fences[key]) in list
    ensures forall key :: key in FenceMap(list) ==> FenceMap(list)[key] == fences[key]
  {
    if |list| > 0 {
      var init := list[..|list| - 1];
      assert list == init + [list[|list| - 1]];
      FenceMapOf(init, fences);
    }
  }

  lemma {:induction false} OpMapOf(list: seq<OpRecord>, ops: map<OpKey, OpId>)
    requires forall r :: r in list ==> OpRecordKey(r) in ops && r == OpRecordOf(OpRecordKey(r), ops[OpRecordKey(r)])
    ensures forall key :: key in OpMap(list) <==> key in ops && OpRecordOf(key, ops[key]) in list
    ensures forall key :: key in OpMap(list) ==> OpMap(list)[key] == ops[key]
  {
    if |list| > 0 {
      var init := list[..|list| - 1];
      assert list == init + [list[|list| - 1]];
      OpMapOf(init, ops);
      hide OpRecordOf, OpRecordKey;
      forall key | key in ops
        ensures OpRecordKey(OpRecordOf(key, ops[key])) == key
      {
        OpRecordRoundTrip(key, ops[key]);
      }
    }
  }

  lemma OpRecordRoundTrip(key: OpKey, op: OpId)
    ensures OpRecordKey(OpRecordOf(key, op)) == key && OpRecordOf(key, op).op == op
  {
  }

  /** Saving and loading is the identity, whatever order the maps were iterated in. */
  lemma SaveThenLoad(s: Snapshot, d: Durable)
    requires Enumerates(s, d) && Keyed(d.machines)
    ensures Decode(s) == d
  {
    FoldedContents(map[], s.machines, d.machines);
    FenceMapOf(s.fences, d.fences);
    OpMapOf(s.ops, d.ops);
    assert Decode(s).machines == d.machines by {
      assert forall id :: id in d.machines ==> d.machines[id] in s.machines;
    }
    assert Decode(s).fences == d.fences by {
      assert forall key :: key in d.fences ==> FenceRecordOf(key, d.fences[key]) in s.fences;
    }
    assert Decode(s).ops == d.ops by {
      assert forall key :: key in d.ops ==> OpRecordOf(key, d.ops[key]) in s.ops;
    }
  }

  /** The store interface's contract as MemStore meets it: the last Save is what Load returns. */
  class MemStore {
    var snap: Snapshot

    constructor ()
      ensures snap == EMPTY_SNAPSHOT
    {
      snap := EMPTY_SNAPSHOT;
    }

    method Load() returns (s: Snapshot)
      ensures s == snap
    {
      s := snap;
    }

    method Save(s: Snapshot)
      modifies this
      ensures snap == s
    {
      snap := s;
    }
  }
}
