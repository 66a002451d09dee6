/** Runs with one harmful step, each for every way of building indexes: what a late commit, a deletion by
    another part of the node and a restart from an outrun state file lead to. */
module UploadRaces {
  import opened Options
  import opened Uploads
  import opened UploadSafety

  // ---- a missing block that a pending index lists

  /** The pending index `r` lists `c`, which is neither stored nor tracked. */
  predicate Lost(s: State, r: Cid, c: Cid) {
    r in s.roots && c in s.roots[r].cids && c !in s.store && c !in s.blocks
  }

  /** No pending index is overdue at `t`. */
  predicate InTime(s: State, t: nat) {
    forall r :: r in s.roots ==> s.roots[r].at + PAY_WITHIN >= t
  }

  /** A collection at `t` that finds nothing paid or overdue deletes `c`, which the pending index `r` lists. */
  ghost predicate DeletesListed(s: State, t: nat, r: Cid, c: Cid) {
    var d := Sweep(s, [], [], t);
    Scanned(s, _ => false, t, [], []) && c in s.store && c !in d.store && r in RootsListing(d.roots, c)
  }

  lemma PutSingle(s: State, c: Cid, t: nat)
    requires c !in s.store && PendingBytes(s.blocks) < MAX_PENDING_BYTES
    ensures Uploaded(s, [Item(c, 1)], t)
         == Done(State(s.store[c := 1], s.blocks[c := Tracked(1, t, {})], s.roots))
  {
    var bs := [Item(c, 1)];
    assert bs[..0] == [] && TotalSize(bs) == 1;
    assert Put(s, bs, t) == PutOne(s, bs[0], t);
  }

  lemma SweepLoose(s: State, c: Cid, t: nat)
    requires c in s.blocks && s.blocks[c].roots == {} && s.blocks[c].at + LOOSE_FOR < t
    ensures c !in Sweep(s, [], [], t).store && Sweep(s, [], [], t).roots == s.roots
  {
    assert DropAllPaid(s, []) == s && DropAllExpired(s, []) == s;
  }

  /** Uploading a lost block again does not tie it to its index: once it counts as loose, a collection
      deletes it. */
  lemma UploadedAgain(x: Indexer, w: World, r: Cid, c: Cid, t: nat, saved: bool)
    requires Lost(w.s, r, c) && PendingBytes(w.s.blocks) < MAX_PENDING_BYTES && InTime(w.s, t + LOOSE_FOR + 1)
    ensures DeletesListed(Step(x, w, OpUpload([Item(c, 1)], t, saved)).s, t + LOOSE_FOR + 1, r, c)
  {
    PutSingle(w.s, c, t);
    hide PendingBytes, Sweep, Put, TotalSize;
    var s := Step(x, w, OpUpload([Item(c, 1)], t, saved)).s;
    assert s == State(w.s.store[c := 1], w.s.blocks[c := Tracked(1, t, {})], w.s.roots);
    SweepLoose(s, c, t + LOOSE_FOR + 1);
  }

  // ---- committing an index of one block

  function Looked(c: Cid): Checked {
    Checked([Item(c, 1)], c)
  }

  function IndexOf(x: Indexer, c: Cid): Index {
    x([Item(c, 1)], c)
  }

  lemma LookUp(c: Cid, store: map<Cid, nat>)
    requires c in store && store[c] == 1
    ensures CheckIndex(store, [c], c) == Some(Looked(c))
  {
    var req: seq<Cid> := [c];
    var none: seq<Cid> := [];
    assert req[..0] == none && Listing(store, none) == Some([]);
    var l: seq<Item> := [];
    assert Cids(l) == none && c !in Cids(l);
    assert l + [Item(c, store[c])] == [Item(c, 1)];
    assert Listing(store, req) == Some([Item(c, 1)]);
    assert [Item(c, 1)][..0] == [] && TotalSize([Item(c, 1)]) == 1;
  }

  lemma {:induction false} PutTracks(s: State, bs: seq<Item>, t: nat)
    ensures Put(s, bs, t).roots == s.roots && (forall c :: c in Put(s, bs, t).blocks ==> c in s.blocks || c in Cids(bs))
  {
    if bs != [] {
      PutTracks(s, bs[..|bs| - 1], t);
      assert Cids(bs) == Cids(bs[..|bs| - 1]) + [bs[|bs| - 1].cid];
    }
  }

  /** Committing the index of `c` where nothing is tracked: the index is pending, `c` is tracked no more than
      before and stored only if it was. */
  lemma CommitOnly(x: Indexer, w: World, c: Cid, t: nat, saved: bool)
    requires w.checks == map[0 := Looked(c)] && w.s.blocks == map[] && w.s.roots == map[] && c !in Cids(IndexOf(x, c).blocks)
    ensures var s := Step(x, w, OpCommit(0, t, saved)).s;
            var r := IndexOf(x, c).root;
            && s.roots.Keys == {r} && s.roots[r].at == t && c in s.roots[r].cids
            && c !in s.blocks && (c in s.store <==> c in w.s.store)
  {
    var i := IndexOf(x, c);
    PutStore(w.s, i.blocks, t);
    PutTracks(w.s, i.blocks, t);
    hide Put;
    var all := Cids([Item(c, 1)]) + Cids(i.blocks);
    assert all[0] == c;
  }

  // ---- a late commit

  /** A block is uploaded and looked up for an index; a collection deletes it as loose; the index commits. */
  function LateRun(c: Cid): seq<Op> {
    [OpUpload([Item(c, 1)], 0, true), OpCheck(0, [c], c), OpSweep([], [], LOOSE_FOR + 1, true), OpCommit(0, LOOSE_FOR + 1, true)]
  }

  lemma RunLast(x: Indexer, store: map<Cid, nat>, ops: seq<Op>, op: Op)
    ensures Run(x, store, ops + [op]) == Step(x, Run(x, store, ops), op)
  {
    assert (ops + [op])[..|ops|] == ops;
  }

  function Start(store: map<Cid, nat>): World {
    World(State(store, map[], map[]), Past({}, {}), map[], Book(map[], map[]))
  }

  lemma FirstUpload(x: Indexer, c: Cid)
    ensures var w := Step(x, Start(map[]), OpUpload([Item(c, 1)], 0, true));
            w.s == State(map[c := 1], map[c := Tracked(1, 0, {})], map[]) && w.checks == map[] && w.file == Book(w.s.blocks, w.s.roots)
  {
    var empty: map<Cid, Tracked> := map[];
    assert PendingBytes(empty) == 0;
    PutSingle(State(map[], map[], map[]), c, 0);
  }

  lemma SweepAll(c: Cid)
    ensures Sweep(State(map[c := 1], map[c := Tracked(1, 0, {})], map[]), [], [], LOOSE_FOR + 1) == State(map[], map[], map[])
  {
    var s := State(map[c := 1], map[c := Tracked(1, 0, {})], map[]);
    assert DropAllPaid(s, []) == s && DropAllExpired(s, []) == s;
    assert Doomed(s.blocks, LOOSE_FOR + 1) == {c};
  }

  /** After the late commit, uploading the block again ends with the deletion of a block that a pending index
      lists. */
  lemma LateIndex(x: Indexer, c: Cid)
    requires c !in Cids(IndexOf(x, c).blocks)
    requires PendingBytes(Run(x, map[], LateRun(c)).s.blocks) < MAX_PENDING_BYTES
    ensures var t := LOOSE_FOR + 1;
            DeletesListed(Run(x, map[], LateRun(c) + [OpUpload([Item(c, 1)], t, true)]).s, t + LOOSE_FOR + 1, IndexOf(x, c).root, c)
  {
    var ops := LateRun(c);
    var w1 := Step(x, Start(map[]), ops[0]);
    var w2 := Step(x, w1, ops[1]);
    var w3 := Step(x, w2, ops[2]);
    var w4 := Step(x, w3, ops[3]);
    FirstUpload(x, c);
    LookUp(c, w1.s.store);
    SweepAll(c);
    hide Uploaded, CheckIndex, Sweep, CommitIndex, PendingBytes, Run, DeletesListed;
    CommitOnly(x, w3, c, LOOSE_FOR + 1, true);
    Four(x, map[], ops);
    UploadedAgain(x, w4, IndexOf(x, c).root, c, LOOSE_FOR + 1, true);
    RunLast(x, map[], ops, OpUpload([Item(c, 1)], LOOSE_FOR + 1, true));
  }

  lemma Four(x: Indexer, store: map<Cid, nat>, ops: seq<Op>)
    requires |ops| == 4
    ensures Run(x, store, ops) == Step(x, Step(x, Step(x, Step(x, Start(store), ops[0]), ops[1]), ops[2]), ops[3])
  {
    hide Step;
    Three(x, store, ops[..3]);
    RunLast(x, store, ops[..3], ops[3]);
    assert ops == ops[..3] + [ops[3]];
  }

  lemma Three(x: Indexer, store: map<Cid, nat>, ops: seq<Op>)
    requires |ops| == 3
    ensures Run(x, store, ops) == Step(x, Step(x, Step(x, Start(store), ops[0]), ops[1]), ops[2])
  {
    hide Step;
    assert Run(x, store, []) == Start(store);
    RunLast(x, store, [], ops[0]);
    RunLast(x, store, [ops[0]], ops[1]);
    RunLast(x, store, [ops[0], ops[1]], ops[2]);
    assert ops == [ops[0], ops[1]] + [ops[2]] && [ops[0], ops[1]] == [ops[0]] + [ops[1]] && [ops[0]] == [] + [ops[0]];
  }

  // ---- a deletion by another part of the node

  /** A block that other parts stored is listed in an index; then they delete it, as history pruning does
      with the bodies of old blocks. */
  function PrunedRun(c: Cid): seq<Op> {
    [OpCheck(0, [c], c), OpCommit(0, 0, true), OpDelete(c)]
  }

  /** Looking up and committing were harmless; after the deletion, uploading the block again ends with the
      deletion of a block that a pending index lists. */
  lemma PrunedIndex(x: Indexer, c: Cid, t: nat)
    requires c !in Cids(IndexOf(x, c).blocks) && t + LOOSE_FOR + 1 <= PAY_WITHIN
    requires PendingBytes(Run(x, map[c := 1], PrunedRun(c)).s.blocks) < MAX_PENDING_BYTES
    ensures HarmlessAt(x, map[c := 1], PrunedRun(c), 0) && HarmlessAt(x, map[c := 1], PrunedRun(c), 1)
    ensures DeletesListed(Run(x, map[c := 1], PrunedRun(c) + [OpUpload([Item(c, 1)], t, true)]).s, t + LOOSE_FOR + 1, IndexOf(x, c).root, c)
  {
    var store, ops := map[c := 1], PrunedRun(c);
    var w1 := Step(x, Start(store), ops[0]);
    var w2 := Step(x, w1, ops[1]);
    var w3 := Step(x, w2, ops[2]);
    LookUp(c, store);
    hide CheckIndex, CommitIndex, PendingBytes, Run, DeletesListed, Sweep;
    CommitOnly(x, w1, c, 0, true);
    Three(x, store, ops);
    assert HarmlessAt(x, store, ops, 0);
    assert ops[..1] == [] + [ops[0]];
    assert Run(x, store, []) == Start(store) by { NoSteps(x, store); }
    RunLast(x, store, [], ops[0]);
    assert StillStored(x, w1.s, Looked(c));
    UploadedAgain(x, w3, IndexOf(x, c).root, c, t, true);
    RunLast(x, store, ops, OpUpload([Item(c, 1)], t, true));
  }

  lemma NoSteps(x: Indexer, store: map<Cid, nat>)
    ensures Run(x, store, []) == Start(store)
  {
  }

  // ---- a restart from an outrun state file

  /** A collection deletes an uploaded block and the node crashes before the state file is written. After the
      restart another part stores the same block. */
  function StaleRun(c: Cid): seq<Op> {
    [OpUpload([Item(c, 1)], 0, true), OpSweep([], [], LOOSE_FOR + 1, false), OpRestart, OpStore(Item(c, 1))]
  }

  /** Then the next collection deletes a block that this node did not get by upload, at once. */
  lemma StaleRestart(x: Indexer, c: Cid)
    ensures var w := Run(x, map[], StaleRun(c));
            && c in w.s.store && c in w.s.blocks && c !in Sweep(w.s, [], [], LOOSE_FOR + 1).store
    ensures forall k :: 0 <= k < 4 ==> (HarmlessAt(x, map[], StaleRun(c), k) <==> k != 2)
  {
    var ops := StaleRun(c);
    var w1 := Step(x, Start(map[]), ops[0]);
    var w2 := Step(x, w1, ops[1]);
    var w3 := Step(x, w2, ops[2]);
    var w4 := Step(x, w3, ops[3]);
    FirstUpload(x, c);
    SweepAll(c);
    Four(x, map[], ops);
    assert ops[..2] == [ops[0]] + [ops[1]] && [ops[0]] == [] + [ops[0]];
    NoSteps(x, map[]);
    RunLast(x, map[], [], ops[0]);
    RunLast(x, map[], [ops[0]], ops[1]);
    hide Uploaded, PendingBytes, Run;
    assert !Current(w2.s, w2.p, w2.file) by {
      assert c in w2.file.blocks && c !in w2.s.store;
    }
    SweepLoose(w4.s, c, LOOSE_FOR + 1);
  }
}
