/** Keeping the newest snapshots and deleting the others' blocks (crates/chain/src/history.rs,
    `take_snapshot`). Blocks are addressed by content. */
module SnapshotStore {
  import opened Options

  const KEEP_SNAPSHOTS: nat := 2

  type Cid = nat

  datatype Content = Root(number: nat, accounts: seq<Cid>, codes: seq<Cid>) | Other(id: nat)

  type Blocks = map<Cid, Content>

  /** The chunks the block `c` lists, if it is present and a snapshot root. */
  function Listed(s: Blocks, c: Cid): seq<Cid> {
    if c in s && s[c].Root? then s[c].accounts + s[c].codes else []
  }

  function Elems(l: seq<Cid>): set<Cid> {
    set x | x in l
  }

  function ListedBy(s: Blocks, roots: seq<Cid>): set<Cid> {
    if roots == [] then {} else ListedBy(s, roots[..|roots| - 1]) + Elems(Listed(s, roots[|roots| - 1]))
  }

  lemma {:induction false} ListedIn(s: Blocks, roots: seq<Cid>, x: Cid)
    ensures x in ListedBy(s, roots) <==> exists i :: 0 <= i < |roots| && x in Listed(s, roots[i])
  {
    hide Listed;
    if roots != [] {
      var less, c := roots[..|roots| - 1], roots[|roots| - 1];
      ListedIn(s, less, x);
      if x in ListedBy(s, less) {
        var i :| 0 <= i < |less| && x in Listed(s, less[i]);
        assert x in Listed(s, roots[i]);
      }
      if exists i :: 0 <= i < |roots| && x in Listed(s, roots[i]) {
        var i :| 0 <= i < |roots| && x in Listed(s, roots[i]);
        assert i < |less| ==> x in Listed(s, less[i]);
      }
    }
  }

  /** Deletes the chunks of one old snapshot that no kept one lists, and its root. */
  function DropOne(s: Blocks, keep: set<Cid>, c: Cid): Blocks {
    s - (set x | x in Listed(s, c) && x !in keep) - {c}
  }

  function DropAll(s: Blocks, keep: set<Cid>, dropped: seq<Cid>): Blocks {
    if dropped == [] then s else DropOne(DropAll(s, keep, dropped[..|dropped| - 1]), keep, dropped[|dropped| - 1])
  }

  datatype Store = Store(blocks: Blocks, roots: seq<Cid>)

  /** The roots whose block is present and decodes. */
  function Snapshots(s: Store): seq<Cid> {
    SnapshotsOf(s.blocks, s.roots)
  }

  function SnapshotsOf(b: Blocks, roots: seq<Cid>): (r: seq<Cid>)
    ensures forall i :: 0 <= i < |r| ==> r[i] in b && b[r[i]].Root?
    ensures (forall i :: 0 <= i < |roots| ==> roots[i] in b && b[roots[i]].Root?) ==> r == roots
  {
    if roots == [] then []
    else
      var last := roots[|roots| - 1];
      SnapshotsOf(b, roots[..|roots| - 1]) + if last in b && b[last].Root? then [last] else []
  }

  predicate HasNumber(b: Blocks, roots: seq<Cid>, number: nat) {
    exists i :: 0 <= i < |roots| && roots[i] in b && b[roots[i]].Root? && b[roots[i]].number == number
  }

  function EpochOf(slots: nat, height: nat): nat
    requires slots > 0
  {
    if height == 0 then 0 else (height - 1) / slots
  }

  function EpochEnd(slots: nat, epoch: nat): nat {
    (epoch + 1) * slots
  }

  /** Whether a head of this number gets a snapshot: it ends its epoch. */
  predicate EndsEpoch(slots: nat, number: nat)
    requires slots > 0
  {
    number > 0 && EpochEnd(slots, EpochOf(slots, number)) == number
  }

  /** Takes a snapshot of the head. Nothing happens without a head or inside an epoch. */
  function Take(s: Store, slots: nat, head: Option<nat>, added: Blocks, root: Cid): Store
    requires slots > 0
  {
    if head.None? || !EndsEpoch(slots, head.value) then s else Record(s, head.value, added, root)
  }

  /** Writes the new snapshot's blocks, records its root and drops the oldest snapshots. Nothing
      happens if its block already has one. */
  function Record(s: Store, number: nat, added: Blocks, root: Cid): Store {
    var existing := Snapshots(s);
    if HasNumber(s.blocks, existing, number) then s
    else
      var blocks := s.blocks + added;
      var roots := existing + [root];
      if |roots| <= KEEP_SNAPSHOTS then Store(blocks, roots)
      else
        var cut := |roots| - KEEP_SNAPSHOTS;
        Store(DropAll(blocks, ListedBy(blocks, roots[cut..]), roots[..cut]), roots[cut..])
  }

  // ---- the loops

  method CollectKept(s: Blocks, roots: seq<Cid>) returns (keep: set<Cid>)
    ensures keep == ListedBy(s, roots)
  {
    keep := {};
    for i := 0 to |roots|
      invariant keep == ListedBy(s, roots[..i])
    {
      var more := Listed(s, roots[i]);
      ListedLast(s, roots[..i], roots[i]);
      assert roots[..i + 1] == roots[..i] + [roots[i]];
      keep := keep + Elems(more);
    }
    assert roots[..|roots|] == roots;
  }

  lemma ListedLast(s: Blocks, roots: seq<Cid>, c: Cid)
    ensures ListedBy(s, roots + [c]) == ListedBy(s, roots) + Elems(Listed(s, c))
  {
    assert (roots + [c])[..|roots|] == roots;
  }

  method DropChunks(s: Blocks, keep: set<Cid>, chunks: seq<Cid>) returns (r: Blocks)
    ensures r == s - (set x | x in chunks && x !in keep)
  {
    r := s;
    for k := 0 to |chunks|
      invariant r == s - (set x | x in chunks[..k] && x !in keep)
    {
      assert chunks[..k + 1] == chunks[..k] + [chunks[k]];
      if chunks[k] !in keep {
        r := r - {chunks[k]};
      }
    }
    assert chunks[..|chunks|] == chunks;
  }

  method DropLoop(s: Blocks, keep: set<Cid>, dropped: seq<Cid>) returns (r: Blocks)
    ensures r == DropAll(s, keep, dropped)
  {
    r := s;
    for i := 0 to |dropped|
      invariant r == DropAll(s, keep, dropped[..i])
    {
      assert dropped[..i + 1][..i] == dropped[..i];
      var chunks := Listed(r, dropped[i]);
      r := DropChunks(r, keep, chunks);
      r := r - {dropped[i]};
    }
    assert dropped[..|dropped|] == dropped;
  }

  method TakeSnapshot(s: Store, slots: nat, head: Option<nat>, added: Blocks, root: Cid) returns (r: Store)
    requires slots > 0
    ensures r == Take(s, slots, head, added, root)
  {
    if head.None? {
      return s;
    }
    var number := head.value;
    if number == 0 || EpochEnd(slots, EpochOf(slots, number)) != number {
      return s;
    }
    hide Record;
    r := RecordSnapshot(s, number, added, root);
  }

  method RecordSnapshot(s: Store, number: nat, added: Blocks, root: Cid) returns (r: Store)
    ensures r == Record(s, number, added, root)
  {
    var existing := Snapshots(s);
    if HasNumber(s.blocks, existing, number) {
      return s;
    }
    var blocks, roots := s.blocks + added, existing + [root];
    if |roots| > KEEP_SNAPSHOTS {
      var cut := |roots| - KEEP_SNAPSHOTS;
      var dropped := roots[..cut];
      roots := roots[cut..];
      var keep := CollectKept(blocks, roots);
      blocks := DropLoop(blocks, keep, dropped);
    }
    r := Store(blocks, roots);
  }

  // ---- what is deleted

  lemma {:induction false} DropOnly(s: Blocks, keep: set<Cid>, dropped: seq<Cid>, x: Cid)
    requires x in s && x !in dropped
    requires x in keep || x !in ListedBy(s, dropped)
    ensures var r := DropAll(s, keep, dropped); x in r && r[x] == s[x]
  {
    if dropped != [] {
      var less, c := dropped[..|dropped| - 1], dropped[|dropped| - 1];
      assert dropped == less + [c];
      ListedLast(s, less, c);
      DropOnly(s, keep, less, x);
      DropSub(s, keep, less);
      var b := DropAll(s, keep, less);
      assert x in Listed(b, c) ==> x in Listed(s, c);
    }
  }

  lemma {:induction false} DropSub(s: Blocks, keep: set<Cid>, dropped: seq<Cid>)
    ensures var r := DropAll(s, keep, dropped); forall x :: x in r ==> x in s && r[x] == s[x]
  {
    if dropped != [] {
      DropSub(s, keep, dropped[..|dropped| - 1]);
    }
  }

  lemma {:induction false} DropGone(s: Blocks, keep: set<Cid>, dropped: seq<Cid>, i: nat)
    requires i < |dropped|
    ensures dropped[i] !in DropAll(s, keep, dropped)
  {
    if i < |dropped| - 1 {
      DropGone(s, keep, dropped[..|dropped| - 1], i);
    }
  }

  /** Dropping old snapshots leaves a chunk that a kept one lists in place exactly when the chunk is
      not itself one of the dropped roots. */
  lemma KeptChunk(s: Blocks, keep: set<Cid>, dropped: seq<Cid>, x: Cid)
    requires x in s && x in keep
    ensures x in DropAll(s, keep, dropped) <==> x !in dropped
  {
    if x in dropped {
      var i :| 0 <= i < |dropped| && dropped[i] == x;
      DropGone(s, keep, dropped, i);
    } else {
      DropOnly(s, keep, dropped, x);
    }
  }

  // ---- every run

  /** Content addressing: a CID determines its block, and the chunks of a root are no roots. */
  ghost predicate Universe(u: Blocks) {
    forall c, x :: c in u && u[c].Root? && x in Listed(u, c) ==> x in u && u[x].Other?
  }

  ghost predicate Within(u: Blocks, b: Blocks) {
    forall c :: c in b ==> c in u && u[c] == b[c]
  }

  /** The snapshot at `c` can be served: its root and all its chunks are present. */
  ghost predicate Complete(b: Blocks, c: Cid) {
    c in b && b[c].Root? && forall x :: x in Listed(b, c) ==> x in b
  }

  /** Every kept snapshot is complete; there are at most two, of different blocks. */
  ghost predicate Ok(u: Blocks, s: Store) {
    && Universe(u)
    && Within(u, s.blocks)
    && |s.roots| <= KEEP_SNAPSHOTS
    && (forall i :: 0 <= i < |s.roots| ==> Complete(s.blocks, s.roots[i]))
    && (forall i, j :: 0 <= i < j < |s.roots| ==> s.roots[i] != s.roots[j])
  }

  /** A snapshot of block `number`: root and chunks, all newly written. */
  ghost predicate IsSnapshot(u: Blocks, number: nat, added: Blocks, root: Cid) {
    Within(u, added) && Complete(added, root) && added[root].number == number
  }

  lemma CompleteGrows(u: Blocks, b: Blocks, d: Blocks, c: Cid)
    requires Within(u, b) && Within(u, d) && (Complete(b, c) || Complete(d, c))
    ensures Within(u, b + d) && Complete(b + d, c)
  {
  }

  lemma CompleteStays(u: Blocks, b: Blocks, kept: seq<Cid>, dropped: seq<Cid>, k: nat)
    requires Universe(u) && Within(u, b) && k < |kept| && Complete(b, kept[k]) && kept[k] !in dropped
    requires forall i :: 0 <= i < |dropped| ==> dropped[i] in b && b[dropped[i]].Root?
    ensures Complete(DropAll(b, ListedBy(b, kept), dropped), kept[k])
  {
    var keep, c := ListedBy(b, kept), kept[k];
    var r := DropAll(b, keep, dropped);
    assert u[c].Root?;
    forall i | 0 <= i < |dropped| ensures c !in Listed(b, dropped[i]) {
      assert Listed(b, dropped[i]) == Listed(u, dropped[i]);
    }
    ListedIn(b, dropped, c);
    DropOnly(b, keep, dropped, c);
    forall x | x in Listed(r, c) ensures x in r {
      assert x in Listed(b, c);
      assert x in Listed(u, c);
      ListedIn(b, kept, x);
      assert x !in dropped;
      DropOnly(b, keep, dropped, x);
    }
  }

  /** After writing a new snapshot, all roots are complete and the new one differs from the others. */
  ghost predicate AllComplete(u: Blocks, s: Store, added: Blocks, root: Cid) {
    var roots := s.roots + [root];
    && Within(u, s.blocks + added)
    && forall i :: 0 <= i < |roots| ==> Complete(s.blocks + added, roots[i]) && (i < |s.roots| ==> roots[i] != root)
  }

  lemma WrittenComplete(u: Blocks, s: Store, number: nat, added: Blocks, root: Cid)
    requires Ok(u, s) && IsSnapshot(u, number, added, root) && !HasNumber(s.blocks, s.roots, number)
    ensures AllComplete(u, s, added, root)
  {
    var roots := s.roots + [root];
    forall i | 0 <= i < |roots| ensures Complete(s.blocks + added, roots[i]) && (i < |s.roots| ==> roots[i] != root) {
      if i < |s.roots| {
        assert Complete(s.blocks, s.roots[i]);
      }
      CompleteGrows(u, s.blocks, added, roots[i]);
    }
  }

  lemma OkSnapshots(u: Blocks, s: Store)
    requires Ok(u, s)
    ensures Snapshots(s) == s.roots && |s.roots| <= KEEP_SNAPSHOTS
  {
    forall i | 0 <= i < |s.roots| ensures s.roots[i] in s.blocks && s.blocks[s.roots[i]].Root? {
      assert Complete(s.blocks, s.roots[i]);
    }
  }

  lemma FewKept(u: Blocks, s: Store, added: Blocks, root: Cid)
    requires Ok(u, s) && AllComplete(u, s, added, root) && |s.roots| < KEEP_SNAPSHOTS
    ensures Ok(u, Store(s.blocks + added, s.roots + [root]))
  {
    hide Complete, Universe, Within;
  }

  lemma DropKeeps(u: Blocks, s: Store, added: Blocks, root: Cid)
    requires Ok(u, s) && AllComplete(u, s, added, root) && |s.roots| == KEEP_SNAPSHOTS
    ensures var blocks, roots := s.blocks + added, s.roots + [root];
            Ok(u, Store(DropAll(blocks, ListedBy(blocks, roots[1..]), roots[..1]), roots[1..]))
  {
    var blocks, roots := s.blocks + added, s.roots + [root];
    var dropped, kept := roots[..1], roots[1..];
    var keep := ListedBy(blocks, kept);
    DropSub(blocks, keep, dropped);
    hide ListedBy, DropAll;
    forall k | 0 <= k < |kept| ensures Complete(DropAll(blocks, keep, dropped), kept[k]) {
      assert kept[k] == roots[k + 1] && kept[k] != roots[0];
      assert Complete(blocks, roots[0]);
      CompleteStays(u, blocks, kept, dropped, k);
    }
  }

  lemma DropLeaves(u: Blocks, s: Store, added: Blocks, root: Cid, x: Cid)
    requires Ok(u, s) && AllComplete(u, s, added, root) && |s.roots| == KEEP_SNAPSHOTS
    requires x in s.blocks && x !in s.roots && x !in ListedBy(s.blocks, s.roots)
    ensures var blocks, roots := s.blocks + added, s.roots + [root];
            var r := DropAll(blocks, ListedBy(blocks, roots[1..]), roots[..1]);
            x in r && r[x] == s.blocks[x]
  {
    var blocks, roots := s.blocks + added, s.roots + [root];
    var dropped := roots[..1];
    assert Complete(s.blocks, s.roots[0]);
    assert Listed(blocks, s.roots[0]) == Listed(s.blocks, s.roots[0]);
    ListedIn(s.blocks, s.roots, x);
    assert dropped == [s.roots[0]];
    ListedIn(blocks, dropped, x);
    assert u[x] == blocks[x];
    DropOnly(blocks, ListedBy(blocks, roots[1..]), dropped, x);
  }

  /** Recording a snapshot keeps the invariant, and removes nothing but the dropped snapshots' roots and
      the chunks they list. */
  lemma RecordOk(u: Blocks, s: Store, number: nat, added: Blocks, root: Cid)
    requires Ok(u, s) && IsSnapshot(u, number, added, root)
    ensures Ok(u, Record(s, number, added, root))
    ensures var r := Record(s, number, added, root);
            forall x :: x in s.blocks && x !in s.roots && x !in ListedBy(s.blocks, s.roots) ==> x in r.blocks && r.blocks[x] == s.blocks[x]
  {
    Unchanged(u, s, number, added, root);
    hide DropAll, ListedBy, Ok, AllComplete, IsSnapshot, HasNumber;
    var r := Record(s, number, added, root);
    OkSnapshots(u, s);
    if !HasNumber(s.blocks, s.roots, number) {
      WrittenComplete(u, s, number, added, root);
      if |s.roots| < KEEP_SNAPSHOTS {
        FewKept(u, s, added, root);
      } else {
        DropKeeps(u, s, added, root);
        forall x | x in s.blocks && x !in s.roots && x !in ListedBy(s.blocks, s.roots)
          ensures x in r.blocks && r.blocks[x] == s.blocks[x]
        {
          DropLeaves(u, s, added, root, x);
        }
      }
    }
  }

  lemma Unchanged(u: Blocks, s: Store, number: nat, added: Blocks, root: Cid)
    requires Ok(u, s) && IsSnapshot(u, number, added, root)
    ensures forall x :: x in s.blocks ==> x in s.blocks + added && (s.blocks + added)[x] == s.blocks[x]
  {
  }

  /** Exactly the heights that are positive multiples of the epoch length end an epoch. */
  lemma EndsEpochExactly(slots: nat, number: nat)
    requires slots > 0
    ensures EndsEpoch(slots, number) <==> number > 0 && exists e: nat :: number == EpochEnd(slots, e)
  {
    if e: nat :| number > 0 && number == EpochEnd(slots, e) {
      LastOf(slots, e);
    }
  }

  lemma LastOf(slots: nat, e: nat)
    requires slots > 0
    ensures EpochOf(slots, EpochEnd(slots, e)) == e
  {
    var n := EpochEnd(slots, e) - 1;
    assert n == e * slots + (slots - 1);
    OneQuotient(slots, n / slots, n % slots, e, slots - 1);
  }

  lemma OneQuotient(d: nat, q: nat, m: nat, p: nat, k: nat)
    requires m < d && k < d && q * d + m == p * d + k
    ensures q == p
  {
    if q < p {
      Multiple(d, p - q);
    } else if p < q {
      Multiple(d, q - p);
    }
  }

  lemma Multiple(d: nat, k: nat)
    requires k > 0
    ensures k * d >= d
  {
  }

  /** Every kept snapshot is of a block that ends an epoch. */
  ghost predicate AtEpochEnds(slots: nat, s: Store)
    requires slots > 0
  {
    forall i :: 0 <= i < |s.roots| ==>
      s.roots[i] in s.blocks && s.blocks[s.roots[i]].Root? && EndsEpoch(slots, s.blocks[s.roots[i]].number)
  }

  lemma RecordRoots(u: Blocks, s: Store, number: nat, added: Blocks, root: Cid)
    requires Ok(u, s)
    ensures forall c :: c in Record(s, number, added, root).roots ==> c in s.roots || c == root
  {
    OkSnapshots(u, s);
    hide DropAll, ListedBy, HasNumber, Ok, Snapshots;
  }

  lemma RecordAligned(u: Blocks, s: Store, slots: nat, number: nat, added: Blocks, root: Cid)
    requires slots > 0 && Ok(u, s) && AtEpochEnds(slots, s) && EndsEpoch(slots, number) && IsSnapshot(u, number, added, root)
    ensures AtEpochEnds(slots, Record(s, number, added, root))
  {
    var r := Record(s, number, added, root);
    RecordRoots(u, s, number, added, root);
    RecordOk(u, s, number, added, root);
    hide EndsEpoch, Record, ListedBy, Ok;
    forall i | 0 <= i < |r.roots|
      ensures r.roots[i] in r.blocks && r.blocks[r.roots[i]].Root? && EndsEpoch(slots, r.blocks[r.roots[i]].number)
    {
      var c := r.roots[i];
      KeptIs(u, r, c);
      if c != root {
        KeptIs(u, s, c);
      }
    }
  }

  lemma KeptIs(u: Blocks, s: Store, c: Cid)
    requires Ok(u, s) && c in s.roots
    ensures c in u && c in s.blocks && s.blocks[c].Root? && s.blocks[c] == u[c]
  {
    var i :| 0 <= i < |s.roots| && s.roots[i] == c;
    assert Complete(s.blocks, s.roots[i]);
  }

  /** Taking a snapshot keeps every kept one complete and at an epoch's end, and removes nothing but the
      dropped snapshots' roots and the chunks they list. */
  lemma TakeOk(u: Blocks, s: Store, slots: nat, head: Option<nat>, added: Blocks, root: Cid)
    requires slots > 0 && Ok(u, s) && AtEpochEnds(slots, s) && (head.Some? ==> IsSnapshot(u, head.value, added, root))
    ensures var r := Take(s, slots, head, added, root);
            && Ok(u, r) && AtEpochEnds(slots, r)
            && forall x :: x in s.blocks && x !in s.roots && x !in ListedBy(s.blocks, s.roots) ==> x in r.blocks && r.blocks[x] == s.blocks[x]
  {
    hide Ok, AtEpochEnds, IsSnapshot, EndsEpoch, Record, ListedBy;
    if head.Some? && EndsEpoch(slots, head.value) {
      RecordOk(u, s, head.value, added, root);
      RecordAligned(u, s, slots, head.value, added, root);
    }
  }

  /** What taking a snapshot does: at an epoch's last block that has none yet, the new snapshot is recorded as the
      newest of at most two, and a block is gone exactly when it is a dropped root, or a dropped snapshot
      lists it and no kept one does. Otherwise nothing happens. */
  lemma TakeExactly(u: Blocks, s: Store, slots: nat, head: Option<nat>, added: Blocks, root: Cid)
    requires slots > 0 && Ok(u, s) && (head.Some? ==> IsSnapshot(u, head.value, added, root))
    ensures var r := Take(s, slots, head, added, root);
            if head.None? || !EndsEpoch(slots, head.value) || HasNumber(s.blocks, s.roots, head.value) then r == s
            else
              var all, before := s.roots + [root], s.blocks + added;
              var cut := if |all| > KEEP_SNAPSHOTS then |all| - KEEP_SNAPSHOTS else 0;
              && r.roots == all[cut..]
              && forall x :: x in r.blocks <==>
                   x in before && x !in all[..cut] && (x in ListedBy(before, all[..cut]) ==> x in ListedBy(before, all[cut..]))
  {
    OkSnapshots(u, s);
    hide EndsEpoch, HasNumber, Snapshots, Ok, IsSnapshot, ListedBy, DropAll;
    if |s.roots| == KEEP_SNAPSHOTS {
      DroppedExactly(s.blocks + added, s.roots + [root]);
    } else {
      NoneListed(s.blocks + added);
      var all := s.roots + [root];
      assert all[..0] == [] && all[0..] == all;
    }
  }

  lemma DroppedExactly(b: Blocks, all: seq<Cid>)
    requires all != []
    ensures forall x :: x in DropAll(b, ListedBy(b, all[1..]), all[..1]) <==>
              x in b && x !in all[..1] && (x in ListedBy(b, all[..1]) ==> x in ListedBy(b, all[1..]))
  {
    hide ListedBy, DropAll;
    assert all[..1] == [all[0]];
    forall x ensures x in DropAll(b, ListedBy(b, all[1..]), [all[0]]) <==>
                     x in b && x != all[0] && (x in ListedBy(b, [all[0]]) ==> x in ListedBy(b, all[1..])) {
      OneDropped(b, ListedBy(b, all[1..]), all[0], x);
    }
  }

  lemma OneDropped(b: Blocks, keep: set<Cid>, c: Cid, x: Cid)
    ensures x in DropAll(b, keep, [c]) <==> x in b && x != c && (x in ListedBy(b, [c]) ==> x in keep)
  {
    assert [c][..0] == [];
    assert DropAll(b, keep, []) == b;
    ListedLast(b, [], c);
    NoneListed(b);
    assert [] + [c] == [c];
  }

  lemma NoneListed(b: Blocks)
    ensures ListedBy(b, []) == {}
  {
  }

  /** Other parts of the node write and delete blocks of the same store: block bodies, uploads, and the chunks
      of a snapshot that was not recorded because the node stopped before. */
  datatype Op =
    | OpTake(head: Option<nat>, blocks: Blocks, root: Cid)
    | OpStore(blocks: Blocks)
    | OpDelete(c: Cid)

  function Step(slots: nat, s: Store, op: Op): Store
    requires slots > 0
  {
    match op
    case OpTake(head, blocks, root) => Take(s, slots, head, blocks, root)
    case OpStore(blocks) => s.(blocks := s.blocks + blocks)
    case OpDelete(c) => s.(blocks := s.blocks - {c})
  }

  /** Content addressing, and what is written for a snapshot is one. */
  ghost predicate OpOk(u: Blocks, op: Op) {
    match op
    case OpTake(head, blocks, root) => head.Some? ==> IsSnapshot(u, head.value, blocks, root)
    case OpStore(blocks) => Within(u, blocks)
    case OpDelete(_) => true
  }

  /** No kept snapshot needs the block. */
  predicate Unneeded(s: Store, c: Cid) {
    c !in s.roots && c !in ListedBy(s.blocks, s.roots)
  }

  predicate Harmless(s: Store, op: Op) {
    op.OpDelete? && op.c in s.blocks ==> Unneeded(s, op.c)
  }

  ghost predicate Good(u: Blocks, slots: nat, s: Store)
    requires slots > 0
  {
    Ok(u, s) && AtEpochEnds(slots, s)
  }

  lemma StoreGood(u: Blocks, slots: nat, s: Store, added: Blocks)
    requires slots > 0 && Good(u, slots, s) && Within(u, added)
    ensures Good(u, slots, s.(blocks := s.blocks + added))
  {
    hide EndsEpoch;
    forall i | 0 <= i < |s.roots| ensures Complete(s.blocks + added, s.roots[i]) {
      assert Complete(s.blocks, s.roots[i]);
      CompleteGrows(u, s.blocks, added, s.roots[i]);
    }
  }

  /** Deleting a stored block keeps every snapshot complete exactly when none needs it. */
  lemma DeleteExact(u: Blocks, slots: nat, s: Store, c: Cid)
    requires slots > 0 && Good(u, slots, s) && c in s.blocks
    ensures Good(u, slots, s.(blocks := s.blocks - {c})) <==> Unneeded(s, c)
  {
    hide EndsEpoch, ListedBy;
    var d := s.(blocks := s.blocks - {c});
    ListedIn(s.blocks, s.roots, c);
    if c in s.roots {
      var i :| 0 <= i < |s.roots| && s.roots[i] == c;
      assert !Complete(d.blocks, d.roots[i]);
    } else if i :| 0 <= i < |s.roots| && c in Listed(s.blocks, s.roots[i]) {
      assert Complete(s.blocks, s.roots[i]);
      assert Listed(d.blocks, s.roots[i]) == Listed(s.blocks, s.roots[i]);
      assert !Complete(d.blocks, d.roots[i]);
    } else {
      forall i | 0 <= i < |s.roots| ensures Complete(d.blocks, s.roots[i]) {
        assert Complete(s.blocks, s.roots[i]);
      }
    }
  }

  lemma StepExact(u: Blocks, slots: nat, s: Store, op: Op)
    requires slots > 0 && Good(u, slots, s) && OpOk(u, op)
    ensures Good(u, slots, Step(slots, s, op)) <==> Harmless(s, op)
  {
    hide Take, IsSnapshot, Unneeded, AtEpochEnds, Ok;
    match op
    case OpTake(head, blocks, root) => TakeOk(u, s, slots, head, blocks, root);
    case OpStore(blocks) => StoreGood(u, slots, s, blocks);
    case OpDelete(c) =>
      if c in s.blocks {
        DeleteExact(u, slots, s, c);
      } else {
        assert s.blocks - {c} == s.blocks;
      }
  }

  function Run(slots: nat, ops: seq<Op>): Store
    requires slots > 0
  {
    if ops == [] then Store(map[], []) else Step(slots, Run(slots, ops[..|ops| - 1]), ops[|ops| - 1])
  }

  ghost predicate GoodAt(u: Blocks, slots: nat, ops: seq<Op>, k: nat)
    requires slots > 0 && k <= |ops|
  {
    Good(u, slots, Run(slots, ops[..k]))
  }

  predicate HarmlessAt(slots: nat, ops: seq<Op>, k: nat)
    requires slots > 0 && k < |ops|
  {
    Harmless(Run(slots, ops[..k]), ops[k])
  }

  lemma RunStep(u: Blocks, slots: nat, ops: seq<Op>, k: nat)
    requires slots > 0 && k < |ops| && GoodAt(u, slots, ops, k) && OpOk(u, ops[k])
    ensures GoodAt(u, slots, ops, k + 1) <==> HarmlessAt(slots, ops, k)
  {
    assert ops[..k + 1][..k] == ops[..k];
    StepExact(u, slots, Run(slots, ops[..k]), ops[k]);
  }

  lemma {:induction false} HarmlessGood(u: Blocks, slots: nat, ops: seq<Op>, k: nat)
    requires slots > 0 && Universe(u) && k <= |ops| && forall i :: 0 <= i < |ops| ==> OpOk(u, ops[i])
    requires forall i :: 0 <= i < k ==> HarmlessAt(slots, ops, i)
    ensures GoodAt(u, slots, ops, k)
  {
    hide OpOk, HarmlessAt;
    if k == 0 {
      assert Run(slots, ops[..0]) == Store(map[], []);
    } else {
      HarmlessGood(u, slots, ops, k - 1);
      RunStep(u, slots, ops, k - 1);
    }
  }

  /** Over any run, whatever the heads and whatever other parts store and delete: in every state every snapshot
      the node keeps is complete and of the last block of an epoch, if and only if no other part ever deletes
      a block that a kept snapshot needs. Collecting old snapshots never does. */
  lemma AlwaysComplete(u: Blocks, slots: nat, ops: seq<Op>)
    requires slots > 0 && Universe(u) && forall i :: 0 <= i < |ops| ==> OpOk(u, ops[i])
    ensures (forall k :: 0 <= k <= |ops| ==> GoodAt(u, slots, ops, k)) <==> (forall k :: 0 <= k < |ops| ==> HarmlessAt(slots, ops, k))
  {
    hide GoodAt, HarmlessAt, OpOk;
    if forall k :: 0 <= k < |ops| ==> HarmlessAt(slots, ops, k) {
      forall k | 0 <= k <= |ops| ensures GoodAt(u, slots, ops, k) {
        HarmlessGood(u, slots, ops, k);
      }
    }
    if forall k :: 0 <= k <= |ops| ==> GoodAt(u, slots, ops, k) {
      forall k | 0 <= k < |ops| ensures HarmlessAt(slots, ops, k) {
        assert GoodAt(u, slots, ops, k + 1);
        RunStep(u, slots, ops, k);
      }
    }
  }
}
