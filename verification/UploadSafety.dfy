/** What the upload bookkeeping keeps over whole runs, and exactly which index commits break it. */
module UploadSafety {
  import opened Options
  import opened ByteCodec
  import opened Uploads

  // ---- request bodies and the quota

  lemma LengthRead(n: nat, rest: Bytes)
    requires n <= MAX_BLOCK
    ensures TakeBe(Be(n, 4) + rest, 4) == Got(n, rest)
  {
    Widths();
    TakeBeFront(n, 4, rest);
  }

  lemma {:induction false} BodyParses(blocks: seq<Bytes>)
    requires forall i :: 0 <= i < |blocks| ==> BlockOk(blocks[i])
    ensures ParseBody(Body(blocks)) == Some(blocks)
  {
    hide TakeBe, Be;
    if blocks != [] {
      var b, rest := blocks[0], Body(blocks[1..]);
      BodyParses(blocks[1..]);
      LengthRead(|b|, b + rest);
      assert (b + rest)[..|b|] == b && (b + rest)[|b|..] == rest;
      assert blocks == [b] + blocks[1..];
    }
  }

  lemma {:induction false} ParsedIsBody(d: Bytes)
    ensures var p := ParseBody(d); p.Some? ==> d == Body(p.value) && forall i :: 0 <= i < |p.value| ==> BlockOk(p.value[i])
    decreases |d|
  {
    hide FromBe, Be;
    if d != [] && ParseBody(d).Some? {
      var n, r := TakeBe(d, 4).value, TakeBe(d, 4).rest;
      ParsedIsBody(r[n..]);
      var more := ParseBody(r[n..]).value;
      BeOfFromBe(d[..4]);
      assert ParseBody(d).value == [r[..n]] + more;
      assert d == d[..4] + (r[..n] + r[n..]);
    }
  }

  /** A request body is read as a list of blocks exactly when it is that list framed, every block between
      one byte and a mebibyte. */
  lemma BodyExact(d: Bytes, blocks: seq<Bytes>)
    ensures ParseBody(d) == Some(blocks) <==> d == Body(blocks) && forall i :: 0 <= i < |blocks| ==> BlockOk(blocks[i])
  {
    hide ParseBody, Body;
    ParsedIsBody(d);
    if d == Body(blocks) && forall i :: 0 <= i < |blocks| ==> BlockOk(blocks[i]) {
      BodyParses(blocks);
    }
  }

  lemma Unfolded(blocks: map<Cid, Tracked>, keys: set<Cid>) returns (m: Cid)
    requires keys <= blocks.Keys && keys != {}
    ensures m in keys && SumOver(blocks, keys) == blocks[m].size + SumOver(blocks, keys - {m})
  {
    LeastExists(keys);
    m :| m in keys && forall d :: d in keys ==> m <= d;
  }

  /** The sum does not depend on which key is taken first. */
  lemma {:induction false} SumWithout(blocks: map<Cid, Tracked>, keys: set<Cid>, c: Cid)
    requires keys <= blocks.Keys && c in keys
    ensures SumOver(blocks, keys) == blocks[c].size + SumOver(blocks, keys - {c})
  {
    var m := Unfolded(blocks, keys);
    hide SumOver;
    if m != c {
      SumWithout(blocks, keys - {m}, c);
      SumWithout(blocks, keys - {c}, m);
      assert keys - {m} - {c} == keys - {c} - {m};
    }
  }

  lemma {:induction false} SumSame(a: map<Cid, Tracked>, b: map<Cid, Tracked>, keys: set<Cid>)
    requires keys <= a.Keys && keys <= b.Keys && forall c :: c in keys ==> a[c].size == b[c].size
    ensures SumOver(a, keys) == SumOver(b, keys)
  {
    if keys != {} {
      var c :| c in keys;
      SumWithout(a, keys, c);
      SumWithout(b, keys, c);
      SumSame(a, b, keys - {c});
    }
  }

  lemma PutOneBytes(s: State, b: Item, t: nat)
    requires forall c :: c in s.blocks ==> c in s.store
    ensures PendingBytes(PutOne(s, b, t).blocks) <= PendingBytes(s.blocks) + b.size
    ensures forall c :: c in PutOne(s, b, t).blocks ==> c in PutOne(s, b, t).store
  {
    if b.cid !in s.store {
      var d := PutOne(s, b, t).blocks;
      SumWithout(d, d.Keys, b.cid);
      assert d.Keys - {b.cid} == s.blocks.Keys;
      SumSame(d, s.blocks, s.blocks.Keys);
    }
  }

  lemma {:induction false} PutBytes(s: State, bs: seq<Item>, t: nat)
    requires forall c :: c in s.blocks ==> c in s.store
    ensures PendingBytes(Put(s, bs, t).blocks) <= PendingBytes(s.blocks) + TotalSize(bs)
    ensures forall c :: c in Put(s, bs, t).blocks ==> c in Put(s, bs, t).store
  {
    hide PendingBytes;
    if bs != [] {
      PutBytes(s, bs[..|bs| - 1], t);
      PutOneBytes(Put(s, bs[..|bs| - 1], t), bs[|bs| - 1], t);
    }
  }

  /** An accepted upload leaves the tracked bytes within the quota. */
  lemma UploadWithinQuota(s: State, bs: seq<Item>, t: nat)
    requires forall c :: c in s.blocks ==> c in s.store
    ensures var r := Uploaded(s, bs, t); r.Done? ==> PendingBytes(r.s.blocks) <= MAX_PENDING_BYTES
  {
    hide PendingBytes;
    PutBytes(s, bs, t);
  }

  /** What an upload answers and does: the body must be framed blocks of legal lengths, at least one, within the
      quota together with what is tracked; then every block is stored, and tracked exactly if it was not. */
  lemma UploadExactly(addr: Bytes -> Cid, s: State, body: Bytes, t: nat)
    ensures var r, p := UploadedBody(addr, s, body, t), ParseBody(body);
            var fits := p.Some? && p.value != [] && PendingBytes(s.blocks) + TotalSize(Items(addr, p.value)) <= MAX_PENDING_BYTES;
            && (r.Done? <==> fits)
            && (fits ==>
                  && (forall c :: c in r.s.store <==> c in s.store || exists i :: 0 <= i < |p.value| && addr(p.value[i]) == c)
                  && (forall c :: c in r.s.blocks <==> c in s.blocks || (c !in s.store && exists i :: 0 <= i < |p.value| && addr(p.value[i]) == c))
                  && r.s.roots == s.roots)
  {
    hide ParseBody, PendingBytes, TotalSize;
    var p := ParseBody(body);
    if p.Some? && p.value != [] {
      var bs := Items(addr, p.value);
      PutExactly(s, bs, t);
      assert |Cids(bs)| == |p.value| && forall i :: 0 <= i < |p.value| ==> Cids(bs)[i] == addr(p.value[i]);
      forall c ensures c in Cids(bs) <==> exists i :: 0 <= i < |p.value| && addr(p.value[i]) == c {
        if c in Cids(bs) {
          var i :| 0 <= i < |Cids(bs)| && Cids(bs)[i] == c;
          assert addr(p.value[i]) == c;
        }
      }
    }
  }

  lemma {:induction false} PutExactly(s: State, bs: seq<Item>, t: nat)
    ensures var d := Put(s, bs, t);
            && (forall c :: c in d.store <==> c in s.store || c in Cids(bs))
            && (forall c :: c in d.blocks <==> c in s.blocks || (c !in s.store && c in Cids(bs)))
            && d.roots == s.roots
  {
    if bs != [] {
      var less := bs[..|bs| - 1];
      PutExactly(s, less, t);
      assert Cids(bs) == Cids(less) + [bs[|bs| - 1].cid];
    }
  }

  /** An index request passes its check exactly when it names between one and 4096 blocks, all stored, its entry
      among them, of at most 256 MiB together. */
  lemma CheckExactly(store: map<Cid, nat>, req: seq<Cid>, entry: Cid)
    ensures var l := Listing(store, req);
            && (l.Some? <==> AllStored(store, req))
            && (CheckIndex(store, req, entry).Some? <==> 0 < |req| <= MAX_LISTED && l.Some? && entry in req && TotalSize(l.value) <= MAX_CERT_BYTES)
            && (CheckIndex(store, req, entry).Some? ==> CheckIndex(store, req, entry).value == Checked(l.value, entry))
  {
    ListingExactly(store, req);
    hide Listing, TotalSize;
  }

  predicate AllStored(store: map<Cid, nat>, req: seq<Cid>) {
    forall i :: 0 <= i < |req| ==> req[i] in store
  }

  lemma OneMore(store: map<Cid, nat>, less: seq<Cid>, c: Cid)
    ensures AllStored(store, less + [c]) <==> AllStored(store, less) && c in store
  {
    var req := less + [c];
    if AllStored(store, req) {
      assert req[|less|] in store;
      forall i | 0 <= i < |less| ensures less[i] in store {
        assert req[i] == less[i];
      }
    }
  }

  lemma ListingStep(store: map<Cid, nat>, less: seq<Cid>, c: Cid)
    requires Listing(store, less).Some? ==> forall x :: x in Cids(Listing(store, less).value) ==> x in store
    ensures Listing(store, less + [c]).Some? <==> Listing(store, less).Some? && c in store
  {
    assert (less + [c])[..|less|] == less;
  }

  lemma {:induction false} ListingExactly(store: map<Cid, nat>, req: seq<Cid>)
    ensures Listing(store, req).Some? <==> AllStored(store, req)
  {
    if req != [] {
      var less, c := req[..|req| - 1], req[|req| - 1];
      assert req == less + [c];
      ListingExactly(store, less);
      ListingFrom(store, less);
      hide Listing, AllStored;
      ListingStep(store, less, c);
      OneMore(store, less, c);
    }
  }

  lemma ListingFrom(store: map<Cid, nat>, req: seq<Cid>)
    ensures var l := Listing(store, req); l.Some? ==> forall x :: x in Cids(l.value) ==> x in store
  {
    ListingHeld(store, req);
    hide Listing;
    var l := Listing(store, req);
    if l.Some? {
      forall x | x in Cids(l.value) ensures x in store {
        var i :| 0 <= i < |Cids(l.value)| && Cids(l.value)[i] == x;
        assert l.value[i].cid in store;
      }
    }
  }

  // ---- invariant

  /** What happened so far: blocks this node first got by upload or index building, and blocks that an
      index observed as paid listed. */
  datatype Past = Past(got: set<Cid>, paid: set<Cid>)

  function RootsListing(roots: map<Cid, Pending>, c: Cid): set<Cid> {
    set r | r in roots && c in roots[r].cids
  }

  /** Each tracked block's root set is the set of pending roots listing it. */
  ghost predicate Exact(s: State) {
    forall c :: c in s.blocks ==> s.blocks[c].roots == RootsListing(s.roots, c)
  }

  /** Every block a pending index lists is in the store. */
  ghost predicate Held(s: State) {
    forall r, c :: r in s.roots && c in s.roots[r].cids ==> c in s.store
  }

  /** `lists(r)`: a root is the hash of an index, so it determines the deal's blocks. */
  ghost predicate Fixed(s: State, lists: Cid -> seq<Cid>) {
    forall r :: r in s.roots ==> s.roots[r].cids == lists(r)
  }

  ghost predicate Inv(s: State, p: Past, lists: Cid -> seq<Cid>) {
    && Exact(s) && Held(s) && Fixed(s, lists)
    && (forall c :: c in s.blocks ==> c in s.store && c in p.got && c !in p.paid)
    && (forall c :: c in p.paid ==> c in s.store)
  }

  lemma PutOneInv(s: State, p: Past, lists: Cid -> seq<Cid>, b: Item, t: nat)
    requires Inv(s, p, lists)
    ensures var d := PutOne(s, b, t);
            Inv(d, p.(got := if b.cid in s.store then p.got else p.got + {b.cid}), lists) && b.cid in d.store
            && (forall c :: c in s.store ==> c in d.store) && d.roots == s.roots
  {
    if b.cid !in s.store {
      assert RootsListing(s.roots, b.cid) == {};
    }
  }

  /** The blocks a put adds. */
  function Added(s: State, bs: seq<Item>, t: nat): set<Cid> {
    set c | c in Put(s, bs, t).store && c !in s.store
  }

  lemma {:induction false} PutInv(s: State, p: Past, lists: Cid -> seq<Cid>, bs: seq<Item>, t: nat)
    requires Inv(s, p, lists)
    ensures var d := Put(s, bs, t);
            && Inv(d, p.(got := p.got + Added(s, bs, t)), lists) && d.roots == s.roots
            && (forall c :: c in s.store ==> c in d.store)
            && (forall i :: 0 <= i < |bs| ==> bs[i].cid in d.store)
  {
    hide Inv;
    if bs == [] {
      assert Added(s, bs, t) == {};
      assert p.got + {} == p.got;
    } else {
      var less, b := bs[..|bs| - 1], bs[|bs| - 1];
      PutInv(s, p, lists, less, t);
      var m := Put(s, less, t);
      var q := p.(got := p.got + Added(s, less, t));
      PutOneInv(m, q, lists, b, t);
      assert (if b.cid in m.store then q.got else q.got + {b.cid}) == p.got + Added(s, bs, t);
    }
  }

  lemma MarkInv(s: State, p: Past, lists: Cid -> seq<Cid>, cids: seq<Cid>, root: Cid, t: nat)
    requires Inv(s, p, lists) && lists(root) == cids && forall i :: 0 <= i < |cids| ==> cids[i] in s.store
    ensures Inv(s.(blocks := Mark(s.blocks, cids, root), roots := s.roots[root := Pending(t, cids)]), p, lists)
  {
    var d := s.(blocks := Mark(s.blocks, cids, root), roots := s.roots[root := Pending(t, cids)]);
    forall c | c in d.blocks ensures d.blocks[c].roots == RootsListing(d.roots, c) {
      assert s.blocks[c].roots == RootsListing(s.roots, c);
    }
  }

  lemma IndexKeeps(s: State, p: Past, lists: Cid -> seq<Cid>, listed: seq<Item>, i: Index, t: nat)
    requires Inv(s, p, lists) && lists(i.root) == Cids(listed) + Cids(i.blocks)
    requires forall k :: 0 <= k < |listed| ==> listed[k].cid in s.store || listed[k].cid in Cids(i.blocks)
    ensures Inv(AddIndex(s, listed, i, t), p.(got := p.got + Added(s, i.blocks, t)), lists)
  {
    hide Inv, Put;
    PutInv(s, p, lists, i.blocks, t);
    PutStore(s, i.blocks, t);
    var all := Cids(listed) + Cids(i.blocks);
    forall k | 0 <= k < |all| ensures all[k] in Put(s, i.blocks, t).store {
      if k < |listed| {
        assert all[k] == listed[k].cid;
      } else {
        assert all[k] == i.blocks[k - |listed|].cid;
      }
    }
    MarkInv(Put(s, i.blocks, t), p.(got := p.got + Added(s, i.blocks, t)), lists, all, i.root, t);
  }

  lemma IndexBreaks(s: State, listed: seq<Item>, i: Index, t: nat, k: nat)
    requires k < |listed| && listed[k].cid !in s.store && listed[k].cid !in Cids(i.blocks)
    ensures !Held(AddIndex(s, listed, i, t))
  {
    hide Put, Mark;
    PutStore(s, i.blocks, t);
    var all := Cids(listed) + Cids(i.blocks);
    assert all[k] == listed[k].cid && all[k] in all;
    assert AddIndex(s, listed, i, t).roots[i.root].cids == all;
  }

  /** Committing an index keeps the invariant exactly when every listed block is still in the store
      (or is one of the index's own). */
  lemma IndexExact(s: State, p: Past, lists: Cid -> seq<Cid>, listed: seq<Item>, i: Index, t: nat)
    requires Inv(s, p, lists) && lists(i.root) == Cids(listed) + Cids(i.blocks)
    ensures Inv(AddIndex(s, listed, i, t), p.(got := p.got + Added(s, i.blocks, t)), lists)
       <==> forall k :: 0 <= k < |listed| ==> listed[k].cid in s.store || listed[k].cid in Cids(i.blocks)
  {
    hide AddIndex, Held, Exact, Fixed;
    if forall k :: 0 <= k < |listed| ==> listed[k].cid in s.store || listed[k].cid in Cids(i.blocks) {
      IndexKeeps(s, p, lists, listed, i, t);
    } else {
      var k :| 0 <= k < |listed| && listed[k].cid !in s.store && listed[k].cid !in Cids(i.blocks);
      IndexBreaks(s, listed, i, t, k);
    }
  }

  lemma {:induction false} PutStore(s: State, bs: seq<Item>, t: nat)
    ensures forall c :: c in Put(s, bs, t).store <==> c in s.store || c in Cids(bs)
  {
    if bs != [] {
      var less := bs[..|bs| - 1];
      PutStore(s, less, t);
      assert Cids(bs) == Cids(less) + [bs[|bs| - 1].cid];
    }
  }

  lemma {:induction false} ListingHeld(store: map<Cid, nat>, req: seq<Cid>)
    ensures var l := Listing(store, req);
            l.Some? ==>
              && (forall i :: 0 <= i < |l.value| ==> l.value[i].cid in store && store[l.value[i].cid] == l.value[i].size)
              && (forall c :: c in Cids(l.value) <==> c in req)
              && (forall i, j :: 0 <= i < j < |l.value| ==> l.value[i].cid != l.value[j].cid)
  {
    if req != [] {
      var less := req[..|req| - 1];
      ListingHeld(store, less);
      var l := Listing(store, less);
      assert req == less + [req[|req| - 1]];
      if l.Some? && req[|req| - 1] in store && req[|req| - 1] !in Cids(l.value) {
        var b := Item(req[|req| - 1], store[req[|req| - 1]]);
        assert Cids(l.value + [b]) == Cids(l.value) + [b.cid];
        forall i | 0 <= i < |l.value| ensures l.value[i].cid != b.cid {
          assert Cids(l.value)[i] == l.value[i].cid;
        }
      }
    }
  }

  lemma DropPaidInv(s: State, p: Past, lists: Cid -> seq<Cid>, root: Cid)
    requires Inv(s, p, lists)
    ensures Inv(DropPaid(s, root), p.(paid := p.paid + if root in s.roots then (set c | c in s.roots[root].cids) else {}), lists)
  {
    if root in s.roots {
      var d := DropPaid(s, root);
      forall c | c in d.blocks ensures d.blocks[c].roots == RootsListing(d.roots, c) {
        assert s.blocks[c].roots == RootsListing(s.roots, c);
      }
    } else {
      assert p.paid + {} == p.paid;
    }
  }

  lemma DropExpiredInv(s: State, p: Past, lists: Cid -> seq<Cid>, root: Cid)
    requires Inv(s, p, lists)
    ensures Inv(DropExpired(s, root), p, lists)
  {
    if root in s.roots {
      var d := DropExpired(s, root);
      forall c | c in d.blocks ensures d.blocks[c].roots == RootsListing(d.roots, c) {
        assert s.blocks[c].roots == RootsListing(s.roots, c);
      }
    }
  }

  /** Blocks that the paid roots among the pending ones list. */
  function PaidBlocks(s: State, roots: seq<Cid>): set<Cid> {
    set r, c | r in roots && r in s.roots && c in s.roots[r].cids :: c
  }

  lemma {:induction false} DropAllPaidInv(s: State, p: Past, lists: Cid -> seq<Cid>, roots: seq<Cid>)
    requires Inv(s, p, lists)
    ensures Inv(DropAllPaid(s, roots), p.(paid := p.paid + PaidBlocks(s, roots)), lists)
    ensures forall r :: r in DropAllPaid(s, roots).roots <==> r in s.roots && r !in roots
    ensures DropAllPaid(s, roots).store == s.store
  {
    hide Inv;
    if roots == [] {
      assert p.paid + PaidBlocks(s, roots) == p.paid;
    } else {
      var less, r := roots[..|roots| - 1], roots[|roots| - 1];
      assert roots == less + [r];
      DropAllPaidInv(s, p, lists, less);
      var m := DropAllPaid(s, less);
      var q := p.(paid := p.paid + PaidBlocks(s, less));
      DropPaidInv(m, q, lists, r);
      DroppedSame(s, less);
      PaidStep(s, less, r);
      assert q.paid + (if r in m.roots then (set c | c in m.roots[r].cids) else {}) == p.paid + PaidBlocks(s, roots);
    }
  }

  lemma {:induction false} DroppedSame(s: State, roots: seq<Cid>)
    ensures forall r :: r in DropAllPaid(s, roots).roots ==> r in s.roots && DropAllPaid(s, roots).roots[r] == s.roots[r]
  {
    if roots != [] {
      DroppedSame(s, roots[..|roots| - 1]);
    }
  }

  lemma PaidStep(s: State, less: seq<Cid>, r: Cid)
    ensures PaidBlocks(s, less + [r])
         == PaidBlocks(s, less) + if r in s.roots && r !in less then (set c | c in s.roots[r].cids) else {}
  {
    var all := less + [r];
    forall c | c in PaidBlocks(s, less) ensures c in PaidBlocks(s, all) {
      var q :| q in less && q in s.roots && c in s.roots[q].cids;
      assert q in all;
    }
    if r in s.roots {
      assert r in all;
    }
  }

  lemma {:induction false} DropAllExpiredInv(s: State, p: Past, lists: Cid -> seq<Cid>, roots: seq<Cid>)
    requires Inv(s, p, lists)
    ensures Inv(DropAllExpired(s, roots), p, lists) && DropAllExpired(s, roots).store == s.store
  {
    hide Inv;
    if roots != [] {
      DropAllExpiredInv(s, p, lists, roots[..|roots| - 1]);
      DropExpiredInv(DropAllExpired(s, roots[..|roots| - 1]), p, lists, roots[|roots| - 1]);
    }
  }

  /** A sweep keeps the invariant and deletes only blocks that this node first got by upload or index
      building, that no pending index lists and that no index observed as paid ever listed. */
  lemma SweepSafe(s: State, p: Past, lists: Cid -> seq<Cid>, paid: seq<Cid>, expired: seq<Cid>, t: nat)
    requires Inv(s, p, lists)
    ensures var d, q := Sweep(s, paid, expired, t), p.(paid := p.paid + PaidBlocks(s, paid));
            && Inv(d, q, lists)
            && (forall c :: c in d.store ==> c in s.store)
            && (forall c :: c in s.store && c !in d.store ==> c in p.got && c !in q.paid && RootsListing(d.roots, c) == {})
  {
    DropAllPaidInv(s, p, lists, paid);
    var m, q := DropAllPaid(s, paid), p.(paid := p.paid + PaidBlocks(s, paid));
    DropAllExpiredInv(m, q, lists, expired);
    hide DropAllPaid, DropAllExpired, PaidBlocks;
    var e := DropAllExpired(m, expired);
    DoomInv(e, q, lists, t);
  }

  lemma DoomInv(e: State, q: Past, lists: Cid -> seq<Cid>, t: nat)
    requires Inv(e, q, lists)
    ensures var d := Doomed(e.blocks, t);
            && Inv(e.(store := e.store - d, blocks := e.blocks - d), q, lists)
            && forall c :: c in d ==> c in q.got && c !in q.paid && RootsListing(e.roots, c) == {}
  {
    var d := Doomed(e.blocks, t);
    forall r, c | r in e.roots && c in e.roots[r].cids ensures c !in d {
      if c in e.blocks {
        assert r in RootsListing(e.roots, c);
      }
    }
  }

  lemma {:induction false} PaidBlocksGone(s: State, roots: seq<Cid>)
    ensures var d := DropAllPaid(s, roots);
            && (forall c :: c in d.blocks <==> c in s.blocks && c !in PaidBlocks(s, roots))
            && (forall c :: c in d.blocks ==> d.blocks[c] == s.blocks[c])
            && (forall r :: r in d.roots <==> r in s.roots && r !in roots)
            && d.store == s.store
  {
    if roots != [] {
      var less, r := roots[..|roots| - 1], roots[|roots| - 1];
      assert roots == less + [r];
      PaidBlocksGone(s, less);
      DroppedSame(s, less);
      PaidStep(s, less, r);
    }
  }

  lemma {:induction false} ExpiredBlocksStay(s: State, roots: seq<Cid>)
    ensures var d := DropAllExpired(s, roots);
            && d.blocks.Keys == s.blocks.Keys
            && (forall c :: c in d.blocks ==> d.blocks[c].at == s.blocks[c].at)
            && (forall r :: r in d.roots <==> r in s.roots && r !in roots)
            && d.store == s.store
  {
    if roots != [] {
      ExpiredBlocksStay(s, roots[..|roots| - 1]);
      assert roots == roots[..|roots| - 1] + [roots[|roots| - 1]];
    }
  }

  /** What a sweep does, exactly: the paid and expired roots leave, and a block is deleted if and only if
      it is tracked and old, no paid root lists it and no remaining root lists it. */
  lemma SweepExact(s: State, p: Past, lists: Cid -> seq<Cid>, paid: seq<Cid>, expired: seq<Cid>, t: nat)
    requires Inv(s, p, lists)
    ensures var d := Sweep(s, paid, expired, t);
            && (forall r :: r in d.roots <==> r in s.roots && r !in paid && r !in expired)
            && (forall c :: c in s.store && c !in d.store <==>
                  && c in s.blocks && s.blocks[c].at + LOOSE_FOR < t
                  && c !in PaidBlocks(s, paid) && RootsListing(d.roots, c) == {})
  {
    PaidBlocksGone(s, paid);
    DropAllPaidInv(s, p, lists, paid);
    var m, q := DropAllPaid(s, paid), p.(paid := p.paid + PaidBlocks(s, paid));
    ExpiredBlocksStay(m, expired);
    DropAllExpiredInv(m, q, lists, expired);
    hide DropAllPaid, DropAllExpired, PaidBlocks;
    var e := DropAllExpired(m, expired);
    forall c ensures c in Doomed(e.blocks, t) <==>
                     c in s.blocks && s.blocks[c].at + LOOSE_FOR < t && c !in PaidBlocks(s, paid) && RootsListing(e.roots, c) == {} {
      assert c in e.blocks <==> c in m.blocks;
    }
  }

  /** A collection whose scan is still current: the roots left are those neither paid nor overdue. */
  lemma CollectExact(s: State, p: Past, lists: Cid -> seq<Cid>, isPaid: Cid -> bool, t: nat, paid: seq<Cid>, expired: seq<Cid>)
    requires Inv(s, p, lists) && Scanned(s, isPaid, t, paid, expired)
    ensures var d := Sweep(s, paid, expired, t);
            && (forall r :: r in d.roots <==> r in s.roots && !isPaid(r) && s.roots[r].at + PAY_WITHIN >= t)
            && (forall c :: c in s.store && c !in d.store <==>
                  && c in s.blocks && s.blocks[c].at + LOOSE_FOR < t
                  && (forall r :: r in s.roots && c in s.roots[r].cids ==> !isPaid(r) && s.roots[r].at + PAY_WITHIN < t))
  {
    SweepExact(s, p, lists, paid, expired, t);
    var d := Sweep(s, paid, expired, t);
    SweepRoots(s, paid, expired, t);
    forall c ensures c !in PaidBlocks(s, paid) && RootsListing(d.roots, c) == {}
                     <==> forall r :: r in s.roots && c in s.roots[r].cids ==> !isPaid(r) && s.roots[r].at + PAY_WITHIN < t {
      if c !in PaidBlocks(s, paid) && RootsListing(d.roots, c) == {} {
        forall r | r in s.roots && c in s.roots[r].cids ensures !isPaid(r) && s.roots[r].at + PAY_WITHIN < t {
          assert r !in RootsListing(d.roots, c);
        }
      }
    }
  }

  lemma SweepRoots(s: State, paid: seq<Cid>, expired: seq<Cid>, t: nat)
    ensures var d := Sweep(s, paid, expired, t); forall r :: r in d.roots ==> r in s.roots && d.roots[r] == s.roots[r]
  {
    DroppedSame(s, paid);
    ExpiredSame(DropAllPaid(s, paid), expired);
  }

  lemma {:induction false} ExpiredSame(s: State, roots: seq<Cid>)
    ensures forall r :: r in DropAllExpired(s, roots).roots ==> r in s.roots && DropAllExpired(s, roots).roots[r] == s.roots[r]
  {
    if roots != [] {
      ExpiredSame(s, roots[..|roots| - 1]);
    }
  }

  // ---- every run

  /** The bookkeeping as its state file keeps it. */
  datatype Book = Book(blocks: map<Cid, Tracked>, roots: map<Cid, Pending>)

  /** Each operation that changes the bookkeeping tries to write the state file after its transaction;
      `saved` says whether that worked. A crash between the two is an unsaved operation and a restart.
      Other parts of the node store and delete blocks too (block bodies, history pruning, snapshots). */
  datatype Op =
    | OpUpload(bs: seq<Item>, t: nat, saved: bool)
    | OpCheck(id: nat, req: seq<Cid>, entry: Cid)
    | OpCommit(id: nat, t: nat, saved: bool)
    | OpSweep(paid: seq<Cid>, expired: seq<Cid>, t: nat, saved: bool)
    | OpStore(b: Item)
    | OpDelete(c: Cid)
    | OpRestart

  /** The bookkeeping, its past, the index requests between their two halves, and the state file. */
  datatype World = World(s: State, p: Past, checks: map<nat, Checked>, file: Book)

  function NewBlocks(s: State, d: State): set<Cid> {
    set c | c in d.store && c !in s.store
  }

  /** The world after an operation led to state `d`. */
  function Gains(w: World, d: State, saved: bool): World {
    w.(s := d, p := w.p.(got := w.p.got + NewBlocks(w.s, d)), file := if saved then Book(d.blocks, d.roots) else w.file)
  }

  /** Steps of different requests come in any order. */
  function Step(x: Indexer, w: World, op: Op): World {
    match op
    case OpUpload(bs, t, saved) => (match Uploaded(w.s, bs, t) case Done(d) => Gains(w, d, saved) case Refused(_) => w)
    case OpCheck(id, req, entry) =>
      (match CheckIndex(w.s.store, req, entry) case Some(c) => w.(checks := w.checks[id := c]) case None => w)
    case OpCommit(id, t, saved) =>
      if id !in w.checks then w
      else Gains(w, CommitIndex(x, w.s, w.checks[id], t), saved).(checks := w.checks - {id})
    case OpSweep(paid, expired, t, saved) => Swept(w, paid, expired, t, saved)
    case OpStore(b) => if b.cid in w.s.store then w else w.(s := w.s.(store := w.s.store[b.cid := b.size]))
    case OpDelete(c) => w.(s := w.s.(store := w.s.store - {c}))
    case OpRestart => w.(s := State(w.s.store, w.file.blocks, w.file.roots), checks := map[])
  }

  function Swept(w: World, paid: seq<Cid>, expired: seq<Cid>, t: nat, saved: bool): World {
    var d := Sweep(w.s, paid, expired, t);
    w.(s := d, p := w.p.(paid := w.p.paid + PaidBlocks(w.s, paid)), file := if saved then Book(d.blocks, d.roots) else w.file)
  }

  /** A commit finds every block its request looked up still stored (or among the index's own). */
  predicate StillStored(x: Indexer, s: State, c: Checked) {
    forall k :: 0 <= k < |c.listed| ==>
      c.listed[k].cid in s.store || c.listed[k].cid in Cids(x(c.listed, c.entry).blocks)
  }

  /** Nothing depends on the block: it is not tracked, no pending index lists it and no paid one did. */
  predicate Unneeded(s: State, p: Past, c: Cid) {
    c !in s.blocks && RootsListing(s.roots, c) == {} && c !in p.paid
  }

  /** What the state file tracks and lists is still stored, and nothing it tracks was paid meanwhile. */
  predicate Current(s: State, p: Past, f: Book) {
    && (forall c :: c in f.blocks ==> c in s.store && c !in p.paid)
    && (forall r :: r in f.roots ==> forall i :: 0 <= i < |f.roots[r].cids| ==> f.roots[r].cids[i] in s.store)
  }

  /** Which steps are harmless: no commit of a block deleted meanwhile, no deletion of a block that is
      needed, no restart from a state file that the store has outrun. */
  predicate Harmless(x: Indexer, w: World, op: Op) {
    match op
    case OpCommit(id, _, _) => id in w.checks ==> StillStored(x, w.s, w.checks[id])
    case OpDelete(c) => c in w.s.store ==> Unneeded(w.s, w.p, c)
    case OpRestart => Current(w.s, w.p, w.file)
    case _ => true
  }

  /** A root determines its deal: content addressing of the index. */
  ghost predicate Addressed(x: Indexer, lists: Cid -> seq<Cid>) {
    forall l, e :: lists(x(l, e).root) == Cids(l) + Cids(x(l, e).blocks)
  }

  /** The state file was exact when it was written. */
  ghost predicate Sensible(f: Book, p: Past, lists: Cid -> seq<Cid>) {
    var s := State(map[], f.blocks, f.roots);
    Exact(s) && Fixed(s, lists) && forall c :: c in f.blocks ==> c in p.got
  }

  ghost predicate Good(w: World, lists: Cid -> seq<Cid>) {
    Inv(w.s, w.p, lists) && Sensible(w.file, w.p, lists)
  }

  lemma SavedSensible(s: State, p: Past, lists: Cid -> seq<Cid>)
    requires Inv(s, p, lists)
    ensures Sensible(Book(s.blocks, s.roots), p, lists)
  {
    var d := State(map[], s.blocks, s.roots);
    forall c | c in d.blocks ensures d.blocks[c].roots == RootsListing(d.roots, c) {
      assert s.blocks[c].roots == RootsListing(s.roots, c);
    }
  }

  /** More is known of the past; the file stays sensible. */
  lemma SensibleStays(f: Book, p: Past, q: Past, lists: Cid -> seq<Cid>)
    requires Sensible(f, p, lists) && p.got <= q.got
    ensures Sensible(f, q, lists)
  {
  }

  lemma UploadGood(lists: Cid -> seq<Cid>, w: World, bs: seq<Item>, t: nat, saved: bool)
    requires Good(w, lists)
    ensures Good(Gains(w, Put(w.s, bs, t), saved), lists)
  {
    PutInv(w.s, w.p, lists, bs, t);
    var d := Put(w.s, bs, t);
    hide Inv, Put, Sensible;
    assert NewBlocks(w.s, d) == Added(w.s, bs, t);
    var q := w.p.(got := w.p.got + Added(w.s, bs, t));
    SensibleStays(w.file, w.p, q, lists);
    SavedSensible(d, q, lists);
  }

  lemma IndexAdds(s: State, listed: seq<Item>, i: Index, t: nat)
    ensures NewBlocks(s, AddIndex(s, listed, i, t)) == Added(s, i.blocks, t)
  {
  }

  lemma CommitExact(x: Indexer, lists: Cid -> seq<Cid>, w: World, id: nat, t: nat, saved: bool)
    requires Addressed(x, lists) && Good(w, lists) && id in w.checks
    ensures Good(Step(x, w, OpCommit(id, t, saved)), lists) <==> StillStored(x, w.s, w.checks[id])
  {
    var c := w.checks[id];
    var i := x(c.listed, c.entry);
    IndexExact(w.s, w.p, lists, c.listed, i, t);
    IndexAdds(w.s, c.listed, i, t);
    hide Inv, AddIndex, Sensible;
    var q := w.p.(got := w.p.got + Added(w.s, i.blocks, t));
    SensibleStays(w.file, w.p, q, lists);
    var d := AddIndex(w.s, c.listed, i, t);
    if Inv(d, q, lists) {
      SavedSensible(d, q, lists);
    }
    assert Step(x, w, OpCommit(id, t, saved)).p == q;
  }

  lemma SweepGood(lists: Cid -> seq<Cid>, w: World, paid: seq<Cid>, expired: seq<Cid>, t: nat, saved: bool)
    requires Good(w, lists)
    ensures Good(Swept(w, paid, expired, t, saved), lists)
  {
    SweepSafe(w.s, w.p, lists, paid, expired, t);
    hide Inv, Sweep, PaidBlocks, Sensible;
    var q := w.p.(paid := w.p.paid + PaidBlocks(w.s, paid));
    SensibleStays(w.file, w.p, q, lists);
    SavedSensible(Sweep(w.s, paid, expired, t), q, lists);
  }

  lemma DeleteExact(lists: Cid -> seq<Cid>, s: State, p: Past, c: Cid)
    requires Inv(s, p, lists) && c in s.store
    ensures Inv(s.(store := s.store - {c}), p, lists) <==> Unneeded(s, p, c)
  {
    var d := s.(store := s.store - {c});
    if Unneeded(s, p, c) {
      forall r, k | r in d.roots && k in d.roots[r].cids ensures k in d.store {
        assert r in RootsListing(s.roots, k);
      }
    } else if RootsListing(s.roots, c) != {} {
      var r :| r in RootsListing(s.roots, c);
      assert c in d.roots[r].cids && c !in d.store;
    }
  }

  lemma RestartExact(lists: Cid -> seq<Cid>, s: State, p: Past, f: Book)
    requires Sensible(f, p, lists) && forall c :: c in p.paid ==> c in s.store
    ensures Inv(State(s.store, f.blocks, f.roots), p, lists) <==> Current(s, p, f)
  {
    var d, e := State(s.store, f.blocks, f.roots), State(map[], f.blocks, f.roots);
    forall c | c in d.blocks ensures d.blocks[c].roots == RootsListing(d.roots, c) {
      assert e.blocks[c].roots == RootsListing(e.roots, c);
    }
    if Held(d) {
      forall r, i | r in f.roots && 0 <= i < |f.roots[r].cids| ensures f.roots[r].cids[i] in s.store {
        assert f.roots[r].cids[i] in d.roots[r].cids;
      }
    }
  }

  /** A step keeps the invariant exactly when it is harmless. */
  lemma StepExact(x: Indexer, lists: Cid -> seq<Cid>, w: World, op: Op)
    requires Addressed(x, lists) && Good(w, lists)
    ensures Good(Step(x, w, op), lists) <==> Harmless(x, w, op)
  {
    hide StillStored, Sensible, Unneeded, Current;
    match op
    case OpUpload(bs, t, saved) => UploadGood(lists, w, bs, t, saved);
    case OpCheck(id, req, entry) =>
    case OpCommit(id, t, saved) =>
      if id in w.checks {
        CommitExact(x, lists, w, id, t, saved);
      }
    case OpSweep(paid, expired, t, saved) => SweepGood(lists, w, paid, expired, t, saved);
    case OpStore(b) =>
    case OpDelete(c) =>
      if c in w.s.store {
        DeleteExact(lists, w.s, w.p, c);
      } else {
        assert w.s.store - {c} == w.s.store;
      }
    case OpRestart => RestartExact(lists, w.s, w.p, w.file);
  }

  function Run(x: Indexer, store: map<Cid, nat>, ops: seq<Op>): World {
    if ops == [] then World(State(store, map[], map[]), Past({}, {}), map[], Book(map[], map[]))
    else Step(x, Run(x, store, ops[..|ops| - 1]), ops[|ops| - 1])
  }

  ghost predicate GoodAt(x: Indexer, lists: Cid -> seq<Cid>, store: map<Cid, nat>, ops: seq<Op>, k: nat)
    requires k <= |ops|
  {
    Good(Run(x, store, ops[..k]), lists)
  }

  predicate HarmlessAt(x: Indexer, store: map<Cid, nat>, ops: seq<Op>, k: nat)
    requires k < |ops|
  {
    Harmless(x, Run(x, store, ops[..k]), ops[k])
  }

  lemma RunStep(x: Indexer, lists: Cid -> seq<Cid>, store: map<Cid, nat>, ops: seq<Op>, k: nat)
    requires Addressed(x, lists) && k < |ops| && GoodAt(x, lists, store, ops, k)
    ensures GoodAt(x, lists, store, ops, k + 1) <==> HarmlessAt(x, store, ops, k)
  {
    assert ops[..k + 1][..k] == ops[..k];
    StepExact(x, lists, Run(x, store, ops[..k]), ops[k]);
  }

  lemma {:induction false} HarmlessGood(x: Indexer, lists: Cid -> seq<Cid>, store: map<Cid, nat>, ops: seq<Op>, k: nat)
    requires Addressed(x, lists) && k <= |ops| && forall i :: 0 <= i < k ==> HarmlessAt(x, store, ops, i)
    ensures GoodAt(x, lists, store, ops, k)
  {
    if k > 0 {
      HarmlessGood(x, lists, store, ops, k - 1);
      RunStep(x, lists, store, ops, k - 1);
    }
  }

  /** Over any interleaving, whatever the store held and whatever other parts add: in every state each
      tracked block's root set is the set of pending roots listing it and every pending deal is held in
      full, if and only if every step is harmless. */
  lemma AlwaysExact(x: Indexer, lists: Cid -> seq<Cid>, store: map<Cid, nat>, ops: seq<Op>)
    requires Addressed(x, lists)
    ensures (forall k :: 0 <= k <= |ops| ==> GoodAt(x, lists, store, ops, k))
       <==> (forall k :: 0 <= k < |ops| ==> HarmlessAt(x, store, ops, k))
  {
    hide GoodAt, HarmlessAt, Addressed;
    if forall k :: 0 <= k < |ops| ==> HarmlessAt(x, store, ops, k) {
      forall k | 0 <= k <= |ops| ensures GoodAt(x, lists, store, ops, k) {
        HarmlessGood(x, lists, store, ops, k);
      }
    }
    if forall k :: 0 <= k <= |ops| ==> GoodAt(x, lists, store, ops, k) {
      forall k | 0 <= k < |ops| ensures HarmlessAt(x, store, ops, k) {
        assert GoodAt(x, lists, store, ops, k + 1);
        RunStep(x, lists, store, ops, k);
      }
    }
  }

  /** In such a run a collection deletes only blocks this node first got by upload or index building,
      never one a pending index lists, never one an index observed as paid ever listed. */
  lemma CollectSafe(x: Indexer, lists: Cid -> seq<Cid>, store: map<Cid, nat>, ops: seq<Op>, paid: seq<Cid>, expired: seq<Cid>, t: nat)
    requires Addressed(x, lists) && forall k :: 0 <= k < |ops| ==> HarmlessAt(x, store, ops, k)
    ensures var w := Run(x, store, ops);
            var d := Sweep(w.s, paid, expired, t);
            forall c :: c in w.s.store && c !in d.store ==>
              c in w.p.got && c !in w.p.paid && c !in PaidBlocks(w.s, paid) && RootsListing(d.roots, c) == {}
  {
    HarmlessGood(x, lists, store, ops, |ops|);
    assert ops[..|ops|] == ops;
    var w := Run(x, store, ops);
    SweepSafe(w.s, w.p, lists, paid, expired, t);
  }

  /** A request that nothing interrupts finds its blocks. */
  lemma UninterruptedIndex(x: Indexer, w: World, id: nat, req: seq<Cid>, entry: Cid, t: nat, saved: bool)
    requires CheckIndex(w.s.store, req, entry).Some?
    ensures Harmless(x, Step(x, w, OpCheck(id, req, entry)), OpCommit(id, t, saved))
  {
    ListingHeld(w.s.store, req);
  }
}
