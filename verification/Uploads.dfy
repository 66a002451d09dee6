/** Upload bookkeeping of unpaid storage deals (crates/node/src/certificates.rs). A stored block is its
    CID and size; content addressing is a parameter.

    Two requests release what they hold half way and are two steps each: an index request looks its
    blocks up and commits later, a collection reads the pending roots and sweeps later. */
module Uploads {
  import opened Options
  import opened ByteCodec

  const PAY_WITHIN: nat := 6 * 3600
  const LOOSE_FOR: nat := 2 * 3600
  const MAX_LISTED: nat := 4096
  const MAX_CERT_BYTES: nat := 256 * 1024 * 1024
  const MAX_BLOCK: nat := 1024 * 1024
  const MAX_PENDING_BYTES: nat := 2 * 1024 * 1024 * 1024

  type Cid = nat

  datatype Item = Item(cid: Cid, size: nat)

  /** A block that was absent when it was uploaded or indexed, with the pending indexes that list it. */
  datatype Tracked = Tracked(size: nat, at: nat, roots: set<Cid>)

  /** A deal index waiting for payment and the blocks it needs, its own among them. */
  datatype Pending = Pending(at: nat, cids: seq<Cid>)

  datatype State = State(store: map<Cid, nat>, blocks: map<Cid, Tracked>, roots: map<Cid, Pending>)

  // ---- operations

  function PutOne(s: State, b: Item, t: nat): State {
    if b.cid in s.store then s
    else s.(store := s.store[b.cid := b.size], blocks := s.blocks[b.cid := Tracked(b.size, t, {})])
  }

  function Put(s: State, bs: seq<Item>, t: nat): State {
    if bs == [] then s else PutOne(Put(s, bs[..|bs| - 1], t), bs[|bs| - 1], t)
  }

  function TotalSize(l: seq<Item>): nat {
    if l == [] then 0 else TotalSize(l[..|l| - 1]) + l[|l| - 1].size
  }

  lemma {:induction false} HasLeast(keys: set<Cid>) returns (c: Cid)
    requires keys != {}
    ensures c in keys && forall d :: d in keys ==> c <= d
  {
    var x :| x in keys;
    c := x;
    if keys - {x} != {} {
      var d := HasLeast(keys - {x});
      c := if d < x then d else x;
    }
    forall e | e in keys ensures c <= e {
      assert e == x || e in keys - {x};
    }
  }

  lemma LeastExists(keys: set<Cid>)
    requires keys != {}
    ensures exists c :: c in keys && forall d :: d in keys ==> c <= d
  {
    var c := HasLeast(keys);
  }

  function SumOver(blocks: map<Cid, Tracked>, keys: set<Cid>): nat
    requires keys <= blocks.Keys
  {
    if keys == {} then 0
    else
      LeastExists(keys);
      var c :| c in keys && forall d :: d in keys ==> c <= d;
      blocks[c].size + SumOver(blocks, keys - {c})
  }

  /** Bytes of all tracked blocks. */
  function PendingBytes(blocks: map<Cid, Tracked>): nat {
    SumOver(blocks, blocks.Keys)
  }

  datatype Reply = Done(s: State) | Refused(status: nat)

  function Uploaded(s: State, bs: seq<Item>, t: nat): Reply {
    if bs == [] then Refused(400)
    else if PendingBytes(s.blocks) + TotalSize(bs) > MAX_PENDING_BYTES then Refused(503)
    else Done(Put(s, bs, t))
  }

  // ---- request bodies

  predicate BlockOk(b: Bytes) {
    0 < |b| <= MAX_BLOCK
  }

  /** Blocks one after the other, each after its four-byte length. */
  function Body(blocks: seq<Bytes>): Bytes {
    if blocks == [] then [] else Be(|blocks[0]|, 4) + (blocks[0] + Body(blocks[1..]))
  }

  function ParseBody(d: Bytes): Option<seq<Bytes>>
    decreases |d|
  {
    if d == [] then Some([])
    else
      match TakeBe(d, 4)
      case Short => None
      case Got(n, r) =>
        if n == 0 || n > MAX_BLOCK || n > |r| then None
        else
          match ParseBody(r[n..])
          case None => None
          case Some(more) => Some([r[..n]] + more)
  }

  function Items(addr: Bytes -> Cid, blocks: seq<Bytes>): seq<Item> {
    seq(|blocks|, i requires 0 <= i < |blocks| => Item(addr(blocks[i]), |blocks[i]|))
  }

  function UploadedBody(addr: Bytes -> Cid, s: State, body: Bytes, t: nat): Reply {
    match ParseBody(body)
    case None => Refused(400)
    case Some(blocks) => Uploaded(s, Items(addr, blocks), t)
  }

  // ---- deal indexes

  function Cids(bs: seq<Item>): seq<Cid> {
    seq(|bs|, i requires 0 <= i < |bs| => bs[i].cid)
  }

  /** The requested blocks without repetition, if the store has them all. */
  function Listing(store: map<Cid, nat>, req: seq<Cid>): Option<seq<Item>> {
    if req == [] then Some([])
    else
      match Listing(store, req[..|req| - 1])
      case None => None
      case Some(l) =>
        var c := req[|req| - 1];
        if c in Cids(l) then Some(l)
        else if c in store then Some(l + [Item(c, store[c])])
        else None
  }

  /** The deal index of a list: its root and its own blocks. */
  datatype Index = Index(root: Cid, blocks: seq<Item>)

  type Indexer = (seq<Item>, Cid) -> Index

  function Mark(blocks: map<Cid, Tracked>, cids: seq<Cid>, root: Cid): map<Cid, Tracked> {
    map c | c in blocks :: if c in cids then blocks[c].(roots := blocks[c].roots + {root}) else blocks[c]
  }

  /** Stores the index of `listed` and records it as pending. */
  function AddIndex(s: State, listed: seq<Item>, i: Index, t: nat): State {
    var p := Put(s, i.blocks, t);
    var all := Cids(listed) + Cids(i.blocks);
    p.(blocks := Mark(p.blocks, all, i.root), roots := p.roots[i.root := Pending(t, all)])
  }

  /** An index request whose blocks were looked up. */
  datatype Checked = Checked(listed: seq<Item>, entry: Cid)

  /** The first half of an index request. */
  function CheckIndex(store: map<Cid, nat>, req: seq<Cid>, entry: Cid): Option<Checked> {
    if req == [] || |req| > MAX_LISTED then None
    else
      match Listing(store, req)
      case None => None
      case Some(l) => if entry !in req || TotalSize(l) > MAX_CERT_BYTES then None else Some(Checked(l, entry))
  }

  /** The second half, which does not look the blocks up again. */
  function CommitIndex(x: Indexer, s: State, c: Checked, t: nat): State {
    AddIndex(s, c.listed, x(c.listed, c.entry), t)
  }

  /** A paid index leaves the bookkeeping with its blocks, which stay in the store. */
  function DropPaid(s: State, root: Cid): State {
    if root !in s.roots then s
    else s.(roots := s.roots - {root}, blocks := s.blocks - (set c | c in s.roots[root].cids))
  }

  function Unmark(blocks: map<Cid, Tracked>, cids: seq<Cid>, root: Cid): map<Cid, Tracked> {
    map c | c in blocks :: if c in cids then blocks[c].(roots := blocks[c].roots - {root}) else blocks[c]
  }

  lemma UnmarkLast(blocks: map<Cid, Tracked>, cids: seq<Cid>, c: Cid, root: Cid)
    ensures var m := Unmark(blocks, cids, root);
            Unmark(blocks, cids + [c], root) == if c in m then m[c := m[c].(roots := m[c].roots - {root})] else m
  {
    if c in blocks {
      assert blocks[c].roots - {root} - {root} == blocks[c].roots - {root};
    }
  }

  function DropExpired(s: State, root: Cid): State {
    if root !in s.roots then s
    else s.(roots := s.roots - {root}, blocks := Unmark(s.blocks, s.roots[root].cids, root))
  }

  function DropAllPaid(s: State, roots: seq<Cid>): State {
    if roots == [] then s else DropPaid(DropAllPaid(s, roots[..|roots| - 1]), roots[|roots| - 1])
  }

  function DropAllExpired(s: State, roots: seq<Cid>): State {
    if roots == [] then s else DropExpired(DropAllExpired(s, roots[..|roots| - 1]), roots[|roots| - 1])
  }

  function Doomed(blocks: map<Cid, Tracked>, t: nat): set<Cid> {
    set c | c in blocks && blocks[c].roots == {} && blocks[c].at + LOOSE_FOR < t
  }

  /** The second half of a collection: `paid` and `expired` were found by the scan. */
  function Sweep(s: State, paid: seq<Cid>, expired: seq<Cid>, t: nat): State {
    var e := DropAllExpired(DropAllPaid(s, paid), expired);
    var d := Doomed(e.blocks, t);
    e.(store := e.store - d, blocks := e.blocks - d)
  }

  /** The first half: `isPaid` is what the contract answers. */
  ghost predicate Scanned(s: State, isPaid: Cid -> bool, t: nat, paid: seq<Cid>, expired: seq<Cid>) {
    && (forall r :: r in paid <==> r in s.roots && isPaid(r))
    && (forall r :: r in expired <==> r in s.roots && !isPaid(r) && s.roots[r].at + PAY_WITHIN < t)
  }

  // ---- the bookkeeping as an object

  class Node {
    var store: map<Cid, nat>
    var blocks: map<Cid, Tracked>
    var roots: map<Cid, Pending>

    function Value(): State
      reads this
    {
      State(store, blocks, roots)
    }

    constructor (store: map<Cid, nat>)
      ensures Value() == State(store, map[], map[])
    {
      this.store := store;
      blocks, roots := map[], map[];
    }

    method PutAll(bs: seq<Item>, t: nat)
      modifies this
      ensures Value() == Put(old(Value()), bs, t)
    {
      for i := 0 to |bs|
        invariant Value() == Put(old(Value()), bs[..i], t)
      {
        assert bs[..i + 1][..i] == bs[..i];
        if bs[i].cid !in store {
          store := store[bs[i].cid := bs[i].size];
          blocks := blocks[bs[i].cid := Tracked(bs[i].size, t, {})];
        }
      }
      assert bs[..|bs|] == bs;
    }

    method Parse(body: Bytes) returns (r: Option<seq<Bytes>>)
      ensures r == ParseBody(body)
    {
      hide FromBe;
      var parsed, rest := [], body;
      PrependNothing(ParseBody(body));
      while rest != []
        invariant ParseBody(body) == Prepend(parsed, ParseBody(rest))
        decreases |rest|
      {
        var n := TakeBe(rest, 4);
        if n.Short? || n.value == 0 || n.value > MAX_BLOCK || n.value > |n.rest| {
          return None;
        }
        PrependOne(parsed, n.rest[..n.value], ParseBody(n.rest[n.value..]));
        parsed := parsed + [n.rest[..n.value]];
        rest := n.rest[n.value..];
      }
      assert parsed + [] == parsed;
      r := Some(parsed);
    }

    method Upload(addr: Bytes -> Cid, body: Bytes, t: nat) returns (status: nat)
      modifies this
      ensures match UploadedBody(addr, old(Value()), body, t)
              case Done(s) => Value() == s && status == 200
              case Refused(e) => Value() == old(Value()) && status == e
    {
      hide ParseBody, PendingBytes, TotalSize, Items;
      var parsed := Parse(body);
      if parsed == None {
        return 400;
      }
      var bs := Items(addr, parsed.value);
      if bs == [] {
        return 400;
      }
      if PendingBytes(blocks) + TotalSize(bs) > MAX_PENDING_BYTES {
        return 503;
      }
      PutAll(bs, t);
      status := 200;
    }

    method ListBlocks(req: seq<Cid>) returns (l: Option<seq<Item>>)
      ensures l == Listing(store, req)
    {
      var listed := [];
      for i := 0 to |req|
        invariant Listing(store, req[..i]) == Some(listed)
      {
        assert req[..i + 1][..i] == req[..i];
        if req[i] !in Cids(listed) {
          if req[i] !in store {
            ListingStaysNone(store, req, i + 1);
            return None;
          }
          listed := listed + [Item(req[i], store[req[i]])];
        }
      }
      assert req[..|req|] == req;
      l := Some(listed);
    }

    method MarkAll(cids: seq<Cid>, root: Cid)
      modifies this`blocks
      ensures blocks == Mark(old(blocks), cids, root)
    {
      for i := 0 to |cids|
        invariant blocks == Mark(old(blocks), cids[..i], root)
      {
        assert cids[..i + 1] == cids[..i] + [cids[i]];
        if cids[i] in blocks {
          blocks := blocks[cids[i] := blocks[cids[i]].(roots := blocks[cids[i]].roots + {root})];
        }
      }
      assert cids[..|cids|] == cids;
    }

    method Check(req: seq<Cid>, entry: Cid) returns (c: Option<Checked>)
      ensures c == CheckIndex(store, req, entry)
    {
      if req == [] || |req| > MAX_LISTED {
        return None;
      }
      var l := ListBlocks(req);
      if l == None || entry !in req || TotalSize(l.value) > MAX_CERT_BYTES {
        return None;
      }
      c := Some(Checked(l.value, entry));
    }

    method Commit(x: Indexer, c: Checked, t: nat)
      modifies this
      ensures Value() == CommitIndex(x, old(Value()), c, t)
    {
      var i := x(c.listed, c.entry);
      PutAll(i.blocks, t);
      var all := Cids(c.listed) + Cids(i.blocks);
      MarkAll(all, i.root);
      roots := roots[i.root := Pending(t, all)];
    }

    method UnmarkAll(cids: seq<Cid>, root: Cid)
      modifies this`blocks
      ensures blocks == Unmark(old(blocks), cids, root)
    {
      for i := 0 to |cids|
        invariant blocks == Unmark(old(blocks), cids[..i], root)
      {
        assert cids[..i + 1] == cids[..i] + [cids[i]];
        UnmarkLast(old(blocks), cids[..i], cids[i], root);
        if cids[i] in blocks {
          blocks := blocks[cids[i] := blocks[cids[i]].(roots := blocks[cids[i]].roots - {root})];
        }
      }
      assert cids[..|cids|] == cids;
    }

    method Forget(cids: seq<Cid>)
      modifies this`blocks
      ensures blocks == old(blocks) - (set c | c in cids)
    {
      for i := 0 to |cids|
        invariant blocks == old(blocks) - (set c | c in cids[..i])
      {
        assert cids[..i + 1] == cids[..i] + [cids[i]];
        blocks := blocks - {cids[i]};
      }
      assert cids[..|cids|] == cids;
    }

    /** The scan of a collection over the pending roots, in any order. */
    method Scan(order: seq<Cid>, isPaid: Cid -> bool, t: nat) returns (paid: seq<Cid>, expired: seq<Cid>)
      requires forall r :: r in order <==> r in roots
      ensures Scanned(Value(), isPaid, t, paid, expired)
    {
      paid, expired := [], [];
      for i := 0 to |order|
        invariant forall r :: r in paid <==> r in order[..i] && isPaid(r)
        invariant forall r :: r in expired <==> r in order[..i] && !isPaid(r) && roots[r].at + PAY_WITHIN < t
      {
        var r := order[i];
        assert order[..i + 1] == order[..i] + [r];
        if isPaid(r) {
          paid := paid + [r];
        } else if roots[r].at + PAY_WITHIN < t {
          expired := expired + [r];
        }
      }
      assert order[..|order|] == order;
    }

    /** The sweep of a collection; returns the deleted blocks. */
    method Collect(paid: seq<Cid>, expired: seq<Cid>, t: nat) returns (deleted: set<Cid>)
      modifies this
      ensures Value() == Sweep(old(Value()), paid, expired, t)
      ensures store == old(store) - deleted
    {
      for i := 0 to |paid|
        invariant Value() == DropAllPaid(old(Value()), paid[..i]) && store == old(store)
      {
        assert paid[..i + 1][..i] == paid[..i];
        if paid[i] in roots {
          var cids := roots[paid[i]].cids;
          roots := roots - {paid[i]};
          Forget(cids);
        }
      }
      assert paid[..|paid|] == paid;
      ghost var s := Value();
      for i := 0 to |expired|
        invariant Value() == DropAllExpired(s, expired[..i]) && store == old(store)
      {
        assert expired[..i + 1][..i] == expired[..i];
        if expired[i] in roots {
          var cids := roots[expired[i]].cids;
          roots := roots - {expired[i]};
          UnmarkAll(cids, expired[i]);
        }
      }
      assert expired[..|expired|] == expired;
      deleted := Doomed(blocks, t);
      store := store - deleted;
      blocks := blocks - deleted;
    }
  }

  lemma {:induction false} ListingStaysNone(store: map<Cid, nat>, req: seq<Cid>, k: nat)
    requires k <= |req| && Listing(store, req[..k]).None?
    ensures Listing(store, req).None?
    decreases |req| - k
  {
    if k == |req| {
      assert req[..k] == req;
    } else {
      assert req[..k + 1][..k] == req[..k];
      ListingStaysNone(store, req, k + 1);
    }
  }

  ghost function Prepend(a: seq<Bytes>, b: Option<seq<Bytes>>): Option<seq<Bytes>> {
    match b case None => None case Some(s) => Some(a + s)
  }

  lemma PrependNothing(r: Option<seq<Bytes>>)
    ensures Prepend([], r) == r
  {
    if r.Some? {
      assert [] + r.value == r.value;
    }
  }

  lemma PrependOne(a: seq<Bytes>, b: Bytes, more: Option<seq<Bytes>>)
    ensures Prepend(a + [b], more) == Prepend(a, Prepend([b], more))
  {
    if more.Some? {
      assert a + [b] + more.value == a + ([b] + more.value);
    }
  }
}
