/** Archives of blocks and the traversal that fills them (crates/ipld/src/car.rs). Varints, CIDs, the
    header's encoding, block verification and a block's links come from other crates and are
    parameters. */
module Archives {
  import opened Options
  import opened ByteCodec
  import opened Sequences

  type Cid = nat

  datatype Block = Block(cid: Cid, data: Bytes)

  // ---- write and read

  datatype Codec = Codec(
    varint: nat -> Bytes,
    takeVarint: Bytes -> Parsed<nat>,
    cidBytes: Cid -> Bytes,
    readCid: Bytes -> Parsed<Cid>,
    header: seq<Cid> -> Bytes,
    readHeader: Bytes -> Option<(seq<Cid>, nat)>,
    verify: (Cid, Bytes) -> bool)

  /** The encodings are prefix-free and decode to what was encoded; a varint takes at least a byte. */
  ghost predicate Lawful(x: Codec) {
    && (forall n: nat, rest :: x.takeVarint(x.varint(n) + rest) == Got(n, rest))
    && (forall d :: x.takeVarint(d).Got? ==> |x.takeVarint(d).rest| < |d|)
    && (forall c: nat, data :: x.readCid(x.cidBytes(c) + data) == Got(c, data))
    && (forall roots :: x.readHeader(x.header(roots)) == Some((roots, 1)))
  }

  function Section(x: Codec, b: Block): Bytes {
    x.varint(|x.cidBytes(b.cid)| + |b.data|) + (x.cidBytes(b.cid) + b.data)
  }

  function Sections(x: Codec, blocks: seq<Block>): Bytes {
    if blocks == [] then [] else Section(x, blocks[0]) + Sections(x, blocks[1..])
  }

  function Write(x: Codec, roots: seq<Cid>, blocks: seq<Block>): Bytes {
    x.varint(|x.header(roots)|) + (x.header(roots) + Sections(x, blocks))
  }

  /** One section: a length, a CID and the data, which must match the CID. */
  function ReadSection(x: Codec, d: Bytes): Parsed<Block> {
    match x.takeVarint(d)
    case Short => Short
    case Got(n, r) =>
      match TakeBytes(r, n)
      case Short => Short
      case Got(section, rest) =>
        match x.readCid(section)
        case Short => Short
        case Got(cid, data) => if x.verify(cid, data) then Got(Block(cid, data), rest) else Short
  }

  function ReadSections(x: Codec, d: Bytes): Option<seq<Block>>
    requires Lawful(x)
    decreases |d|
  {
    if d == [] then Some([])
    else
      match ReadSection(x, d)
      case Short => None
      case Got(b, rest) =>
        match ReadSections(x, rest)
        case None => None
        case Some(more) => Some([b] + more)
  }

  datatype Archive = Archive(roots: seq<Cid>, blocks: seq<Block>)

  function Read(x: Codec, d: Bytes): Option<Archive>
    requires Lawful(x)
  {
    match x.takeVarint(d)
    case Short => None
    case Got(n, r) =>
      match TakeBytes(r, n)
      case Short => None
      case Got(h, rest) =>
        match x.readHeader(h)
        case None => None
        case Some((roots, version)) =>
          if version != 1 then None
          else
            match ReadSections(x, rest)
            case None => None
            case Some(blocks) => Some(Archive(roots, blocks))
  }

  method WriteLoop(x: Codec, roots: seq<Cid>, blocks: seq<Block>) returns (out: Bytes)
    ensures out == Write(x, roots, blocks)
  {
    hide Section;
    out := x.varint(|x.header(roots)|) + x.header(roots);
    ghost var start := out;
    for i := 0 to |blocks|
      invariant out == start + Sections(x, blocks[..i])
    {
      SectionsLast(x, blocks[..i], blocks[i]);
      assert blocks[..i + 1] == blocks[..i] + [blocks[i]];
      out := out + Section(x, blocks[i]);
    }
    assert blocks[..|blocks|] == blocks;
  }

  lemma {:induction false} SectionsLast(x: Codec, blocks: seq<Block>, b: Block)
    ensures Sections(x, blocks + [b]) == Sections(x, blocks) + Section(x, b)
  {
    hide Section;
    if blocks == [] {
      assert (blocks + [b])[1..] == [];
    } else {
      SectionsLast(x, blocks[1..], b);
      assert (blocks + [b])[1..] == blocks[1..] + [b];
    }
  }

  method ReadLoop(x: Codec, d: Bytes) returns (a: Option<Archive>)
    requires Lawful(x)
    ensures a == Read(x, d)
  {
    var n := x.takeVarint(d);
    if n.Short? || n.value > |n.rest| {
      return None;
    }
    var h := x.readHeader(n.rest[..n.value]);
    if h.None? || h.value.1 != 1 {
      return None;
    }
    var rest, blocks := n.rest[n.value..], [];
    ghost var start := rest;
    PrependNothing(ReadSections(x, rest));
    while rest != []
      invariant ReadSections(x, start) == Prepend(blocks, ReadSections(x, rest))
      decreases |rest|
    {
      var s := ReadSection(x, rest);
      if s.Short? {
        return None;
      }
      PrependOne(blocks, s.value, ReadSections(x, s.rest));
      blocks := blocks + [s.value];
      rest := s.rest;
    }
    assert blocks + [] == blocks;
    a := Some(Archive(h.value.0, blocks));
  }

  ghost function Prepend(a: seq<Block>, b: Option<seq<Block>>): Option<seq<Block>> {
    match b case None => None case Some(s) => Some(a + s)
  }

  lemma PrependNothing(r: Option<seq<Block>>)
    ensures Prepend([], r) == r
  {
    if r.Some? {
      assert [] + r.value == r.value;
    }
  }

  lemma PrependOne(a: seq<Block>, b: Block, more: Option<seq<Block>>)
    ensures Prepend(a + [b], more) == Prepend(a, Prepend([b], more))
  {
    if more.Some? {
      assert a + [b] + more.value == a + ([b] + more.value);
    }
  }

  lemma SectionRead(x: Codec, b: Block, rest: Bytes)
    requires Lawful(x)
    ensures ReadSection(x, Section(x, b) + rest) == if x.verify(b.cid, b.data) then Got(b, rest) else Short
  {
    var body := x.cidBytes(b.cid) + b.data;
    assert Section(x, b) + rest == x.varint(|body|) + (body + rest);
    TakeFront(body, rest);
    assert x.readCid(body) == Got(b.cid, b.data);
  }

  lemma SectionNotEmpty(x: Codec, b: Block, rest: Bytes)
    requires Lawful(x)
    ensures Section(x, b) + rest != []
  {
    var body := x.cidBytes(b.cid) + b.data;
    assert x.takeVarint(x.varint(|body|) + (body + rest)).Got?;
    assert Section(x, b) + rest == x.varint(|body|) + (body + rest);
  }

  predicate AllVerify(x: Codec, blocks: seq<Block>) {
    forall i :: 0 <= i < |blocks| ==> x.verify(blocks[i].cid, blocks[i].data)
  }

  lemma {:induction false} SectionsSound(x: Codec, d: Bytes)
    requires Lawful(x)
    ensures ReadSections(x, d).Some? ==> AllVerify(x, ReadSections(x, d).value)
    decreases |d|
  {
    if d != [] {
      var s := ReadSection(x, d);
      if s.Got? {
        SectionsSound(x, s.rest);
      }
    }
  }

  /** Whatever the bytes: an archive that is read has version 1, and every block of it matches its CID. */
  lemma ReadSound(x: Codec, d: Bytes)
    requires Lawful(x) && Read(x, d).Some?
    ensures AllVerify(x, Read(x, d).value.blocks) && exists h :: x.readHeader(h) == Some((Read(x, d).value.roots, 1))
  {
    hide Lawful, ReadSections;
    var h := TakeBytes(x.takeVarint(d).rest, x.takeVarint(d).value);
    SectionsSound(x, h.rest);
    assert x.readHeader(h.value) == Some((Read(x, d).value.roots, 1));
  }

  lemma {:induction false} SectionsRead(x: Codec, blocks: seq<Block>)
    requires Lawful(x)
    ensures ReadSections(x, Sections(x, blocks)) == if AllVerify(x, blocks) then Some(blocks) else None
    decreases |blocks|
  {
    if blocks != [] {
      var b, rest := blocks[0], blocks[1..];
      SectionsRead(x, rest);
      SectionRead(x, b, Sections(x, rest));
      SectionNotEmpty(x, b, Sections(x, rest));
      hide Section, ReadSection, Lawful;
      assert blocks == [b] + rest;
      assert AllVerify(x, blocks) <==> x.verify(b.cid, b.data) && AllVerify(x, rest) by {
        if AllVerify(x, blocks) {
          assert forall i :: 0 <= i < |rest| ==> rest[i] == blocks[i + 1];
        }
      }
    }
  }

  /** Round trip: reading a written archive gives its roots and blocks back in order, exactly when every
      block matches its CID. */
  lemma ArchiveExact(x: Codec, roots: seq<Cid>, blocks: seq<Block>)
    requires Lawful(x)
    ensures Read(x, Write(x, roots, blocks)) == if AllVerify(x, blocks) then Some(Archive(roots, blocks)) else None
  {
    hide Sections, ReadSections;
    TakeFront(x.header(roots), Sections(x, blocks));
    SectionsRead(x, blocks);
  }

  // ---- traversal

  type Links = (Cid, Bytes) -> seq<Cid>

  datatype Walk = Walk(seen: set<Cid>, out: seq<Block>)

  datatype Result = Ok(w: Walk) | Missing(c: Cid)

  function Visit(store: map<Cid, Bytes>, w: Walk, c: Cid): Walk
    requires c in store
  {
    Walk(w.seen + {c}, w.out + [Block(c, store[c])])
  }

  function Left(store: map<Cid, Bytes>, w: Walk): nat {
    |store.Keys - w.seen|
  }

  lemma VisitLeft(store: map<Cid, Bytes>, w: Walk, c: Cid)
    requires c in store && c !in w.seen
    ensures Left(store, Visit(store, w, c)) < Left(store, w)
  {
    assert store.Keys - Visit(store, w, c).seen == (store.Keys - w.seen) - {c};
  }

  lemma SeenLeft(store: map<Cid, Bytes>, w: Walk, v: Walk)
    requires w.seen <= v.seen
    ensures Left(store, v) <= Left(store, w)
  {
    Smaller(store.Keys - v.seen, store.Keys - w.seen);
  }

  lemma {:induction false} Smaller(a: set<Cid>, b: set<Cid>)
    requires a <= b
    ensures |a| <= |b|
  {
    if a != {} {
      var x :| x in a;
      Smaller(a - {x}, b - {x});
    }
  }

  /** Depth first, recursively: visits `l` and what it leads to in order, each block once. */
  function Dfs(store: map<Cid, Bytes>, links: Links, l: seq<Cid>, w: Walk): (r: Result)
    ensures r.Ok? ==> w.seen <= r.w.seen
    decreases Left(store, w), |l|
  {
    if l == [] then Ok(w)
    else if l[0] in w.seen then Dfs(store, links, l[1..], w)
    else if l[0] !in store then Missing(l[0])
    else
      VisitLeft(store, w, l[0]);
      match Dfs(store, links, links(l[0], store[l[0]]), Visit(store, w, l[0]))
      case Missing(c) => Missing(c)
      case Ok(v) =>
        SeenLeft(store, Visit(store, w, l[0]), v);
        Dfs(store, links, l[1..], v)
  }

  /** The loop with an explicit stack, its top at the end. */
  function Loop(store: map<Cid, Bytes>, links: Links, w: Walk, stack: seq<Cid>): Result
    decreases Left(store, w), |stack|
  {
    if stack == [] then Ok(w)
    else
      var c, rest := stack[|stack| - 1], stack[..|stack| - 1];
      if c in w.seen then Loop(store, links, w, rest)
      else if c !in store then Missing(c)
      else
        VisitLeft(store, w, c);
        Loop(store, links, Visit(store, w, c), rest + Reversed(links(c, store[c])))
  }

  /** The stack loop computes the recursive search. */
  lemma {:induction false} LoopIsDfs(store: map<Cid, Bytes>, links: Links, l: seq<Cid>, w: Walk, stack: seq<Cid>)
    ensures Loop(store, links, w, stack + Reversed(l))
         == var r := Dfs(store, links, l, w); if r.Ok? then Loop(store, links, r.w, stack) else r
    decreases Left(store, w), |l|
  {
    if l == [] {
      assert stack + Reversed(l) == stack;
    } else {
      var c, rest := l[0], stack + Reversed(l[1..]);
      var all := stack + Reversed(l);
      assert all[|all| - 1] == c && all[..|all| - 1] == rest;
      if c in w.seen {
        LoopIsDfs(store, links, l[1..], w, stack);
      } else if c in store {
        VisitLeft(store, w, c);
        var v := Visit(store, w, c);
        LoopIsDfs(store, links, links(c, store[c]), v, rest);
        var d := Dfs(store, links, links(c, store[c]), v);
        if d.Ok? {
          SeenLeft(store, v, d.w);
          LoopIsDfs(store, links, l[1..], d.w, stack);
        }
      }
    }
  }

  method Traverse(store: map<Cid, Bytes>, links: Links, root: Cid) returns (r: Result)
    ensures r == Dfs(store, links, [root], Walk({}, []))
  {
    var w, stack := Walk({}, []), [root];
    LoopIsDfs(store, links, [root], w, []);
    assert [root][1..] == [] && Reversed([root]) == [root] && [] + [root] == [root];
    while stack != []
      invariant Loop(store, links, w, stack) == Dfs(store, links, [root], Walk({}, []))
      decreases Left(store, w), |stack|
    {
      var c := stack[|stack| - 1];
      stack := stack[..|stack| - 1];
      if c !in w.seen {
        if c !in store {
          return Missing(c);
        }
        VisitLeft(store, w, c);
        stack := stack + Reversed(links(c, store[c]));
        w := Visit(store, w, c);
      }
    }
    r := Ok(w);
  }

  /** A path along links of stored blocks. */
  ghost predicate Path(store: map<Cid, Bytes>, links: Links, p: seq<Cid>) {
    p != [] && forall i :: 0 <= i < |p| - 1 ==> p[i] in store && p[i + 1] in links(p[i], store[p[i]])
  }

  ghost predicate Reaches(store: map<Cid, Bytes>, links: Links, root: Cid, c: Cid) {
    exists p :: Path(store, links, p) && p[0] == root && p[|p| - 1] == c
  }

  lemma ReachesStep(store: map<Cid, Bytes>, links: Links, root: Cid, c: Cid, d: Cid)
    requires Reaches(store, links, root, c) && c in store && d in links(c, store[c])
    ensures Reaches(store, links, root, d)
  {
    var p :| Path(store, links, p) && p[0] == root && p[|p| - 1] == c;
    var q := p + [d];
    assert Path(store, links, q) && q[0] == root && q[|q| - 1] == d;
  }

  /** Visited blocks: stored, each listed once, all reachable. */
  ghost predicate Sound(store: map<Cid, Bytes>, links: Links, root: Cid, w: Walk) {
    && (forall i :: 0 <= i < |w.out| ==> w.out[i].cid in store && w.out[i].data == store[w.out[i].cid])
    && (forall i, j :: 0 <= i < j < |w.out| ==> w.out[i].cid != w.out[j].cid)
    && (forall c :: c in w.seen <==> exists i :: 0 <= i < |w.out| && w.out[i].cid == c)
    && (forall c :: c in w.seen ==> Reaches(store, links, root, c))
  }

  lemma VisitSound(store: map<Cid, Bytes>, links: Links, root: Cid, w: Walk, c: Cid)
    requires Sound(store, links, root, w) && c in store && c !in w.seen && Reaches(store, links, root, c)
    ensures Sound(store, links, root, Visit(store, w, c))
  {
    hide Reaches;
    var v := Visit(store, w, c);
    forall x ensures x in v.seen <==> exists i :: 0 <= i < |v.out| && v.out[i].cid == x {
      if x in w.seen {
        var i :| 0 <= i < |w.out| && w.out[i].cid == x;
        assert v.out[i].cid == x;
      } else if x == c {
        assert v.out[|w.out|].cid == x;
      }
    }
  }

  lemma {:induction false} DfsSound(store: map<Cid, Bytes>, links: Links, root: Cid, l: seq<Cid>, w: Walk)
    requires Sound(store, links, root, w) && forall i :: 0 <= i < |l| ==> Reaches(store, links, root, l[i])
    ensures var r := Dfs(store, links, l, w);
            && (r.Ok? ==> Sound(store, links, root, r.w))
            && (r.Missing? ==> r.c !in store && Reaches(store, links, root, r.c))
    decreases Left(store, w), |l|
  {
    hide Reaches, Sound;
    if l != [] {
      var c := l[0];
      if c in w.seen {
        DfsSound(store, links, root, l[1..], w);
      } else if c in store {
        VisitLeft(store, w, c);
        VisitSound(store, links, root, w, c);
        var next, v := links(c, store[c]), Visit(store, w, c);
        forall i | 0 <= i < |next| ensures Reaches(store, links, root, next[i]) {
          ReachesStep(store, links, root, c, next[i]);
        }
        DfsSound(store, links, root, next, v);
        var d := Dfs(store, links, next, v);
        if d.Ok? {
          SeenLeft(store, v, d.w);
          DfsSound(store, links, root, l[1..], d.w);
        }
      }
    }
  }

  /** The links of every block visited since `w` were visited too. */
  ghost predicate Closed(store: map<Cid, Bytes>, links: Links, w: Walk, v: Walk) {
    forall c, x :: c in v.seen && c !in w.seen && c in store && x in links(c, store[c]) ==> x in v.seen
  }

  lemma {:induction false} DfsClosed(store: map<Cid, Bytes>, links: Links, l: seq<Cid>, w: Walk)
    ensures var r := Dfs(store, links, l, w);
            r.Ok? ==> w.seen <= r.w.seen && Closed(store, links, w, r.w) && forall i :: 0 <= i < |l| ==> l[i] in r.w.seen
    decreases Left(store, w), |l|
  {
    if l != [] {
      var c := l[0];
      if c in w.seen {
        DfsClosed(store, links, l[1..], w);
      } else if c in store {
        VisitLeft(store, w, c);
        var next, v := links(c, store[c]), Visit(store, w, c);
        DfsClosed(store, links, next, v);
        var d := Dfs(store, links, next, v);
        if d.Ok? {
          SeenLeft(store, v, d.w);
          DfsClosed(store, links, l[1..], d.w);
        }
      }
    }
  }

  lemma {:induction false} PathSeen(store: map<Cid, Bytes>, links: Links, v: Walk, p: seq<Cid>)
    requires Path(store, links, p) && p[0] in v.seen && Closed(store, links, Walk({}, []), v)
    ensures p[|p| - 1] in v.seen
  {
    if |p| > 1 {
      var q := p[..|p| - 1];
      forall i | 0 <= i < |q| - 1 ensures q[i] in store && q[i + 1] in links(q[i], store[q[i]]) {
        assert p[i] in store && p[i + 1] in links(p[i], store[p[i]]);
      }
      PathSeen(store, links, v, q);
      var k := |p| - 2;
      assert p[k] in store && p[k + 1] in links(p[k], store[p[k]]);
    }
  }

  /** A traversal lists every reachable block exactly once with its data; it fails exactly when some
      reachable block is not stored, and names such a block. */
  lemma TraverseExact(store: map<Cid, Bytes>, links: Links, root: Cid)
    ensures var r := Dfs(store, links, [root], Walk({}, []));
            && (r.Ok? ==> Sound(store, links, root, r.w) && forall c :: Reaches(store, links, root, c) <==> c in r.w.seen)
            && (r.Missing? ==> r.c !in store && Reaches(store, links, root, r.c))
  {
    var none := Walk({}, []);
    assert Path(store, links, [root]);
    assert Reaches(store, links, root, root);
    DfsSound(store, links, root, [root], none);
    DfsClosed(store, links, [root], none);
    var r := Dfs(store, links, [root], none);
    if r.Ok? {
      assert [root][0] in r.w.seen;
      forall c | Reaches(store, links, root, c) ensures c in r.w.seen {
        var p :| Path(store, links, p) && p[0] == root && p[|p| - 1] == c;
        PathSeen(store, links, r.w, p);
      }
    }
  }
}
