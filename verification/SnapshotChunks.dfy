/** Cutting the state into snapshot chunks (crates/ipld/src/history.rs, `SnapshotBuilder`). Addresses,
    balances, hashes and slots are numbers; a chunk is the list of its entries. */
module SnapshotChunks {
  const TARGET: nat := 512 * 1024
  const ACCOUNT_OVERHEAD: nat := 20 + 8 + 32 + 32 + 16
  const SLOT_SIZE: nat := 64 + 6

  type Slots = seq<(nat, nat)>

  datatype Account = Account(address: nat, nonce: nat, balance: nat, codeHash: nat, storage: Slots)

  /** With `x` set, only the slots are new: they belong to the account of the entry before. */
  datatype Entry = Entry(a: nat, n: nat, b: nat, c: nat, s: Slots, x: bool)

  type Chunk = seq<Entry>

  // ---- what chunks mean

  function Flat(chunks: seq<Chunk>): seq<Entry> {
    if chunks == [] then [] else Flat(chunks[..|chunks| - 1]) + chunks[|chunks| - 1]
  }

  /** Adds one entry to the accounts read so far. */
  function Join(accounts: seq<Account>, e: Entry): seq<Account> {
    if e.x && accounts != [] && accounts[|accounts| - 1].address == e.a then
      var last := accounts[|accounts| - 1];
      accounts[..|accounts| - 1] + [last.(storage := last.storage + e.s)]
    else accounts + [Account(e.a, e.n, e.b, e.c, e.s)]
  }

  /** The accounts of a list of entries, continuations merged. */
  function Merge(es: seq<Entry>): seq<Account> {
    if es == [] then [] else Join(Merge(es[..|es| - 1]), es[|es| - 1])
  }

  function EntrySize(e: Entry): nat {
    ACCOUNT_OVERHEAD + SLOT_SIZE * |e.s|
  }

  /** The builder's estimate of a chunk's encoded size. */
  function Estimate(es: seq<Entry>): nat {
    if es == [] then 0 else Estimate(es[..|es| - 1]) + EntrySize(es[|es| - 1])
  }

  // ---- building

  /** The chunk being filled with its estimated size, and the finished chunks. */
  datatype Build = Build(current: Chunk, size: nat, out: seq<Chunk>)

  const START := Build([], 0, [])

  function First(acc: Account, x: bool): Entry {
    Entry(acc.address, acc.nonce, acc.balance, acc.codeHash, [], x)
  }

  function Flush(b: Build): Build {
    if b.current == [] then b else Build([], 0, b.out + [b.current])
  }

  datatype Filling = Filling(b: Build, cur: Entry)

  function AddSlot(f: Filling, acc: Account, kv: (nat, nat)): Filling {
    var g := if f.b.size + SLOT_SIZE > TARGET
             then Filling(Flush(f.b.(current := f.b.current + [f.cur])).(size := ACCOUNT_OVERHEAD), First(acc, true))
             else f;
    Filling(g.b.(size := g.b.size + SLOT_SIZE), g.cur.(s := g.cur.s + [kv]))
  }

  function AddSlots(f: Filling, acc: Account, slots: Slots): Filling {
    if slots == [] then f else AddSlot(AddSlots(f, acc, slots[..|slots| - 1]), acc, slots[|slots| - 1])
  }

  function AddAccount(b: Build, acc: Account): Build {
    var f := AddSlots(Filling(b.(size := b.size + ACCOUNT_OVERHEAD), First(acc, false)), acc, acc.storage);
    var done := f.b.(current := f.b.current + [f.cur]);
    if done.size > TARGET then Flush(done) else done
  }

  function AddAccounts(accounts: seq<Account>): Build {
    if accounts == [] then START else AddAccount(AddAccounts(accounts[..|accounts| - 1]), accounts[|accounts| - 1])
  }

  function Chunks(accounts: seq<Account>): seq<Chunk> {
    Flush(AddAccounts(accounts)).out
  }

  // ---- nothing is lost

  lemma FlushFlat(b: Build)
    ensures Flat(Flush(b).out) + Flush(b).current == Flat(b.out) + b.current
  {
    if b.current != [] {
      assert (b.out + [b.current])[..|b.out|] == b.out;
    }
  }

  lemma MergeLast(es: seq<Entry>, e: Entry)
    ensures Merge(es + [e]) == Join(Merge(es), e)
  {
    assert (es + [e])[..|es|] == es;
  }

  lemma EstimateLast(es: seq<Entry>, e: Entry)
    ensures Estimate(es + [e]) == Estimate(es) + EntrySize(e)
  {
    assert (es + [e])[..|es|] == es;
  }

  /** Every finished chunk is within the target plus one account overhead. */
  predicate SizesOk(out: seq<Chunk>) {
    forall i :: 0 <= i < |out| ==> out[i] != [] && Estimate(out[i]) <= TARGET + ACCOUNT_OVERHEAD
  }

  /** No finished chunk has room for another slot. */
  predicate AllFull(out: seq<Chunk>) {
    forall i :: 0 <= i < |out| ==> Estimate(out[i]) + SLOT_SIZE > TARGET
  }

  /** Between accounts: the entries hold exactly `accounts`. */
  ghost predicate Holds(b: Build, accounts: seq<Account>) {
    && Merge(Flat(b.out) + b.current) == accounts
    && b.size == Estimate(b.current)
    && b.size <= TARGET
    && SizesOk(b.out) && AllFull(b.out)
  }

  /** Within an account: the entries and the open one hold `accounts` and the slots added so far. */
  ghost predicate Fills(f: Filling, acc: Account, accounts: seq<Account>, slots: Slots) {
    && Merge(Flat(f.b.out) + f.b.current + [f.cur]) == accounts + [acc.(storage := slots)]
    && f.cur == First(acc, f.cur.x).(s := f.cur.s)
    && f.b.size == Estimate(f.b.current) + EntrySize(f.cur)
    && f.b.size <= TARGET + ACCOUNT_OVERHEAD
    && SizesOk(f.b.out) && AllFull(f.b.out)
  }

  lemma StartFills(b: Build, acc: Account, accounts: seq<Account>)
    requires Holds(b, accounts)
    ensures Fills(Filling(b.(size := b.size + ACCOUNT_OVERHEAD), First(acc, false)), acc, accounts, [])
  {
    MergeLast(Flat(b.out) + b.current, First(acc, false));
  }

  /** An empty continuation changes nothing. */
  lemma CutMerge(es: seq<Entry>, acc: Account, accounts: seq<Account>, slots: Slots)
    requires Merge(es) == accounts + [acc.(storage := slots)]
    ensures Merge(es + [First(acc, true)]) == Merge(es)
  {
    MergeLast(es, First(acc, true));
    assert slots + [] == slots;
    assert (accounts + [acc.(storage := slots)])[..|accounts|] == accounts;
  }

  /** Cutting: the open entry joins the chunk, the chunk is finished, and an empty continuation opens. */
  lemma CutFills(f: Filling, acc: Account, accounts: seq<Account>, slots: Slots)
    requires Fills(f, acc, accounts, slots) && f.b.size + SLOT_SIZE > TARGET
    ensures Fills(Filling(Flush(f.b.(current := f.b.current + [f.cur])).(size := ACCOUNT_OVERHEAD), First(acc, true)),
                  acc, accounts, slots)
  {
    hide Merge, Flat, SizesOk, AllFull, Estimate;
    EstimateLast(f.b.current, f.cur);
    EstimateNone();
    var full := f.b.(current := f.b.current + [f.cur]);
    FlushFlat(full);
    CutMerge(Flat(f.b.out) + f.b.current + [f.cur], acc, accounts, slots);
    FlushSizes(full);
    var g := Flush(full);
    assert Flat(g.out) + g.current == Flat(f.b.out) + f.b.current + [f.cur];
  }

  lemma EstimateNone()
    ensures Estimate([]) == 0
  {
  }

  lemma FlushSizes(b: Build)
    requires SizesOk(b.out) && AllFull(b.out) && Estimate(b.current) <= TARGET + ACCOUNT_OVERHEAD
    ensures SizesOk(Flush(b).out) && (Estimate(b.current) + SLOT_SIZE > TARGET ==> AllFull(Flush(b).out))
  {
  }

  /** Growing the open entry by one slot grows the last account. */
  lemma GrowMerge(es: seq<Entry>, cur: Entry, acc: Account, accounts: seq<Account>, slots: Slots, kv: (nat, nat))
    requires Merge(es + [cur]) == accounts + [acc.(storage := slots)]
    ensures Merge(es + [cur.(s := cur.s + [kv])]) == accounts + [acc.(storage := slots + [kv])]
  {
    var more := cur.(s := cur.s + [kv]);
    MergeLast(es, cur);
    MergeLast(es, more);
    var m := Merge(es);
    if cur.x && m != [] && m[|m| - 1].address == cur.a {
      var last := m[|m| - 1];
      assert last.storage + (cur.s + [kv]) == last.storage + cur.s + [kv];
      assert Join(m, cur)[..|m| - 1] == m[..|m| - 1] == accounts;
      assert Join(m, cur)[|m| - 1] == acc.(storage := slots);
    } else {
      assert Join(m, cur)[..|m|] == m == accounts;
      assert Join(m, cur)[|m|] == acc.(storage := slots);
    }
  }

  lemma SlotFills(f: Filling, acc: Account, accounts: seq<Account>, slots: Slots, kv: (nat, nat))
    requires Fills(f, acc, accounts, slots)
    ensures Fills(AddSlot(f, acc, kv), acc, accounts, slots + [kv])
  {
    hide Merge, Flat, Estimate, Flush, SizesOk, AllFull;
    var cut := f.b.size + SLOT_SIZE > TARGET;
    if cut {
      CutFills(f, acc, accounts, slots);
    }
    var g := if cut
             then Filling(Flush(f.b.(current := f.b.current + [f.cur])).(size := ACCOUNT_OVERHEAD), First(acc, true))
             else f;
    GrowMerge(Flat(g.b.out) + g.b.current, g.cur, acc, accounts, slots, kv);
  }

  lemma {:induction false} SlotsFill(f: Filling, acc: Account, accounts: seq<Account>, slots: Slots)
    requires Fills(f, acc, accounts, [])
    ensures Fills(AddSlots(f, acc, slots), acc, accounts, slots)
  {
    hide Fills, AddSlot;
    if slots != [] {
      var less := slots[..|slots| - 1];
      SlotsFill(f, acc, accounts, less);
      SlotFills(AddSlots(f, acc, less), acc, accounts, less, slots[|slots| - 1]);
      assert slots == less + [slots[|slots| - 1]];
    }
  }

  lemma FlushHolds(b: Build, accounts: seq<Account>)
    requires Merge(Flat(b.out) + b.current) == accounts && b.size == Estimate(b.current)
    requires b.size <= TARGET + ACCOUNT_OVERHEAD && b.size + SLOT_SIZE > TARGET && SizesOk(b.out) && AllFull(b.out)
    ensures Holds(Flush(b), accounts) && Flush(b).current == []
  {
    FlushFlat(b);
    FlushSizes(b);
    EstimateNone();
    hide Merge, Flat, Estimate, SizesOk, AllFull;
  }

  lemma AccountHolds(b: Build, acc: Account, accounts: seq<Account>)
    requires Holds(b, accounts)
    ensures Holds(AddAccount(b, acc), accounts + [acc])
  {
    hide AddSlots, Merge, Flat, Estimate, Flush, SizesOk, AllFull;
    StartFills(b, acc, accounts);
    var f := Filling(b.(size := b.size + ACCOUNT_OVERHEAD), First(acc, false));
    SlotsFill(f, acc, accounts, acc.storage);
    var g := AddSlots(f, acc, acc.storage);
    var done := g.b.(current := g.b.current + [g.cur]);
    assert Flat(g.b.out) + g.b.current + [g.cur] == Flat(done.out) + done.current;
    EstimateLast(g.b.current, g.cur);
    if done.size > TARGET {
      FlushHolds(done, accounts + [acc]);
    }
  }

  lemma StartHolds()
    ensures Holds(START, [])
  {
    assert Flat([]) + [] == [];
  }

  lemma {:induction false} AccountsHold(accounts: seq<Account>)
    ensures Holds(AddAccounts(accounts), accounts)
  {
    hide AddAccount, Holds;
    if accounts == [] {
      StartHolds();
    } else {
      var less, acc := accounts[..|accounts| - 1], accounts[|accounts| - 1];
      AccountsHold(less);
      AccountHolds(AddAccounts(less), acc, less);
      assert accounts == less + [acc];
    }
  }

  /** Concatenating the chunks and merging continuations gives back every account with every slot,
      once and in order; each chunk is within the target plus one account overhead, and only the last has
      room for another slot. */
  lemma ChunksExact(accounts: seq<Account>)
    ensures Merge(Flat(Chunks(accounts))) == accounts && SizesOk(Chunks(accounts))
    ensures Chunks(accounts) != [] ==> AllFull(Chunks(accounts)[..|Chunks(accounts)| - 1])
  {
    AccountsHold(accounts);
    hide AddAccounts, Merge, Flat, Estimate, SizesOk;
    var b := AddAccounts(accounts);
    FlushFlat(b);
    FlushSizes(b);
    assert Flat(Flush(b).out) + [] == Flat(Flush(b).out);
    if b.current != [] {
      assert Flush(b).out[..|b.out|] == b.out;
    }
  }

  // ---- codes

  type Code = seq<bv8>

  function CodeSize(cs: seq<Code>): nat {
    if cs == [] then 0 else CodeSize(cs[..|cs| - 1]) + |cs[|cs| - 1]| + 8
  }

  function FlatCodes(chunks: seq<seq<Code>>): seq<Code> {
    if chunks == [] then [] else FlatCodes(chunks[..|chunks| - 1]) + chunks[|chunks| - 1]
  }

  datatype Codes = Codes(current: seq<Code>, size: nat, out: seq<seq<Code>>)

  function FlushCodes(b: Codes): Codes {
    if b.current == [] then b else Codes([], 0, b.out + [b.current])
  }

  function AddCode(b: Codes, code: Code): Codes {
    var c := if b.size + |code| + 8 > TARGET && b.current != [] then FlushCodes(b) else b;
    Codes(c.current + [code], c.size + |code| + 8, c.out)
  }

  function AddCodes(codes: seq<Code>): Codes {
    if codes == [] then Codes([], 0, []) else AddCode(AddCodes(codes[..|codes| - 1]), codes[|codes| - 1])
  }

  /** Within the target, or a single code. */
  predicate CodeChunkOk(c: seq<Code>) {
    CodeSize(c) <= TARGET || |c| == 1
  }

  ghost predicate HoldsCodes(b: Codes, codes: seq<Code>) {
    && FlatCodes(b.out) + b.current == codes
    && b.size == CodeSize(b.current)
    && CodeChunkOk(b.current)
    && (forall i :: 0 <= i < |b.out| ==> CodeChunkOk(b.out[i]))
  }

  /** A chunk was cut only because the next code did not fit. */
  predicate CutLate(out: seq<seq<Code>>) {
    forall i :: 0 < i < |out| && out[i] != [] ==> CodeSize(out[i - 1]) + |out[i][0]| + 8 > TARGET
  }

  predicate Late(b: Codes) {
    && CutLate(b.out + if b.current == [] then [] else [b.current])
    && (b.current == [] ==> b.out == [])
  }

  lemma FlushCodesHolds(b: Codes, codes: seq<Code>)
    requires HoldsCodes(b, codes)
    ensures HoldsCodes(FlushCodes(b), codes) && FlushCodes(b).current == []
  {
    if b.current != [] {
      assert (b.out + [b.current])[..|b.out|] == b.out;
    }
  }

  /** The last chunk grows, or a new one starts because the code did not fit. */
  lemma CutGrows(out: seq<seq<Code>>, current: seq<Code>, code: Code)
    requires CutLate(out + if current == [] then [] else [current])
    requires current == [] && out != [] ==> CodeSize(out[|out| - 1]) + |code| + 8 > TARGET
    ensures CutLate(out + [current + [code]])
  {
    var a, b := out + if current == [] then [] else [current], out + [current + [code]];
    forall i | 0 < i < |b| && b[i] != [] ensures CodeSize(b[i - 1]) + |b[i][0]| + 8 > TARGET {
      if i < |out| {
        assert a[i] == b[i] && a[i - 1] == b[i - 1];
      } else if current != [] {
        assert a[i] == current && a[i - 1] == b[i - 1];
      }
    }
  }

  lemma CodeCuts(b: Codes, code: Code)
    requires Late(b) && b.size == CodeSize(b.current)
    ensures Late(AddCode(b, code))
  {
    hide CutLate, CodeSize;
    if b.size + |code| + 8 > TARGET && b.current != [] {
      assert b.out + [b.current] + [] == b.out + [b.current];
      CutGrows(b.out + [b.current], [], code);
      assert [] + [code] == [code];
    } else {
      CutGrows(b.out, b.current, code);
    }
  }

  lemma CodeHolds(b: Codes, code: Code, codes: seq<Code>)
    requires HoldsCodes(b, codes)
    ensures HoldsCodes(AddCode(b, code), codes + [code])
  {
    hide HoldsCodes, FlushCodes;
    FlushCodesHolds(b, codes);
    if b.size + |code| + 8 > TARGET && b.current != [] {
      CodePushed(FlushCodes(b), code, codes);
    } else {
      CodePushed(b, code, codes);
    }
  }

  lemma SizePush(cs: seq<Code>, code: Code)
    ensures CodeSize(cs + [code]) == CodeSize(cs) + |code| + 8
  {
    assert (cs + [code])[..|cs|] == cs;
  }

  lemma CodePushed(c: Codes, code: Code, codes: seq<Code>)
    requires HoldsCodes(c, codes) && (c.size + |code| + 8 <= TARGET || c.current == [])
    ensures HoldsCodes(Codes(c.current + [code], c.size + |code| + 8, c.out), codes + [code])
  {
    hide FlatCodes, CodeSize;
    SizePush(c.current, code);
    assert FlatCodes(c.out) + (c.current + [code]) == FlatCodes(c.out) + c.current + [code];
  }

  lemma NoCodesHold()
    ensures HoldsCodes(Codes([], 0, []), []) && Late(Codes([], 0, []))
  {
  }

  lemma {:induction false} CodesHold(codes: seq<Code>)
    ensures HoldsCodes(AddCodes(codes), codes) && Late(AddCodes(codes))
  {
    hide Late, CutLate, FlatCodes, CodeSize, CodeChunkOk, AddCode;
    if codes == [] {
      NoCodesHold();
    } else {
      var less, code := codes[..|codes| - 1], codes[|codes| - 1];
      CodesHold(less);
      CodeHolds(AddCodes(less), code, less);
      CodeCuts(AddCodes(less), code);
      assert codes == less + [code];
    }
  }

  /** The code chunks hold every code once and in order, each within the target unless it is a single
      larger code, and none was cut while the next code still fitted. */
  lemma CodesExact(codes: seq<Code>)
    ensures var out := FlushCodes(AddCodes(codes)).out;
            FlatCodes(out) == codes && (forall i :: 0 <= i < |out| ==> CodeChunkOk(out[i])) && CutLate(out)
  {
    hide CutLate, FlatCodes, CodeSize, CodeChunkOk, AddCodes;
    CodesHold(codes);
    FlushCodesHolds(AddCodes(codes), codes);
    assert AddCodes(codes).out + [] == AddCodes(codes).out;
    assert FlatCodes(FlushCodes(AddCodes(codes)).out) + [] == FlatCodes(FlushCodes(AddCodes(codes)).out);
  }

  /** The builder, updated in place. `done` and `doneCodes` are the chunks handed out so far. */
  class Builder {
    var current: Chunk
    var size: nat
    var codes: seq<Code>
    var codeSize: nat
    ghost var done: seq<Chunk>
    ghost var doneCodes: seq<seq<Code>>

    ghost function Accounts(): Build
      reads this
    {
      Build(current, size, done)
    }

    ghost function AllCodes(): Codes
      reads this
    {
      Codes(codes, codeSize, doneCodes)
    }

    constructor ()
      ensures Accounts() == START && AllCodes() == Codes([], 0, [])
    {
      current, size, codes, codeSize, done, doneCodes := [], 0, [], 0, [], [];
    }

    method FlushAccounts() returns (out: seq<Chunk>)
      modifies this`current, this`size, this`done
      ensures Accounts() == Flush(old(Accounts())) && done == old(done) + out
    {
      if current == [] {
        return [];
      }
      out := [current];
      done := done + [current];
      current, size := [], 0;
    }

    /** Adds an account; returns the chunks it finished. */
    method Add(acc: Account) returns (out: seq<Chunk>)
      modifies this`current, this`size, this`done
      ensures Accounts() == AddAccount(old(Accounts()), acc) && done == old(done) + out
    {
      hide Flush;
      out := [];
      var cur := First(acc, false);
      size := size + ACCOUNT_OVERHEAD;
      ghost var start := Filling(Accounts(), cur);
      for i := 0 to |acc.storage|
        invariant Filling(Accounts(), cur) == AddSlots(start, acc, acc.storage[..i])
        invariant done == old(done) + out
      {
        assert acc.storage[..i + 1][..i] == acc.storage[..i];
        if size + SLOT_SIZE > TARGET {
          current := current + [cur];
          cur := First(acc, true);
          var more := FlushAccounts();
          out := out + more;
          size := ACCOUNT_OVERHEAD;
        }
        cur := cur.(s := cur.s + [acc.storage[i]]);
        size := size + SLOT_SIZE;
      }
      assert acc.storage[..|acc.storage|] == acc.storage;
      current := current + [cur];
      if size > TARGET {
        var more := FlushAccounts();
        out := out + more;
      }
    }

    method FlushCode() returns (out: seq<seq<Code>>)
      modifies this`codes, this`codeSize, this`doneCodes
      ensures AllCodes() == FlushCodes(old(AllCodes())) && doneCodes == old(doneCodes) + out
    {
      if codes == [] {
        return [];
      }
      out := [codes];
      doneCodes := doneCodes + [codes];
      codes, codeSize := [], 0;
    }

    /** Adds a code; returns the chunk it finished, if any. */
    method AddOneCode(code: Code) returns (out: seq<seq<Code>>)
      modifies this`codes, this`codeSize, this`doneCodes
      ensures AllCodes() == AddCode(old(AllCodes()), code) && doneCodes == old(doneCodes) + out
    {
      out := [];
      if codeSize + |code| + 8 > TARGET && codes != [] {
        out := FlushCode();
      }
      codeSize := codeSize + |code| + 8;
      codes := codes + [code];
    }

    method Finish() returns (out: seq<Chunk>, outCodes: seq<seq<Code>>)
      modifies this
      ensures Accounts() == Flush(old(Accounts())) && done == old(done) + out
      ensures AllCodes() == FlushCodes(old(AllCodes())) && doneCodes == old(doneCodes) + outCodes
    {
      out := FlushAccounts();
      outCodes := FlushCode();
    }
  }
}
