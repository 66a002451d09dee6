/** State of pending blocks over the committed store (crates/chain/src/overlay.rs), against applying
    the same changesets to the flat tables (crates/store/src/state.rs, `apply_changes`). Addresses,
    slots, values and hashes are numbers; tries and roots are not modelled. */
module OverlayState {
  import opened Options

  /** Hash of the empty code. */
  const EMPTY_CODE_HASH: nat := 0
  const EMPTY_CODE: nat := 0

  /** `code` is a cached copy that revm may attach; readers fetch code by hash instead. */
  datatype Info = Info(balance: nat, nonce: nat, codeHash: nat, code: Option<nat>)

  const DEFAULT_ACCOUNT := Info(0, 0, EMPTY_CODE_HASH, None)

  function Strip(i: Info): Info {
    i.(code := None)
  }

  datatype SlotChange = SlotChange(slot: nat, value: nat)

  datatype StorageChange = StorageChange(address: nat, wipe: bool, slots: seq<SlotChange>)

  /** `info` is `None` when the account was destroyed. */
  datatype AccountChange = AccountChange(address: nat, info: Option<Info>)

  datatype CodeChange = CodeChange(hash: nat, code: nat)

  datatype Changeset = Changeset(contracts: seq<CodeChange>, storage: seq<StorageChange>, accounts: seq<AccountChange>)

  /** A block's number, hash and changes. */
  datatype Pending = Pending(number: nat, hash: nat, cs: Changeset)

  type Storage = map<(nat, nat), nat>

  function WithoutAddress(s: Storage, a: nat): Storage {
    map k | k in s && k.0 != a :: s[k]
  }

  // ---- flat tables

  datatype Flat = Flat(accounts: map<nat, Info>, storage: Storage, codes: map<nat, nat>, hashes: map<nat, nat>) {
    function Account(a: nat): Option<Info> {
      if a in accounts then Some(Strip(accounts[a])) else None
    }

    /** Missing code is an error of the store. */
    function Code(h: nat): Option<nat> {
      if h == EMPTY_CODE_HASH then Some(EMPTY_CODE) else if h in codes then Some(codes[h]) else None
    }

    function Slot(a: nat, k: nat): nat {
      if (a, k) in storage then storage[(a, k)] else 0
    }

    function BlockHash(n: nat): nat {
      if n in hashes then hashes[n] else 0
    }
  }

  function PutCodes(codes: map<nat, nat>, cs: seq<CodeChange>): map<nat, nat> {
    if cs == [] then codes else PutCodes(codes, cs[..|cs| - 1])[cs[|cs| - 1].hash := cs[|cs| - 1].code]
  }

  /** Slots set to zero are deleted. */
  function FlatSlots(s: Storage, a: nat, slots: seq<SlotChange>): Storage {
    if slots == [] then s
    else
      var before := FlatSlots(s, a, slots[..|slots| - 1]);
      var c := slots[|slots| - 1];
      if c.value == 0 then before - {(a, c.slot)} else before[(a, c.slot) := c.value]
  }

  function FlatStorage(s: Storage, cs: seq<StorageChange>): Storage {
    if cs == [] then s
    else
      var before := FlatStorage(s, cs[..|cs| - 1]);
      var c := cs[|cs| - 1];
      FlatSlots(if c.wipe then WithoutAddress(before, c.address) else before, c.address, c.slots)
  }

  /** Accounts whose storage the changeset writes or wipes. */
  function Touched(cs: seq<StorageChange>): set<nat> {
    set c | c in cs && (c.wipe || c.slots != []) :: c.address
  }

  function Infos(cs: seq<AccountChange>): map<nat, Option<Info>> {
    if cs == [] then map[] else Infos(cs[..|cs| - 1])[cs[|cs| - 1].address := cs[|cs| - 1].info]
  }

  /** An account with storage changes but no entry of its own is written back as it was, so a missing one
      appears as an empty account. */
  function FlatAccounts(accounts: map<nat, Info>, infos: map<nat, Option<Info>>, touched: set<nat>): map<nat, Info> {
    map a | a in accounts.Keys + infos.Keys + touched && (a in infos ==> infos[a].Some?) ::
      if a in infos then infos[a].value else if a in accounts then accounts[a] else DEFAULT_ACCOUNT
  }

  /** The flat storage after destroying the accounts without info. */
  function Surviving(s: Storage, infos: map<nat, Option<Info>>): Storage {
    map k | k in s && !(k.0 in infos && infos[k.0].None?) :: s[k]
  }

  function Apply(f: Flat, p: Pending): Flat {
    var infos := Infos(p.cs.accounts);
    var s := FlatStorage(f.storage, p.cs.storage);
    Flat(
      FlatAccounts(f.accounts, infos, Touched(p.cs.storage)),
      Surviving(s, infos),
      PutCodes(f.codes, p.cs.contracts),
      f.hashes[p.number := p.hash])
  }

  function ApplyAll(f: Flat, ps: seq<Pending>): Flat {
    if ps == [] then f else Apply(ApplyAll(f, ps[..|ps| - 1]), ps[|ps| - 1])
  }

  // ---- overlay

  datatype View = View(
    accounts: map<nat, Option<Info>>,
    storage: Storage,
    wiped: set<nat>,
    codes: map<nat, nat>,
    hashes: map<nat, nat>)
  {
    function Account(base: Flat, a: nat): Option<Info> {
      if a in accounts then accounts[a] else base.Account(a)
    }

    function Code(base: Flat, h: nat): Option<nat> {
      if h in codes then Some(codes[h]) else base.Code(h)
    }

    function Slot(base: Flat, a: nat, k: nat): nat {
      if (a, k) in storage then storage[(a, k)]
      else if a in wiped then 0
      else base.Slot(a, k)
    }

    function BlockHash(base: Flat, n: nat): nat {
      if n in hashes then hashes[n] else base.BlockHash(n)
    }
  }

  const NOTHING := View(map[], map[], {}, map[], map[])

  function PushSlots(s: Storage, a: nat, slots: seq<SlotChange>): Storage {
    if slots == [] then s
    else PushSlots(s, a, slots[..|slots| - 1])[(a, slots[|slots| - 1].slot) := slots[|slots| - 1].value]
  }

  function PushStorage(v: View, cs: seq<StorageChange>): View {
    if cs == [] then v
    else
      var before := PushStorage(v, cs[..|cs| - 1]);
      var c := cs[|cs| - 1];
      var w := if c.wipe
               then before.(wiped := before.wiped + {c.address}, storage := WithoutAddress(before.storage, c.address))
               else before;
      w.(storage := PushSlots(w.storage, c.address, c.slots))
  }

  function StripOption(i: Option<Info>): Option<Info> {
    match i case None => None case Some(x) => Some(Strip(x))
  }

  function PushAccounts(v: View, cs: seq<AccountChange>): View {
    if cs == [] then v
    else
      var before := PushAccounts(v, cs[..|cs| - 1]);
      var c := cs[|cs| - 1];
      var w := if c.info.None?
               then before.(wiped := before.wiped + {c.address}, storage := WithoutAddress(before.storage, c.address))
               else before;
      w.(accounts := w.accounts[c.address := StripOption(c.info)])
  }

  function Pushed(v: View, p: Pending): View {
    var w := PushAccounts(PushStorage(v.(codes := PutCodes(v.codes, p.cs.contracts)), p.cs.storage), p.cs.accounts);
    w.(hashes := w.hashes[p.number := p.hash])
  }

  function PushedAll(v: View, ps: seq<Pending>): View {
    if ps == [] then v else Pushed(PushedAll(v, ps[..|ps| - 1]), ps[|ps| - 1])
  }

  /** The pending changes, updated in place. */
  class Changes {
    var accounts: map<nat, Option<Info>>
    var storage: Storage
    var wiped: set<nat>
    var codes: map<nat, nat>
    var blockHashes: map<nat, nat>

    function Value(): View
      reads this
    {
      View(accounts, storage, wiped, codes, blockHashes)
    }

    constructor ()
      ensures Value() == NOTHING
    {
      accounts, storage, wiped, codes, blockHashes := map[], map[], {}, map[], map[];
    }

    method InsertSlots(a: nat, slots: seq<SlotChange>)
      modifies this`storage
      ensures storage == PushSlots(old(storage), a, slots)
    {
      for i := 0 to |slots|
        invariant storage == PushSlots(old(storage), a, slots[..i])
      {
        assert slots[..i + 1][..i] == slots[..i];
        storage := storage[(a, slots[i].slot) := slots[i].value];
      }
      assert slots[..|slots|] == slots;
    }

    method Push(number: nat, hash: nat, cs: Changeset)
      modifies this
      ensures Value() == Pushed(old(Value()), Pending(number, hash, cs))
    {
      for i := 0 to |cs.contracts|
        invariant Value() == old(Value()).(codes := PutCodes(old(codes), cs.contracts[..i]))
      {
        assert cs.contracts[..i + 1][..i] == cs.contracts[..i];
        codes := codes[cs.contracts[i].hash := cs.contracts[i].code];
      }
      assert cs.contracts[..|cs.contracts|] == cs.contracts;
      ghost var v := Value();
      for i := 0 to |cs.storage|
        invariant Value() == PushStorage(v, cs.storage[..i])
      {
        assert cs.storage[..i + 1][..i] == cs.storage[..i];
        var s := cs.storage[i];
        if s.wipe {
          wiped := wiped + {s.address};
          storage := WithoutAddress(storage, s.address);
        }
        InsertSlots(s.address, s.slots);
      }
      assert cs.storage[..|cs.storage|] == cs.storage;
      ghost var w := Value();
      for i := 0 to |cs.accounts|
        invariant Value() == PushAccounts(w, cs.accounts[..i])
      {
        assert cs.accounts[..i + 1][..i] == cs.accounts[..i];
        var c := cs.accounts[i];
        if c.info.None? {
          wiped := wiped + {c.address};
          storage := WithoutAddress(storage, c.address);
        }
        accounts := accounts[c.address := StripOption(c.info)];
      }
      assert cs.accounts[..|cs.accounts|] == cs.accounts;
      blockHashes := blockHashes[number := hash];
    }
  }

  // ---- refinement

  ghost predicate SameSlots(base: Flat, v: View, s: Storage) {
    forall a: nat, k: nat :: v.Slot(base, a, k) == if (a, k) in s then s[(a, k)] else 0
  }

  ghost predicate SameCodes(base: Flat, v: View, f: Flat) {
    forall h :: v.Code(base, h) == f.Code(h)
  }

  ghost predicate SameAccounts(base: Flat, v: View, f: Flat) {
    forall a :: v.Account(base, a) == f.Account(a)
  }

  ghost predicate SameHashes(base: Flat, v: View, f: Flat) {
    forall n :: v.BlockHash(base, n) == f.BlockHash(n)
  }

  /** Every read through the overlay equals the read from the flat tables. */
  ghost predicate Refines(base: Flat, v: View, f: Flat) {
    SameSlots(base, v, f.storage) && SameCodes(base, v, f) && SameAccounts(base, v, f) && SameHashes(base, v, f)
  }

  /** What execution hands over: one entry per account, and the empty code under its hash. */
  ghost predicate WellFormed(cs: Changeset) {
    && (forall i, j :: 0 <= i < j < |cs.accounts| ==> cs.accounts[i].address != cs.accounts[j].address)
    && (forall i :: 0 <= i < |cs.contracts| ==> cs.contracts[i].hash == EMPTY_CODE_HASH ==> cs.contracts[i].code == EMPTY_CODE)
  }

  /** Every account whose storage changes is in the changeset's account list or exists already. */
  predicate Covered(f: Flat, cs: Changeset) {
    forall a :: a in Touched(cs.storage) ==> a in f.accounts || a in Infos(cs.accounts)
  }

  lemma {:induction false} CodesSame(base: Flat, v: View, f: Flat, cs: seq<CodeChange>)
    requires SameCodes(base, v, f)
    requires forall i :: 0 <= i < |cs| ==> cs[i].hash == EMPTY_CODE_HASH ==> cs[i].code == EMPTY_CODE
    ensures SameCodes(base, v.(codes := PutCodes(v.codes, cs)), f.(codes := PutCodes(f.codes, cs)))
  {
    if cs != [] {
      CodesSame(base, v, f, cs[..|cs| - 1]);
      var w, g := v.(codes := PutCodes(v.codes, cs)), f.(codes := PutCodes(f.codes, cs));
      var w0, g0 := v.(codes := PutCodes(v.codes, cs[..|cs| - 1])), f.(codes := PutCodes(f.codes, cs[..|cs| - 1]));
      forall h ensures w.Code(base, h) == g.Code(h) {
        assert w0.Code(base, h) == g0.Code(h);
      }
    }
  }

  lemma WipeSame(base: Flat, v: View, s: Storage, a: nat)
    requires SameSlots(base, v, s)
    ensures SameSlots(base, v.(wiped := v.wiped + {a}, storage := WithoutAddress(v.storage, a)), WithoutAddress(s, a))
  {
    var w := v.(wiped := v.wiped + {a}, storage := WithoutAddress(v.storage, a));
    var t := WithoutAddress(s, a);
    forall b: nat, k: nat ensures w.Slot(base, b, k) == if (b, k) in t then t[(b, k)] else 0 {
      assert v.Slot(base, b, k) == if (b, k) in s then s[(b, k)] else 0;
    }
  }

  lemma {:induction false} SlotsSame(base: Flat, v: View, s: Storage, a: nat, slots: seq<SlotChange>)
    requires SameSlots(base, v, s)
    ensures SameSlots(base, v.(storage := PushSlots(v.storage, a, slots)), FlatSlots(s, a, slots))
  {
    if slots != [] {
      var less := slots[..|slots| - 1];
      SlotsSame(base, v, s, a, less);
      var w, t := v.(storage := PushSlots(v.storage, a, slots)), FlatSlots(s, a, slots);
      var w0, t0 := v.(storage := PushSlots(v.storage, a, less)), FlatSlots(s, a, less);
      forall b: nat, k: nat ensures w.Slot(base, b, k) == if (b, k) in t then t[(b, k)] else 0 {
        assert w0.Slot(base, b, k) == if (b, k) in t0 then t0[(b, k)] else 0;
      }
    }
  }

  lemma {:induction false} StorageSame(base: Flat, v: View, s: Storage, cs: seq<StorageChange>)
    requires SameSlots(base, v, s)
    ensures SameSlots(base, PushStorage(v, cs), FlatStorage(s, cs))
    ensures var w := PushStorage(v, cs); w.accounts == v.accounts && w.codes == v.codes && w.hashes == v.hashes
  {
    hide SameSlots;
    if cs != [] {
      var c := cs[|cs| - 1];
      StorageSame(base, v, s, cs[..|cs| - 1]);
      var w, t := PushStorage(v, cs[..|cs| - 1]), FlatStorage(s, cs[..|cs| - 1]);
      if c.wipe {
        WipeSame(base, w, t, c.address);
        SlotsSame(base, w.(wiped := w.wiped + {c.address}, storage := WithoutAddress(w.storage, c.address)),
                  WithoutAddress(t, c.address), c.address, c.slots);
      } else {
        SlotsSame(base, w, t, c.address, c.slots);
      }
    }
  }

  lemma {:induction false} InfosOf(cs: seq<AccountChange>, a: nat)
    ensures a in Infos(cs) <==> exists i :: 0 <= i < |cs| && cs[i].address == a
  {
    if cs != [] {
      InfosOf(cs[..|cs| - 1], a);
      if a in Infos(cs) && cs[|cs| - 1].address != a {
        var i :| 0 <= i < |cs| - 1 && cs[..|cs| - 1][i].address == a;
        assert cs[i].address == a;
      }
    }
  }

  lemma {:induction false} AccountsPushed(v: View, cs: seq<AccountChange>, a: nat)
    ensures var w := PushAccounts(v, cs);
            && w.codes == v.codes && w.hashes == v.hashes
            && (a in w.accounts <==> a in v.accounts || a in Infos(cs))
            && (a in w.accounts ==> w.accounts[a] == if a in Infos(cs) then StripOption(Infos(cs)[a]) else v.accounts[a])
  {
    if cs != [] {
      AccountsPushed(v, cs[..|cs| - 1], a);
    }
  }

  /** Slot reads depend only on the storage and the wiped set. */
  lemma SlotsOnly(base: Flat, v: View, w: View, s: Storage)
    requires SameSlots(base, v, s) && v.storage == w.storage && v.wiped == w.wiped
    ensures SameSlots(base, w, s)
  {
    assert forall a: nat, k: nat :: w.Slot(base, a, k) == v.Slot(base, a, k);
  }

  lemma SurvivingStep(s: Storage, infos: map<nat, Option<Info>>, a: nat, i: Option<Info>)
    requires a !in infos
    ensures Surviving(s, infos[a := i]) == if i.None? then WithoutAddress(Surviving(s, infos), a) else Surviving(s, infos)
    ensures Surviving(s, map[]) == s
  {
  }

  lemma {:induction false} DestroySame(base: Flat, v: View, s: Storage, cs: seq<AccountChange>)
    requires SameSlots(base, v, s)
    requires forall i, j :: 0 <= i < j < |cs| ==> cs[i].address != cs[j].address
    ensures SameSlots(base, PushAccounts(v, cs), Surviving(s, Infos(cs)))
  {
    hide SameSlots, Surviving, WithoutAddress;
    if cs == [] {
      SurvivingStep(s, map[], 0, None);
    } else {
      var less, c := cs[..|cs| - 1], cs[|cs| - 1];
      DestroySame(base, v, s, less);
      InfosOf(less, c.address);
      SurvivingStep(s, Infos(less), c.address, c.info);
      var w, t := PushAccounts(v, less), Surviving(s, Infos(less));
      if c.info.None? {
        WipeSame(base, w, t, c.address);
        SlotsOnly(base, w.(wiped := w.wiped + {c.address}, storage := WithoutAddress(w.storage, c.address)),
                  PushAccounts(v, cs), Surviving(s, Infos(cs)));
      } else {
        SlotsOnly(base, w, PushAccounts(v, cs), t);
      }
    }
  }

  /** Storage, code and block-hash reads always agree. */
  ghost predicate Agrees(base: Flat, v: View, f: Flat) {
    SameSlots(base, v, f.storage) && SameCodes(base, v, f) && SameHashes(base, v, f)
  }

  lemma CodesOnly(base: Flat, v: View, w: View, f: Flat, g: Flat)
    requires SameCodes(base, v, f) && v.codes == w.codes && f.codes == g.codes
    ensures SameCodes(base, w, g)
  {
    forall h ensures w.Code(base, h) == g.Code(h) {
      assert v.Code(base, h) == f.Code(h);
    }
  }

  lemma HashesSame(base: Flat, v: View, f: Flat, w: View, g: Flat, p: Pending)
    requires SameHashes(base, v, f) && w.hashes == v.hashes[p.number := p.hash] && g.hashes == f.hashes[p.number := p.hash]
    ensures SameHashes(base, w, g)
  {
    forall n ensures w.BlockHash(base, n) == g.BlockHash(n) {
      assert v.BlockHash(base, n) == f.BlockHash(n);
    }
  }

  lemma PushAgrees(base: Flat, v: View, f: Flat, p: Pending)
    requires Agrees(base, v, f) && WellFormed(p.cs)
    ensures Agrees(base, Pushed(v, p), Apply(f, p))
  {
    hide SameSlots, SameCodes, SameHashes;
    var v0 := v.(codes := PutCodes(v.codes, p.cs.contracts));
    CodesSame(base, v, f, p.cs.contracts);
    SlotsOnly(base, v, v0, f.storage);
    StorageSame(base, v0, f.storage, p.cs.storage);
    var v1 := PushStorage(v0, p.cs.storage);
    DestroySame(base, v1, FlatStorage(f.storage, p.cs.storage), p.cs.accounts);
    AccountsPushed(v1, p.cs.accounts, 0);
    var w, g := Pushed(v, p), Apply(f, p);
    SlotsOnly(base, PushAccounts(v1, p.cs.accounts), w, g.storage);
    CodesOnly(base, v0, w, f.(codes := PutCodes(f.codes, p.cs.contracts)), g);
    HashesSame(base, v, f, w, g, p);
  }

  lemma AccountAfter(base: Flat, v: View, f: Flat, p: Pending, a: nat)
    requires SameAccounts(base, v, f)
    ensures var same := Pushed(v, p).Account(base, a) == Apply(f, p).Account(a);
            same <==> (a in Touched(p.cs.storage) ==> a in f.accounts || a in Infos(p.cs.accounts))
  {
    var v0 := v.(codes := PutCodes(v.codes, p.cs.contracts));
    var v1 := PushStorage(v0, p.cs.storage);
    StorageKeeps(v0, p.cs.storage);
    AccountsPushed(v1, p.cs.accounts, a);
    assert v.Account(base, a) == f.Account(a);
  }

  lemma {:induction false} StorageKeeps(v: View, cs: seq<StorageChange>)
    ensures PushStorage(v, cs).accounts == v.accounts
  {
    if cs != [] {
      StorageKeeps(v, cs[..|cs| - 1]);
    }
  }

  /** One push keeps every read equal exactly when the changeset covers the accounts it writes
      storage of. */
  lemma PushExact(base: Flat, v: View, f: Flat, p: Pending)
    requires Refines(base, v, f) && WellFormed(p.cs)
    ensures Refines(base, Pushed(v, p), Apply(f, p)) <==> Covered(f, p.cs)
  {
    hide SameSlots, SameCodes, SameHashes, Pushed, Apply, WellFormed;
    PushAgrees(base, v, f, p);
    forall a ensures Pushed(v, p).Account(base, a) == Apply(f, p).Account(a)
                     <==> (a in Touched(p.cs.storage) ==> a in f.accounts || a in Infos(p.cs.accounts)) {
      AccountAfter(base, v, f, p, a);
    }
  }

  lemma NothingRefines(base: Flat)
    ensures Refines(base, NOTHING, base)
  {
  }

  ghost predicate RefinesAt(base: Flat, ps: seq<Pending>, k: nat)
    requires k <= |ps|
  {
    Refines(base, PushedAll(NOTHING, ps[..k]), ApplyAll(base, ps[..k]))
  }

  ghost predicate CoveredAt(base: Flat, ps: seq<Pending>, k: nat)
    requires k < |ps|
  {
    Covered(ApplyAll(base, ps[..k]), ps[k].cs)
  }

  lemma StepExact(base: Flat, ps: seq<Pending>, k: nat)
    requires k < |ps| && WellFormed(ps[k].cs) && RefinesAt(base, ps, k)
    ensures RefinesAt(base, ps, k + 1) <==> CoveredAt(base, ps, k)
  {
    assert ps[..k + 1][..k] == ps[..k];
    PushExact(base, PushedAll(NOTHING, ps[..k]), ApplyAll(base, ps[..k]), ps[k]);
  }

  lemma {:induction false} CoveredRefines(base: Flat, ps: seq<Pending>, k: nat)
    requires k <= |ps| && forall i :: 0 <= i < |ps| ==> WellFormed(ps[i].cs) && CoveredAt(base, ps, i)
    ensures RefinesAt(base, ps, k)
  {
    if k == 0 {
      NothingRefines(base);
    } else {
      CoveredRefines(base, ps, k - 1);
      StepExact(base, ps, k - 1);
    }
  }

  /** After any pending blocks, every account, code, storage and block-hash read through the overlay
      equals the read after applying them in order, exactly when each changeset writes storage only
      of accounts it lists or that exist by then. */
  lemma OverlayExact(base: Flat, ps: seq<Pending>)
    requires forall i :: 0 <= i < |ps| ==> WellFormed(ps[i].cs)
    ensures (forall k :: 0 <= k <= |ps| ==> RefinesAt(base, ps, k)) <==> (forall k :: 0 <= k < |ps| ==> CoveredAt(base, ps, k))
  {
    hide RefinesAt, CoveredAt, WellFormed;
    if forall k :: 0 <= k < |ps| ==> CoveredAt(base, ps, k) {
      forall k | 0 <= k <= |ps| ensures RefinesAt(base, ps, k) {
        CoveredRefines(base, ps, k);
      }
    }
    if forall k :: 0 <= k <= |ps| ==> RefinesAt(base, ps, k) {
      forall k | 0 <= k < |ps| ensures CoveredAt(base, ps, k) {
        assert RefinesAt(base, ps, k + 1);
        StepExact(base, ps, k);
      }
    }
  }

  lemma AgreesOnly(base: Flat)
    ensures Agrees(base, NOTHING, base)
  {
  }

  /** Storage, code and block-hash reads agree whatever the accounts do: wipes, destruction and
      re-creation included. */
  lemma {:induction false} OverlayAgrees(base: Flat, ps: seq<Pending>)
    requires forall i :: 0 <= i < |ps| ==> WellFormed(ps[i].cs)
    ensures Agrees(base, PushedAll(NOTHING, ps), ApplyAll(base, ps))
  {
    hide Agrees, WellFormed, Pushed, Apply;
    if ps == [] {
      AgreesOnly(base);
    } else {
      var less := ps[..|ps| - 1];
      OverlayAgrees(base, less);
      PushAgrees(base, PushedAll(NOTHING, less), ApplyAll(base, less), ps[|ps| - 1]);
    }
  }

  /** A changeset that writes a slot of an account nobody created: the flat tables then hold an empty
      account there, the overlay none. */
  lemma UncoveredAccount(a: nat)
    ensures var base := Flat(map[], map[], map[], map[]);
            var cs := Changeset([], [StorageChange(a, false, [SlotChange(1, 1)])], []);
            var p := Pending(1, 1, cs);
            && WellFormed(cs)
            && Pushed(NOTHING, p).Account(base, a) == None
            && Apply(base, p).Account(a) == Some(DEFAULT_ACCOUNT)
  {
    var base := Flat(map[], map[], map[], map[]);
    var c := StorageChange(a, false, [SlotChange(1, 1)]);
    var p := Pending(1, 1, Changeset([], [c], []));
    assert c in p.cs.storage;
    assert a in Touched(p.cs.storage);
    StorageKeeps(NOTHING, p.cs.storage);
  }
}
