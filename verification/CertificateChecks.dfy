/** Panel certificates of a block (crates/chain/src/lib.rs, `check_audits`): a producer drops the
    invalid ones, a verifier refuses a block that carries one.

    Reads of the parent state are functions of `World`; `None` is a query that fails. Decoding is a
    function too: the three encodings have different field names, so bytes decode as at most one. */
module CertificateChecks {
  import opened Options
  import opened Panels

  type Bytes = seq<bv8>

  datatype Request = Request(state: nat, epoch: nat)

  datatype Audits = Audits(panel: seq<nat>, states: seq<nat>)

  datatype World = World(
    chain: nat,
    teeOn: bool,
    verdictsOn: bool,
    requestCount: Option<nat>,
    request: nat -> Option<Request>,
    attestPanel: nat -> Option<seq<nat>>,
    dispute: nat -> Option<nat>,
    jobState: nat -> Option<nat>,
    verdictPanel: nat -> Option<seq<nat>>,
    epoch: nat,
    audits: Option<Audits>,
    decode: Bytes -> Option<PanelCert>)

  const WAITING: nat := 1
  const DISPUTED: nat := 4
  const PENDING: nat := 0

  datatype Error = InvalidCert | QueryFailed

  datatype Result<T> = Ok(value: T) | Err(e: Error)

  datatype Attested = Attested(request: nat, ok: bool, machine: seq<bv8>)

  datatype Decided = Decided(job: nat, fault: bool)

  datatype Audited = Audited(epoch: nat, task: nat, passed: bool)

  // ---- first pass: attestations and verdicts

  datatype Acc = Acc(verdicts: seq<Decided>, attests: seq<Attested>, kept: seq<Bytes>, rest: seq<Bytes>)

  datatype Judged = KeepAttest(a: Attested) | KeepVerdict(v: Decided) | Drop | Defer | Fault

  predicate HasRequest(attests: seq<Attested>, r: nat) {
    exists i :: 0 <= i < |attests| && attests[i].request == r
  }

  predicate HasJob(verdicts: seq<Decided>, j: nat) {
    exists i :: 0 <= i < |verdicts| && verdicts[i].job == j
  }

  predicate HasTask(results: seq<Audited>, t: nat) {
    exists i :: 0 <= i < |results| && results[i].task == t
  }

  function JudgeAttest(w: World, attests: seq<Attested>, c: PanelCert): Judged
    requires c.claim.Attest?
  {
    var id := c.claim.request;
    if !w.teeOn || HasRequest(attests, id) then Drop
    else if w.requestCount.None? then Fault
    else if id == 0 || id > w.requestCount.value then Drop
    else
      match w.request(id)
      case None => Fault
      case Some(r) =>
        if !(r.state == WAITING && r.epoch == c.claim.epoch && r.epoch != 0) then Drop
        else
          match w.attestPanel(c.claim.epoch)
          case None => Fault
          case Some(panel) =>
            if c.Verify(w.chain, panel) then KeepAttest(Attested(id, c.claim.ok, c.claim.machine)) else Drop
  }

  function JudgeVerdict(w: World, verdicts: seq<Decided>, c: PanelCert): Judged
    requires c.claim.Verdict?
  {
    var id := c.claim.job;
    if !w.verdictsOn || HasJob(verdicts, id) then Drop
    else
      match w.dispute(id)
      case None => Fault
      case Some(e) =>
        if !(e == c.claim.epoch && e != 0 && w.jobState(id) == Some(DISPUTED)) then Drop
        else
          match w.verdictPanel(c.claim.epoch)
          case None => Fault
          case Some(panel) => if c.Verify(w.chain, panel) then KeepVerdict(Decided(id, c.claim.fault)) else Drop
  }

  function Judge(w: World, acc: Acc, b: Bytes): Judged {
    match w.decode(b)
    case None => Defer
    case Some(c) =>
      match c.claim
      case Attest(_, _, _, _) => JudgeAttest(w, acc.attests, c)
      case Verdict(_, _, _) => JudgeVerdict(w, acc.verdicts, c)
      case Audit(_, _, _) => Defer
  }

  function Place(w: World, strict: bool, acc: Acc, b: Bytes): Result<Acc> {
    match Judge(w, acc, b)
    case KeepAttest(a) => Ok(acc.(attests := acc.attests + [a], kept := acc.kept + [b]))
    case KeepVerdict(v) => Ok(acc.(verdicts := acc.verdicts + [v], kept := acc.kept + [b]))
    case Drop => if strict then Err(InvalidCert) else Ok(acc)
    case Defer => Ok(acc.(rest := acc.rest + [b]))
    case Fault => Err(QueryFailed)
  }

  function Sift(w: World, strict: bool, certs: seq<Bytes>): Result<Acc> {
    if certs == [] then Ok(Acc([], [], [], []))
    else
      match Sift(w, strict, certs[..|certs| - 1])
      case Err(e) => Err(e)
      case Ok(acc) => Place(w, strict, acc, certs[|certs| - 1])
  }

  // ---- second pass: storage audits

  datatype Tallied = Tallied(results: seq<Audited>, kept: seq<Bytes>)

  predicate AuditOk(w: World, a: Audits, results: seq<Audited>, c: PanelCert) {
    && c.claim.Audit?
    && c.claim.epoch == w.epoch
    && c.claim.task < |a.states|
    && a.states[c.claim.task] == PENDING
    && !HasTask(results, c.claim.task)
    && c.Verify(w.chain, a.panel)
  }

  function Count(w: World, strict: bool, a: Audits, t: Tallied, b: Bytes): Result<Tallied> {
    var d := w.decode(b);
    if d.Some? && AuditOk(w, a, t.results, d.value) then
      var c := d.value.claim;
      Ok(Tallied(t.results + [Audited(c.epoch, c.task, c.passed)], t.kept + [b]))
    else if strict then Err(InvalidCert)
    else Ok(t)
  }

  function Tally(w: World, strict: bool, a: Audits, certs: seq<Bytes>): Result<Tallied> {
    if certs == [] then Ok(Tallied([], []))
    else
      match Tally(w, strict, a, certs[..|certs| - 1])
      case Err(e) => Err(e)
      case Ok(t) => Count(w, strict, a, t, certs[|certs| - 1])
  }

  // ---- the check

  datatype Output = Output(results: seq<Audited>, verdicts: seq<Decided>, attests: seq<Attested>, kept: seq<Bytes>)

  function Check(w: World, strict: bool, certs: seq<Bytes>): Result<Output> {
    match Sift(w, strict, certs)
    case Err(e) => Err(e)
    case Ok(acc) =>
      if acc.rest == [] then Ok(Output([], acc.verdicts, acc.attests, acc.kept))
      else
        match w.audits
        case None => Err(QueryFailed)
        case Some(a) =>
          match Tally(w, strict, a, acc.rest)
          case Err(e) => Err(e)
          case Ok(t) => Ok(Output(t.results, acc.verdicts, acc.attests, acc.kept + t.kept))
  }

  // ---- the loops

  lemma {:induction false} SiftErrStays(w: World, strict: bool, certs: seq<Bytes>, k: nat)
    requires k <= |certs| && Sift(w, strict, certs[..k]).Err?
    ensures Sift(w, strict, certs) == Sift(w, strict, certs[..k])
    decreases |certs| - k
  {
    if k == |certs| {
      assert certs[..k] == certs;
    } else {
      assert certs[..k + 1][..k] == certs[..k];
      SiftErrStays(w, strict, certs, k + 1);
    }
  }

  lemma {:induction false} TallyErrStays(w: World, strict: bool, a: Audits, certs: seq<Bytes>, k: nat)
    requires k <= |certs| && Tally(w, strict, a, certs[..k]).Err?
    ensures Tally(w, strict, a, certs) == Tally(w, strict, a, certs[..k])
    decreases |certs| - k
  {
    if k == |certs| {
      assert certs[..k] == certs;
    } else {
      assert certs[..k + 1][..k] == certs[..k];
      TallyErrStays(w, strict, a, certs, k + 1);
    }
  }

  /** Panels already looked up. */
  ghost predicate CacheOk(cache: map<nat, seq<nat>>, query: nat -> Option<seq<nat>>) {
    forall e :: e in cache ==> query(e) == Some(cache[e])
  }

  /** One panel lookup through the cache. */
  method Lookup(cache: map<nat, seq<nat>>, query: nat -> Option<seq<nat>>, e: nat)
    returns (found: Option<seq<nat>>, out: map<nat, seq<nat>>)
    requires CacheOk(cache, query)
    ensures found == query(e) && CacheOk(out, query)
  {
    out := cache;
    if e in cache {
      return Some(cache[e]), cache;
    }
    found := query(e);
    if found.Some? {
      out := cache[e := found.value];
    }
  }

  method CheckAttest(w: World, attests: seq<Attested>, c: PanelCert, cache: map<nat, seq<nat>>)
    returns (j: Judged, out: map<nat, seq<nat>>)
    requires c.claim.Attest? && CacheOk(cache, w.attestPanel)
    ensures j == JudgeAttest(w, attests, c) && CacheOk(out, w.attestPanel)
  {
    out := cache;
    var ok := w.teeOn && !HasRequest(attests, c.claim.request);
    if ok {
      if w.requestCount.None? {
        return Fault, cache;
      }
      ok := c.claim.request != 0 && c.claim.request <= w.requestCount.value;
    }
    if ok {
      var r := w.request(c.claim.request);
      if r.None? {
        return Fault, cache;
      }
      ok := r.value.state == WAITING && r.value.epoch == c.claim.epoch && r.value.epoch != 0;
    }
    if !ok {
      return Drop, cache;
    }
    var panel;
    panel, out := Lookup(cache, w.attestPanel, c.claim.epoch);
    if panel.None? {
      return Fault, out;
    }
    j := if c.Verify(w.chain, panel.value) then KeepAttest(Attested(c.claim.request, c.claim.ok, c.claim.machine)) else Drop;
  }

  method CheckVerdict(w: World, verdicts: seq<Decided>, c: PanelCert, cache: map<nat, seq<nat>>)
    returns (j: Judged, out: map<nat, seq<nat>>)
    requires c.claim.Verdict? && CacheOk(cache, w.verdictPanel)
    ensures j == JudgeVerdict(w, verdicts, c) && CacheOk(out, w.verdictPanel)
  {
    out := cache;
    if !w.verdictsOn || HasJob(verdicts, c.claim.job) {
      return Drop, cache;
    }
    var e := w.dispute(c.claim.job);
    if e.None? {
      return Fault, cache;
    }
    if e.value != c.claim.epoch || e.value == 0 || w.jobState(c.claim.job) != Some(DISPUTED) {
      return Drop, cache;
    }
    var panel;
    panel, out := Lookup(cache, w.verdictPanel, c.claim.epoch);
    if panel.None? {
      return Fault, out;
    }
    j := if c.Verify(w.chain, panel.value) then KeepVerdict(Decided(c.claim.job, c.claim.fault)) else Drop;
  }

  method SiftLoop(w: World, strict: bool, certs: seq<Bytes>) returns (r: Result<Acc>)
    ensures r == Sift(w, strict, certs)
  {
    hide JudgeAttest, JudgeVerdict;
    var acc := Acc([], [], [], []);
    var panels: map<nat, seq<nat>>, attestPanels: map<nat, seq<nat>> := map[], map[];
    for k := 0 to |certs|
      invariant Sift(w, strict, certs[..k]) == Ok(acc)
      invariant CacheOk(panels, w.verdictPanel) && CacheOk(attestPanels, w.attestPanel)
    {
      var b := certs[k];
      assert certs[..k + 1][..k] == certs[..k];
      var j := Defer;
      match w.decode(b) {
        case None =>
        case Some(c) =>
          if c.claim.Attest? {
            j, attestPanels := CheckAttest(w, acc.attests, c, attestPanels);
          } else if c.claim.Verdict? {
            j, panels := CheckVerdict(w, acc.verdicts, c, panels);
          }
      }
      match j {
        case KeepAttest(a) => acc := acc.(attests := acc.attests + [a], kept := acc.kept + [b]);
        case KeepVerdict(v) => acc := acc.(verdicts := acc.verdicts + [v], kept := acc.kept + [b]);
        case Drop =>
          if strict {
            SiftErrStays(w, strict, certs, k + 1);
            return Err(InvalidCert);
          }
        case Defer => acc := acc.(rest := acc.rest + [b]);
        case Fault =>
          SiftErrStays(w, strict, certs, k + 1);
          return Err(QueryFailed);
      }
    }
    assert certs[..|certs|] == certs;
    r := Ok(acc);
  }

  method CheckLoop(w: World, strict: bool, certs: seq<Bytes>) returns (r: Result<Output>)
    ensures r == Check(w, strict, certs)
  {
    var first := SiftLoop(w, strict, certs);
    if first.Err? {
      return Err(first.e);
    }
    var acc := first.value;
    if acc.rest == [] {
      return Ok(Output([], acc.verdicts, acc.attests, acc.kept));
    }
    if w.audits.None? {
      return Err(QueryFailed);
    }
    var a := w.audits.value;
    var results, kept := [], [];
    for k := 0 to |acc.rest|
      invariant Tally(w, strict, a, acc.rest[..k]) == Ok(Tallied(results, kept))
    {
      var b := acc.rest[k];
      assert acc.rest[..k + 1][..k] == acc.rest[..k];
      var d := w.decode(b);
      if d.Some? && AuditOk(w, a, results, d.value) {
        results := results + [Audited(d.value.claim.epoch, d.value.claim.task, d.value.claim.passed)];
        kept := kept + [b];
      } else if strict {
        TallyErrStays(w, strict, a, acc.rest, k + 1);
        return Err(InvalidCert);
      }
    }
    assert acc.rest[..|acc.rest|] == acc.rest;
    r := Ok(Output(results, acc.verdicts, acc.attests, acc.kept + kept));
  }

  // ---- producer and verifier agree

  predicate Defers(w: World, b: Bytes) {
    var d := w.decode(b);
    d.None? || d.value.claim.Audit?
  }

  lemma DeferOnly(w: World, acc: Acc, b: Bytes)
    ensures Judge(w, acc, b) == Defer <==> Defers(w, b)
  {
  }

  lemma {:induction false} SiftKept(w: World, certs: seq<Bytes>)
    ensures var s := Sift(w, false, certs);
            s.Ok? ==>
              && Sift(w, true, s.value.kept) == Ok(s.value.(rest := []))
              && forall i :: 0 <= i < |s.value.rest| ==> Defers(w, s.value.rest[i])
  {
    hide JudgeAttest, JudgeVerdict;
    if certs != [] {
      var rest, b := certs[..|certs| - 1], certs[|certs| - 1];
      SiftKept(w, rest);
      var s := Sift(w, false, rest);
      if s.Ok? {
        var acc := s.value;
        var kept := acc.kept + [b];
        assert kept[..|kept| - 1] == acc.kept;
        assert Judge(w, acc.(rest := []), b) == Judge(w, acc, b);
        DeferOnly(w, acc, b);
      }
    }
  }

  lemma PlaceDefers(w: World, strict: bool, acc: Acc, b: Bytes)
    requires Defers(w, b)
    ensures Place(w, strict, acc, b) == Ok(acc.(rest := acc.rest + [b]))
  {
  }

  lemma {:induction false} SiftDefers(w: World, certs: seq<Bytes>, more: seq<Bytes>)
    requires Sift(w, true, certs).Ok? && forall i :: 0 <= i < |more| ==> Defers(w, more[i])
    ensures var acc := Sift(w, true, certs).value; Sift(w, true, certs + more) == Ok(acc.(rest := acc.rest + more))
    decreases |more|
  {
    hide Place, Defers;
    var acc := Sift(w, true, certs).value;
    if more == [] {
      assert certs + more == certs && acc.rest + more == acc.rest;
    } else {
      var fewer, b := more[..|more| - 1], more[|more| - 1];
      SiftDefers(w, certs, fewer);
      var all := certs + more;
      assert all[..|all| - 1] == certs + fewer && all[|all| - 1] == b;
      PlaceDefers(w, true, acc.(rest := acc.rest + fewer), b);
      assert acc.rest + more == acc.rest + fewer + [b];
    }
  }

  lemma {:induction false} TallyKept(w: World, a: Audits, certs: seq<Bytes>)
    requires forall i :: 0 <= i < |certs| ==> Defers(w, certs[i])
    ensures var t := Tally(w, false, a, certs);
            && t.Ok?
            && Tally(w, true, a, t.value.kept) == t
            && (forall i :: 0 <= i < |t.value.kept| ==> Defers(w, t.value.kept[i]))
  {
    if certs != [] {
      var rest, b := certs[..|certs| - 1], certs[|certs| - 1];
      TallyKept(w, a, rest);
      var t := Tally(w, false, a, rest).value;
      var kept := t.kept + [b];
      assert kept[..|kept| - 1] == t.kept;
      assert Defers(w, b);
    }
  }

  /** The certificates a producer keeps pass the verifier on the same state, with the same results in
      the same order. */
  lemma ProducerVerifierAgree(w: World, certs: seq<Bytes>)
    ensures var p := Check(w, false, certs); p.Ok? ==> Check(w, true, p.value.kept) == p
  {
    var p := Check(w, false, certs);
    if p.Ok? {
      SiftKept(w, certs);
      var acc := Sift(w, false, certs).value;
      if acc.rest != [] {
        TallyKept(w, w.audits.value, acc.rest);
        var t := Tally(w, false, w.audits.value, acc.rest).value;
        SiftDefers(w, acc.kept, t.kept);
        assert [] + t.kept == t.kept;
        if t.kept == [] {
          assert acc.kept + t.kept == acc.kept;
          assert t.results == [] by { TallyCount(w, w.audits.value, acc.rest); }
        }
      }
    }
  }

  lemma {:induction false} TallyCount(w: World, a: Audits, certs: seq<Bytes>)
    ensures var t := Tally(w, false, a, certs); t.Ok? && |t.value.results| == |t.value.kept|
  {
    if certs != [] {
      TallyCount(w, a, certs[..|certs| - 1]);
    }
  }

  // ---- a verifier accepts only what a producer would have kept

  lemma {:induction false} SiftStrict(w: World, certs: seq<Bytes>)
    ensures var s := Sift(w, true, certs);
            s.Ok? ==> Sift(w, false, certs) == s && multiset(certs) == multiset(s.value.kept) + multiset(s.value.rest)
  {
    hide JudgeAttest, JudgeVerdict;
    if certs != [] {
      var rest, b := certs[..|certs| - 1], certs[|certs| - 1];
      SiftStrict(w, rest);
      assert certs == rest + [b];
    }
  }

  lemma {:induction false} TallyStrict(w: World, a: Audits, certs: seq<Bytes>)
    ensures var t := Tally(w, true, a, certs); t.Ok? ==> Tally(w, false, a, certs) == t && t.value.kept == certs
  {
    if certs != [] {
      var rest, b := certs[..|certs| - 1], certs[|certs| - 1];
      TallyStrict(w, a, rest);
      assert certs == rest + [b];
    }
  }

  /** A verifier that accepts a list keeps all of it, and a producer given the list does the same. */
  lemma StrictIsProducer(w: World, certs: seq<Bytes>)
    ensures var s := Check(w, true, certs);
            s.Ok? ==> Check(w, false, certs) == s && multiset(s.value.kept) == multiset(certs)
  {
    SiftStrict(w, certs);
    var s := Sift(w, true, certs);
    if s.Ok? && s.value.rest != [] && w.audits.Some? {
      TallyStrict(w, w.audits.value, s.value.rest);
    }
  }

  // ---- one result per subject, each certified

  predicate OneEach(o: Output) {
    && (forall i, j :: 0 <= i < j < |o.attests| ==> o.attests[i].request != o.attests[j].request)
    && (forall i, j :: 0 <= i < j < |o.verdicts| ==> o.verdicts[i].job != o.verdicts[j].job)
    && (forall i, j :: 0 <= i < j < |o.results| ==> o.results[i].task != o.results[j].task)
  }

  /** Some kept certificate states the claim and passed its panel. */
  ghost predicate Certified(w: World, kept: seq<Bytes>, claim: Claim, panel: Option<seq<nat>>) {
    && panel.Some?
    && exists i :: 0 <= i < |kept| && Carries(w, kept[i], claim, panel.value)
  }

  predicate Carries(w: World, b: Bytes, claim: Claim, panel: seq<nat>) {
    var d := w.decode(b);
    d.Some? && d.value.claim == claim && d.value.Verify(w.chain, panel)
  }

  ghost predicate SiftedOk(w: World, acc: Acc) {
    && (forall i, j :: 0 <= i < j < |acc.attests| ==> acc.attests[i].request != acc.attests[j].request)
    && (forall i, j :: 0 <= i < j < |acc.verdicts| ==> acc.verdicts[i].job != acc.verdicts[j].job)
    && (forall i :: 0 <= i < |acc.attests| ==> AttestCertified(w, acc.kept, acc.attests[i]))
    && (forall i :: 0 <= i < |acc.verdicts| ==> VerdictCertified(w, acc.kept, acc.verdicts[i]))
  }

  /** The request waits for the panel of its epoch, and that panel certified the result. */
  ghost predicate AttestCertified(w: World, kept: seq<Bytes>, a: Attested) {
    var r := w.request(a.request);
    && r.Some?
    && r.value.state == WAITING
    && Certified(w, kept, Attest(r.value.epoch, a.request, a.ok, a.machine), w.attestPanel(r.value.epoch))
  }

  /** The job is disputed before the panel of its epoch, and that panel certified the verdict. */
  ghost predicate VerdictCertified(w: World, kept: seq<Bytes>, v: Decided) {
    var e := w.dispute(v.job);
    && e.Some?
    && w.jobState(v.job) == Some(DISPUTED)
    && Certified(w, kept, Verdict(e.value, v.job, v.fault), w.verdictPanel(e.value))
  }

  ghost predicate AuditCertified(w: World, a: Audits, kept: seq<Bytes>, r: Audited) {
    && r.epoch == w.epoch
    && r.task < |a.states|
    && a.states[r.task] == PENDING
    && Certified(w, kept, Audit(r.epoch, r.task, r.passed), Some(a.panel))
  }

  lemma CertifiedGrows(w: World, kept: seq<Bytes>, more: seq<Bytes>, claim: Claim, panel: Option<seq<nat>>)
    requires Certified(w, kept, claim, panel)
    ensures Certified(w, kept + more, claim, panel) && Certified(w, more + kept, claim, panel)
  {
    var i :| 0 <= i < |kept| && Carries(w, kept[i], claim, panel.value);
    assert Carries(w, (kept + more)[i], claim, panel.value);
    assert Carries(w, (more + kept)[|more| + i], claim, panel.value);
  }

  lemma SiftedGrows(w: World, acc: Acc, more: seq<Bytes>)
    requires SiftedOk(w, acc)
    ensures SiftedOk(w, acc.(kept := acc.kept + more))
  {
    forall i | 0 <= i < |acc.attests| ensures AttestCertified(w, acc.kept + more, acc.attests[i]) {
      var a := acc.attests[i];
      assert AttestCertified(w, acc.kept, a);
      var e := w.request(a.request).value.epoch;
      CertifiedGrows(w, acc.kept, more, Attest(e, a.request, a.ok, a.machine), w.attestPanel(e));
    }
    forall i | 0 <= i < |acc.verdicts| ensures VerdictCertified(w, acc.kept + more, acc.verdicts[i]) {
      var v := acc.verdicts[i];
      assert VerdictCertified(w, acc.kept, v);
      var e := w.dispute(v.job).value;
      CertifiedGrows(w, acc.kept, more, Verdict(e, v.job, v.fault), w.verdictPanel(e));
    }
  }

  lemma LastCarried(w: World, kept: seq<Bytes>, b: Bytes, claim: Claim, panel: seq<nat>)
    requires Carries(w, b, claim, panel)
    ensures Certified(w, kept + [b], claim, Some(panel))
  {
    assert Carries(w, (kept + [b])[|kept|], claim, panel);
  }

  lemma PlaceOk(w: World, strict: bool, acc: Acc, b: Bytes)
    requires SiftedOk(w, acc) && Place(w, strict, acc, b).Ok?
    ensures SiftedOk(w, Place(w, strict, acc, b).value)
  {
    hide Certified, Carries;
    SiftedGrows(w, acc, [b]);
    var j := Judge(w, acc, b);
    if j.KeepAttest? || j.KeepVerdict? {
      var c := w.decode(b).value;
      CarriesOwn(w, b);
      if j.KeepAttest? {
        LastCarried(w, acc.kept, b, c.claim, w.attestPanel(c.claim.epoch).value);
      } else {
        LastCarried(w, acc.kept, b, c.claim, w.verdictPanel(c.claim.epoch).value);
      }
    }
  }

  lemma CarriesOwn(w: World, b: Bytes)
    requires w.decode(b).Some?
    ensures forall panel :: w.decode(b).value.Verify(w.chain, panel) ==> Carries(w, b, w.decode(b).value.claim, panel)
  {
  }

  lemma {:induction false} SiftOk(w: World, strict: bool, certs: seq<Bytes>)
    ensures Sift(w, strict, certs).Ok? ==> SiftedOk(w, Sift(w, strict, certs).value)
  {
    hide SiftedOk, Place;
    if certs == [] {
      EmptyOk(w);
    } else {
      var s := Sift(w, strict, certs[..|certs| - 1]);
      SiftOk(w, strict, certs[..|certs| - 1]);
      if s.Ok? && Place(w, strict, s.value, certs[|certs| - 1]).Ok? {
        PlaceOk(w, strict, s.value, certs[|certs| - 1]);
      }
    }
  }

  lemma EmptyOk(w: World)
    ensures SiftedOk(w, Acc([], [], [], []))
  {
  }

  ghost predicate TalliedOk(w: World, a: Audits, t: Tallied) {
    && (forall i, j :: 0 <= i < j < |t.results| ==> t.results[i].task != t.results[j].task)
    && (forall i :: 0 <= i < |t.results| ==> AuditCertified(w, a, t.kept, t.results[i]))
  }

  lemma {:induction false} TallyOk(w: World, strict: bool, a: Audits, certs: seq<Bytes>)
    ensures Tally(w, strict, a, certs).Ok? ==> TalliedOk(w, a, Tally(w, strict, a, certs).value)
  {
    hide Certified, Carries;
    if certs != [] {
      var b := certs[|certs| - 1];
      TallyOk(w, strict, a, certs[..|certs| - 1]);
      var s := Tally(w, strict, a, certs[..|certs| - 1]);
      if s.Ok? && w.decode(b).Some? && AuditOk(w, a, s.value.results, w.decode(b).value) {
        var t := s.value;
        CarriesOwn(w, b);
        LastCarried(w, t.kept, b, w.decode(b).value.claim, a.panel);
        forall i | 0 <= i < |t.results| ensures AuditCertified(w, a, t.kept + [b], t.results[i]) {
          var r := t.results[i];
          CertifiedGrows(w, t.kept, [b], Audit(r.epoch, r.task, r.passed), Some(a.panel));
        }
      }
    }
  }

  /** Whoever runs the check, it gives at most one result per task, job and request, and each result
      is what the right panel certified about something still open. */
  lemma ResultsCertified(w: World, strict: bool, certs: seq<Bytes>)
    ensures var c := Check(w, strict, certs);
            c.Ok? ==>
              && OneEach(c.value)
              && (forall i :: 0 <= i < |c.value.attests| ==> AttestCertified(w, c.value.kept, c.value.attests[i]))
              && (forall i :: 0 <= i < |c.value.verdicts| ==> VerdictCertified(w, c.value.kept, c.value.verdicts[i]))
              && (forall i :: 0 <= i < |c.value.results| ==>
                    w.audits.Some? && AuditCertified(w, w.audits.value, c.value.kept, c.value.results[i]))
  {
    hide Certified;
    SiftOk(w, strict, certs);
    var c := Check(w, strict, certs);
    if c.Ok? {
      var acc := Sift(w, strict, certs).value;
      if acc.rest != [] {
        var a := w.audits.value;
        TallyOk(w, strict, a, acc.rest);
        var t := Tally(w, strict, a, acc.rest).value;
        SiftedGrows(w, acc, t.kept);
        forall i | 0 <= i < |t.results| ensures AuditCertified(w, a, acc.kept + t.kept, t.results[i]) {
          var r := t.results[i];
          CertifiedGrows(w, t.kept, acc.kept, Audit(r.epoch, r.task, r.passed), Some(a.panel));
        }
      }
    }
  }
}
