/** Which panel certificates of a list take effect: exactly the first good one for each request, job and task.
    A certificate is good by the parent state and its panel alone, whatever else the list holds. */
module CertificateCompleteness {
  import opened Options
  import opened Panels
  import opened CertificateChecks

  // ---- good certificates

  /** The request waits for the panel of the certificate's epoch, which signed it. */
  predicate GoodAttest(w: World, c: PanelCert) {
    && c.claim.Attest? && w.teeOn
    && w.requestCount.Some? && 0 < c.claim.request <= w.requestCount.value
    && w.request(c.claim.request) == Some(Request(WAITING, c.claim.epoch)) && c.claim.epoch != 0
    && w.attestPanel(c.claim.epoch).Some? && c.Verify(w.chain, w.attestPanel(c.claim.epoch).value)
  }

  /** The job is disputed before the panel of the certificate's epoch, which signed it. */
  predicate GoodVerdict(w: World, c: PanelCert) {
    && c.claim.Verdict? && w.verdictsOn
    && w.dispute(c.claim.job) == Some(c.claim.epoch) && c.claim.epoch != 0
    && w.jobState(c.claim.job) == Some(DISPUTED)
    && w.verdictPanel(c.claim.epoch).Some? && c.Verify(w.chain, w.verdictPanel(c.claim.epoch).value)
  }

  /** The audit task of this epoch is pending, and the audit panel signed the certificate. */
  predicate GoodAudit(w: World, c: PanelCert) {
    && c.claim.Audit? && w.audits.Some?
    && c.claim.epoch == w.epoch
    && c.claim.task < |w.audits.value.states| && w.audits.value.states[c.claim.task] == PENDING
    && c.Verify(w.chain, w.audits.value.panel)
  }

  // ---- the first good certificate for a subject

  /** What the certificate says about the request, if it is good. */
  function AttestOf(w: World, b: Bytes, request: nat): Option<Attested> {
    match w.decode(b)
    case Some(c) =>
      if GoodAttest(w, c) && c.claim.request == request then Some(Attested(request, c.claim.ok, c.claim.machine)) else None
    case None => None
  }

  function VerdictOf(w: World, b: Bytes, job: nat): Option<Decided> {
    match w.decode(b)
    case Some(c) => if GoodVerdict(w, c) && c.claim.job == job then Some(Decided(job, c.claim.fault)) else None
    case None => None
  }

  function AuditOf(w: World, b: Bytes, task: nat): Option<Audited> {
    match w.decode(b)
    case Some(c) => if GoodAudit(w, c) && c.claim.task == task then Some(Audited(w.epoch, task, c.claim.passed)) else None
    case None => None
  }

  /** The first of the answers that is one. */
  function First<T>(of: Bytes -> Option<T>, certs: seq<Bytes>): Option<T> {
    if certs == [] then None
    else
      match First(of, certs[..|certs| - 1])
      case Some(x) => Some(x)
      case None => of(certs[|certs| - 1])
  }

  function FirstAttest(w: World, certs: seq<Bytes>, request: nat): Option<Attested> {
    First(b => AttestOf(w, b, request), certs)
  }

  function FirstVerdict(w: World, certs: seq<Bytes>, job: nat): Option<Decided> {
    First(b => VerdictOf(w, b, job), certs)
  }

  function FirstAudit(w: World, certs: seq<Bytes>, task: nat): Option<Audited> {
    First(b => AuditOf(w, b, task), certs)
  }

  ghost predicate FirstAt<T(!new)>(of: Bytes -> Option<T>, certs: seq<Bytes>, i: nat, x: T) {
    i < |certs| && of(certs[i]) == Some(x) && forall j :: 0 <= j < i ==> of(certs[j]).None?
  }

  lemma {:induction false} FirstFound<T(!new)>(of: Bytes -> Option<T>, certs: seq<Bytes>) returns (i: nat)
    ensures First(of, certs).Some? ==> FirstAt(of, certs, i, First(of, certs).value)
    ensures First(of, certs).None? ==> forall j :: 0 <= j < |certs| ==> of(certs[j]).None?
  {
    i := 0;
    if certs != [] {
      var n := |certs| - 1;
      var less := certs[..n];
      i := FirstFound(of, less);
      assert forall j :: 0 <= j < n ==> less[j] == certs[j];
      if First(of, less).None? {
        i := n;
      }
    }
  }

  /** That is what `First` means. */
  lemma FirstExactly<T(!new)>(of: Bytes -> Option<T>, certs: seq<Bytes>, x: T)
    ensures First(of, certs) == Some(x) <==> exists i :: FirstAt(of, certs, i, x)
  {
    var k := FirstFound(of, certs);
    if i :| FirstAt(of, certs, i, x) {
      assert First(of, certs).Some?;
      assert k == i;
    }
  }

  // ---- the first pass

  /** The verdicts and attestations so far are those of the first good certificates. */
  ghost predicate SiftsFirst(w: World, certs: seq<Bytes>, acc: Acc) {
    && (forall v :: v in acc.verdicts <==> FirstVerdict(w, certs, v.job) == Some(v))
    && (forall a :: a in acc.attests <==> FirstAttest(w, certs, a.request) == Some(a))
  }

  lemma JobListed(w: World, certs: seq<Bytes>, acc: Acc, job: nat)
    requires SiftsFirst(w, certs, acc)
    ensures HasJob(acc.verdicts, job) <==> FirstVerdict(w, certs, job).Some?
  {
    VerdictNamed(w, certs, job);
    if FirstVerdict(w, certs, job).Some? {
      assert FirstVerdict(w, certs, job).value in acc.verdicts;
    }
  }

  lemma {:induction false} VerdictNamed(w: World, certs: seq<Bytes>, job: nat)
    ensures FirstVerdict(w, certs, job).Some? ==> FirstVerdict(w, certs, job).value.job == job
  {
    hide GoodVerdict;
    if certs != [] {
      VerdictNamed(w, certs[..|certs| - 1], job);
    }
  }

  lemma RequestListed(w: World, certs: seq<Bytes>, acc: Acc, request: nat)
    requires SiftsFirst(w, certs, acc)
    ensures HasRequest(acc.attests, request) <==> FirstAttest(w, certs, request).Some?
  {
    AttestNamed(w, certs, request);
    if FirstAttest(w, certs, request).Some? {
      assert FirstAttest(w, certs, request).value in acc.attests;
    }
  }

  lemma {:induction false} AttestNamed(w: World, certs: seq<Bytes>, request: nat)
    ensures FirstAttest(w, certs, request).Some? ==> FirstAttest(w, certs, request).value.request == request
  {
    hide GoodAttest;
    if certs != [] {
      AttestNamed(w, certs[..|certs| - 1], request);
    }
  }

  /** One more certificate. */
  lemma NextFirst<T>(of: Bytes -> Option<T>, certs: seq<Bytes>, b: Bytes)
    ensures First(of, certs + [b]) == if First(of, certs).Some? then First(of, certs) else of(b)
  {
    assert (certs + [b])[..|certs|] == certs;
  }

  /** The judgement of an attestation: kept exactly when it is good and the first for its request. */
  lemma AttestJudged(w: World, attests: seq<Attested>, c: PanelCert)
    requires c.claim.Attest?
    ensures var j := JudgeAttest(w, attests, c);
            && (j.KeepAttest? <==> GoodAttest(w, c) && !HasRequest(attests, c.claim.request))
            && (j.KeepAttest? ==> j.a == Attested(c.claim.request, c.claim.ok, c.claim.machine))
            && !j.KeepVerdict? && !j.Defer?
  {
  }

  lemma VerdictJudged(w: World, verdicts: seq<Decided>, c: PanelCert)
    requires c.claim.Verdict?
    ensures var j := JudgeVerdict(w, verdicts, c);
            && (j.KeepVerdict? <==> GoodVerdict(w, c) && !HasJob(verdicts, c.claim.job))
            && (j.KeepVerdict? ==> j.v == Decided(c.claim.job, c.claim.fault))
            && !j.KeepAttest? && !j.Defer?
  {
  }

  /** What judging adds: the answer of the certificate, unless its subject has one already. */
  ghost predicate Adds(w: World, acc: Acc, b: Bytes, j: Judged) {
    && (forall v :: j == KeepVerdict(v) <==> VerdictOf(w, b, v.job) == Some(v) && !HasJob(acc.verdicts, v.job))
    && (forall a :: j == KeepAttest(a) <==> AttestOf(w, b, a.request) == Some(a) && !HasRequest(acc.attests, a.request))
  }

  lemma JudgeAdds(w: World, acc: Acc, b: Bytes)
    ensures Adds(w, acc, b, Judge(w, acc, b))
  {
    hide JudgeAttest, JudgeVerdict, GoodAttest, GoodVerdict;
    match w.decode(b)
    case None =>
    case Some(c) =>
      if c.claim.Attest? {
        AttestJudged(w, acc.attests, c);
        NotVerdict(w, c);
      } else if c.claim.Verdict? {
        VerdictJudged(w, acc.verdicts, c);
        NotAttest(w, c);
      } else {
        NotVerdict(w, c);
        NotAttest(w, c);
      }
  }

  lemma NotVerdict(w: World, c: PanelCert)
    ensures !c.claim.Verdict? ==> !GoodVerdict(w, c)
  {
  }

  lemma NotAttest(w: World, c: PanelCert)
    ensures !c.claim.Attest? ==> !GoodAttest(w, c)
  {
  }

  lemma PlaceFirst(w: World, strict: bool, certs: seq<Bytes>, acc: Acc, b: Bytes)
    requires SiftsFirst(w, certs, acc) && Place(w, strict, acc, b).Ok?
    ensures SiftsFirst(w, certs + [b], Place(w, strict, acc, b).value)
  {
    JudgeAdds(w, acc, b);
    hide Judge, VerdictOf, AttestOf, First;
    var next := Place(w, strict, acc, b).value;
    var j := Judge(w, acc, b);
    forall v ensures v in next.verdicts <==> FirstVerdict(w, certs + [b], v.job) == Some(v) {
      NextFirst(x => VerdictOf(w, x, v.job), certs, b);
      JobListed(w, certs, acc, v.job);
      assert v in next.verdicts <==> v in acc.verdicts || j == KeepVerdict(v);
    }
    forall a ensures a in next.attests <==> FirstAttest(w, certs + [b], a.request) == Some(a) {
      NextFirst(x => AttestOf(w, x, a.request), certs, b);
      RequestListed(w, certs, acc, a.request);
      assert a in next.attests <==> a in acc.attests || j == KeepAttest(a);
    }
  }

  lemma {:induction false} SiftFirst(w: World, strict: bool, certs: seq<Bytes>)
    ensures Sift(w, strict, certs).Ok? ==> SiftsFirst(w, certs, Sift(w, strict, certs).value)
  {
    hide SiftsFirst, Place;
    if certs == [] {
      NothingFirst(w);
    } else {
      var less, b := certs[..|certs| - 1], certs[|certs| - 1];
      SiftFirst(w, strict, less);
      assert certs == less + [b];
      var s := Sift(w, strict, less);
      if s.Ok? && Place(w, strict, s.value, b).Ok? {
        PlaceFirst(w, strict, less, s.value, b);
      }
    }
  }

  lemma NothingFirst(w: World)
    ensures SiftsFirst(w, [], Acc([], [], [], []))
  {
  }

  // ---- the second pass

  /** The certificates left for the second pass, in order. */
  function Deferred(w: World, certs: seq<Bytes>): seq<Bytes> {
    if certs == [] then []
    else
      var b := certs[|certs| - 1];
      Deferred(w, certs[..|certs| - 1]) + if Defers(w, b) then [b] else []
  }

  lemma {:induction false} SiftDeferred(w: World, strict: bool, certs: seq<Bytes>)
    ensures Sift(w, strict, certs).Ok? ==> Sift(w, strict, certs).value.rest == Deferred(w, certs)
  {
    hide JudgeAttest, JudgeVerdict, Defers;
    if certs != [] {
      var less, b := certs[..|certs| - 1], certs[|certs| - 1];
      SiftDeferred(w, strict, less);
      var s := Sift(w, strict, less);
      if s.Ok? {
        DeferOnly(w, s.value, b);
      }
    }
  }

  lemma AuditsDefer(w: World, b: Bytes, task: nat)
    ensures AuditOf(w, b, task).Some? ==> Defers(w, b)
  {
  }

  lemma {:induction false} DeferredFirst(w: World, certs: seq<Bytes>, task: nat)
    ensures FirstAudit(w, Deferred(w, certs), task) == FirstAudit(w, certs, task)
  {
    hide Defers, AuditOf, First;
    if certs == [] {
    } else {
      var less, b := certs[..|certs| - 1], certs[|certs| - 1];
      assert certs == less + [b];
      DeferredFirst(w, less, task);
      NextFirst(x => AuditOf(w, x, task), less, b);
      NextFirst(x => AuditOf(w, x, task), Deferred(w, less), b);
      AuditsDefer(w, b, task);
      if !Defers(w, b) {
        assert Deferred(w, certs) == Deferred(w, less);
      }
    }
  }

  /** The results so far are those of the first good certificates. */
  ghost predicate TalliesFirst(w: World, certs: seq<Bytes>, t: Tallied) {
    forall r :: r in t.results <==> FirstAudit(w, certs, r.task) == Some(r)
  }

  lemma {:induction false} AuditNamed(w: World, certs: seq<Bytes>, task: nat)
    ensures FirstAudit(w, certs, task).Some? ==> FirstAudit(w, certs, task).value.task == task
  {
    hide GoodAudit;
    if certs != [] {
      AuditNamed(w, certs[..|certs| - 1], task);
    }
  }

  lemma TaskListed(w: World, certs: seq<Bytes>, t: Tallied, task: nat)
    requires TalliesFirst(w, certs, t)
    ensures HasTask(t.results, task) <==> FirstAudit(w, certs, task).Some?
  {
    AuditNamed(w, certs, task);
    if FirstAudit(w, certs, task).Some? {
      assert FirstAudit(w, certs, task).value in t.results;
    }
  }

  /** A certificate counts exactly when it is good and the first for its task. */
  lemma CountJudged(w: World, strict: bool, t: Tallied, b: Bytes)
    requires w.audits.Some?
    ensures var n := Count(w, strict, w.audits.value, t, b);
            && (strict ==> (n.Ok? <==> exists r: Audited :: AuditOf(w, b, r.task) == Some(r) && !HasTask(t.results, r.task)))
            && (n.Ok? ==> forall r :: r in n.value.results <==>
                  r in t.results || (AuditOf(w, b, r.task) == Some(r) && !HasTask(t.results, r.task)))
  {
    hide HasTask;
    var d := w.decode(b);
    if d.Some? && AuditOk(w, w.audits.value, t.results, d.value) {
      var r := Audited(w.epoch, d.value.claim.task, d.value.claim.passed);
      assert AuditOf(w, b, r.task) == Some(r);
    }
  }

  lemma CountFirst(w: World, strict: bool, certs: seq<Bytes>, t: Tallied, b: Bytes)
    requires w.audits.Some? && TalliesFirst(w, certs, t) && Count(w, strict, w.audits.value, t, b).Ok?
    ensures TalliesFirst(w, certs + [b], Count(w, strict, w.audits.value, t, b).value)
  {
    CountJudged(w, strict, t, b);
    hide Count, AuditOf, First, HasTask;
    var n := Count(w, strict, w.audits.value, t, b).value;
    forall r ensures r in n.results <==> FirstAudit(w, certs + [b], r.task) == Some(r) {
      NextFirst(x => AuditOf(w, x, r.task), certs, b);
      TaskListed(w, certs, t, r.task);
    }
  }

  lemma {:induction false} TallyFirst(w: World, strict: bool, certs: seq<Bytes>)
    requires w.audits.Some?
    ensures var t := Tally(w, strict, w.audits.value, certs); t.Ok? ==> TalliesFirst(w, certs, t.value)
  {
    hide TalliesFirst, Count;
    if certs == [] {
      NothingTallied(w);
    } else {
      var less, b := certs[..|certs| - 1], certs[|certs| - 1];
      TallyFirst(w, strict, less);
      assert certs == less + [b];
      var s := Tally(w, strict, w.audits.value, less);
      if s.Ok? && Count(w, strict, w.audits.value, s.value, b).Ok? {
        CountFirst(w, strict, less, s.value, b);
      }
    }
  }

  lemma NothingTallied(w: World)
    ensures TalliesFirst(w, [], Tallied([], []))
  {
  }

  // ---- the whole check

  /** Whoever runs the check, its results are exactly the answers of the first good certificate of the list for
      each job, request and task. */
  lemma ResultsComplete(w: World, strict: bool, certs: seq<Bytes>)
    ensures var c := Check(w, strict, certs);
            c.Ok? ==>
              && (forall v :: v in c.value.verdicts <==> FirstVerdict(w, certs, v.job) == Some(v))
              && (forall a :: a in c.value.attests <==> FirstAttest(w, certs, a.request) == Some(a))
              && (forall r :: r in c.value.results <==> FirstAudit(w, certs, r.task) == Some(r))
  {
    hide First, VerdictOf, AttestOf, AuditOf;
    SiftFirst(w, strict, certs);
    SiftDeferred(w, strict, certs);
    var c := Check(w, strict, certs);
    if c.Ok? {
      var acc := Sift(w, strict, certs).value;
      forall r ensures r in c.value.results <==> FirstAudit(w, certs, r.task) == Some(r) {
        DeferredFirst(w, certs, r.task);
        if acc.rest == [] {
          NoneFirst(w, r.task);
        } else {
          TallyFirst(w, strict, acc.rest);
        }
      }
    }
  }

  lemma NoneFirst(w: World, task: nat)
    ensures FirstAudit(w, [], task).None?
  {
  }

  /** No query of the parent state fails. */
  ghost predicate Answers(w: World) {
    && w.requestCount.Some? && w.audits.Some?
    && (forall id :: w.request(id).Some?) && (forall e :: w.attestPanel(e).Some?)
    && (forall id :: w.dispute(id).Some?) && (forall e :: w.verdictPanel(e).Some?)
  }

  lemma {:induction false} SiftAnswers(w: World, certs: seq<Bytes>)
    requires Answers(w)
    ensures Sift(w, false, certs).Ok?
  {
    if certs != [] {
      SiftAnswers(w, certs[..|certs| - 1]);
    }
  }

  /** A producer always gets a result if no query fails. */
  lemma ProducerSucceeds(w: World, certs: seq<Bytes>)
    requires Answers(w)
    ensures Check(w, false, certs).Ok?
  {
    SiftAnswers(w, certs);
    var acc := Sift(w, false, certs).value;
    TallyCount(w, w.audits.value, acc.rest);
  }

  /** Every machine that is attested is named by 32 bytes. */
  lemma MachinesNamed(w: World, strict: bool, certs: seq<Bytes>)
    ensures var c := Check(w, strict, certs);
            c.Ok? ==> forall a :: a in c.value.attests ==> |a.machine| == 32
  {
    hide Check, First;
    ResultsComplete(w, strict, certs);
    var c := Check(w, strict, certs);
    if c.Ok? {
      forall a | a in c.value.attests ensures |a.machine| == 32 {
        var i := FirstFound(b => AttestOf(w, b, a.request), certs);
        assert AttestOf(w, certs[i], a.request) == Some(a);
      }
    }
  }

  // ---- the verifier

  /** The certificate is good and the list before it holds no good one for its subject. */
  predicate Effective(w: World, before: seq<Bytes>, b: Bytes) {
    match w.decode(b)
    case None => false
    case Some(c) =>
      match c.claim
      case Attest(_, request, _, _) => GoodAttest(w, c) && FirstAttest(w, before, request).None?
      case Verdict(_, job, _) => GoodVerdict(w, c) && FirstVerdict(w, before, job).None?
      case Audit(_, task, _) => GoodAudit(w, c) && FirstAudit(w, before, task).None?
  }

  lemma StrictPlaces(w: World, certs: seq<Bytes>, acc: Acc, b: Bytes)
    requires SiftsFirst(w, certs, acc)
    ensures Place(w, true, acc, b).Ok? <==> Defers(w, b) || Effective(w, certs, b)
  {
    hide JudgeAttest, JudgeVerdict, GoodAttest, GoodVerdict, GoodAudit, First, SiftsFirst;
    match w.decode(b)
    case None =>
    case Some(c) =>
      if c.claim.Attest? {
        AttestJudged(w, acc.attests, c);
        RequestListed(w, certs, acc, c.claim.request);
      } else if c.claim.Verdict? {
        VerdictJudged(w, acc.verdicts, c);
        JobListed(w, certs, acc, c.claim.job);
      }
  }

  lemma StrictCounts(w: World, certs: seq<Bytes>, t: Tallied, b: Bytes)
    requires w.audits.Some? && TalliesFirst(w, certs, t) && Defers(w, b)
    ensures Count(w, true, w.audits.value, t, b).Ok? <==> Effective(w, certs, b)
  {
    CountJudged(w, true, t, b);
    hide Count, First, TalliesFirst, GoodAudit;
    if w.decode(b).Some? {
      TaskListed(w, certs, t, w.decode(b).value.claim.task);
    }
  }

  lemma EffectiveDeferred(w: World, certs: seq<Bytes>, b: Bytes)
    requires Defers(w, b)
    ensures Effective(w, Deferred(w, certs), b) <==> Effective(w, certs, b)
  {
    hide First, GoodAudit, Deferred;
    if w.decode(b).Some? {
      DeferredFirst(w, certs, w.decode(b).value.claim.task);
    }
  }

  /** The second pass over what the first left. */
  predicate Passes(w: World, rest: seq<Bytes>) {
    rest == [] || (w.audits.Some? && Tally(w, true, w.audits.value, rest).Ok?)
  }

  lemma PassesMore(w: World, certs: seq<Bytes>, b: Bytes)
    requires Defers(w, b)
    ensures Passes(w, Deferred(w, certs) + [b]) <==> Passes(w, Deferred(w, certs)) && Effective(w, certs, b)
  {
    hide Defers, Deferred, Count;
    var rest := Deferred(w, certs);
    var all := rest + [b];
    assert all[..|rest|] == rest;
    EffectiveDeferred(w, certs, b);
    if w.audits.Some? {
      TallyFirst(w, true, rest);
      assert rest == [] ==> Tally(w, true, w.audits.value, rest).Ok?;
      var s := Tally(w, true, w.audits.value, rest);
      hide Effective, TalliesFirst;
      if s.Ok? {
        StrictCounts(w, rest, s.value, b);
      }
    } else {
      NotAudit(w, certs, b);
    }
  }

  lemma NotAudit(w: World, certs: seq<Bytes>, b: Bytes)
    requires w.audits.None? && Defers(w, b)
    ensures !Effective(w, certs, b)
  {
  }

  lemma StrictMore(w: World, certs: seq<Bytes>, b: Bytes)
    ensures Check(w, true, certs + [b]).Ok? <==> Check(w, true, certs).Ok? && Effective(w, certs, b)
  {
    var all := certs + [b];
    assert all[..|certs|] == certs;
    SiftFirst(w, true, certs);
    SiftDeferred(w, true, certs);
    SiftDeferred(w, true, all);
    StrictIs(w, certs);
    StrictIs(w, all);
    hide Check, Place, Effective, SiftsFirst, Defers, Passes, Tally;
    var s := Sift(w, true, certs);
    if s.Ok? {
      StrictPlaces(w, certs, s.value, b);
      if Defers(w, b) {
        PassesMore(w, certs, b);
      }
    }
  }

  lemma StrictIs(w: World, certs: seq<Bytes>)
    ensures Check(w, true, certs).Ok? <==> Sift(w, true, certs).Ok? && Passes(w, Sift(w, true, certs).value.rest)
  {
  }

  /** A verifier accepts a list exactly when each of its certificates is good and the first good one for its
      subject. */
  lemma {:induction false} StrictExactly(w: World, certs: seq<Bytes>)
    ensures Check(w, true, certs).Ok? <==> forall i :: 0 <= i < |certs| ==> Effective(w, certs[..i], certs[i])
  {
    hide Effective;
    if certs != [] {
      hide Check;
      var n := |certs| - 1;
      var less := certs[..n];
      assert certs == less + [certs[n]];
      StrictExactly(w, less);
      StrictMore(w, less, certs[n]);
      assert forall i :: 0 <= i < n ==> less[..i] == certs[..i] && less[i] == certs[i];
    }
  }
}
