/** Timeouts from the engine that gives up to the timeout certificate: whose timeouts are heard, when a
    certificate forms, what it carries, and exactly when it verifies. */
module TimeoutProgress {
  import opened Options
  import opened Committee
  import opened Certificates
  import opened EngineSpec
  import opened RoundProgress
  import opened Retention
  import opened EpochSilence
  import L = LazyVotes
  import V = VoteProgress
  import Bitmap

  // ---- reports

  predicate ReportOk(cfg: Config, round: nat, signer: nat, p: Report) {
    && signer < cfg.validators.Len() && p.qcRound < round
    && VerifySig(signer, TimeoutMsg(cfg.chain, cfg.epoch, round, p.qcRound), p.sig)
  }

  /** Every report is signed and no newer than the set's high QC, which verifies. */
  ghost predicate SetOk(cfg: Config, round: nat, ts: TimeoutSet) {
    && ts.highQc.round < round && ts.highQc.Verify(cfg.Scope())
    && forall i :: i in ts.entries ==> ReportOk(cfg, round, i, ts.entries[i]) && ts.entries[i].qcRound <= ts.highQc.round
  }

  ghost predicate TimeoutsOk(s: State) {
    forall r :: r in s.timeouts ==> SetOk(s.cfg, r, s.timeouts[r])
  }

  /** Somebody still reports the certificate the set calls its highest. */
  ghost predicate TopReported(ts: TimeoutSet) {
    exists i :: i in ts.entries && ts.entries[i].qcRound == ts.highQc.round
  }

  // ---- the certificate

  lemma {:induction false} EntriesAre(reports: map<nat, Report>, signers: seq<nat>)
    requires forall k :: 0 <= k < |signers| ==> signers[k] in reports
    ensures var es := Entries(reports, signers);
            && |es| == |signers|
            && forall k :: 0 <= k < |signers| ==> es[k] == TcEntry(signers[k], reports[signers[k]].qcRound, reports[signers[k]].sig)
  {
    if signers != [] {
      EntriesAre(reports, signers[..|signers| - 1]);
    }
  }

  /** The certificate holds exactly these reports, each once. */
  ghost predicate Carries(tc: Tc, reports: map<nat, Report>) {
    && (forall k, m :: 0 <= k < m < |tc.entries| ==> tc.entries[k].signer != tc.entries[m].signer)
    && (forall k :: 0 <= k < |tc.entries| ==> Holds(reports, tc.entries[k]))
    && (forall i :: i in reports ==> TcEntry(i, reports[i].qcRound, reports[i].sig) in tc.entries)
  }

  predicate Holds(reports: map<nat, Report>, e: TcEntry) {
    e.signer in reports && e == TcEntry(e.signer, reports[e.signer].qcRound, reports[e.signer].sig)
  }

  function FormedTc(cfg: Config, round: nat, reports: map<nat, Report>, high: Qc): Tc {
    Tc(cfg.epoch, round, high, Entries(reports, Sorted(reports.Keys, cfg.validators.Len())))
  }

  lemma ListCarries(tc: Tc, reports: map<nat, Report>, l: seq<nat>)
    requires Ascending(l) && (forall x :: x in l <==> x in reports) && tc.entries == Entries(reports, l)
    ensures Carries(tc, reports) && EntrySigners(tc.entries) == l
  {
    EntriesAre(reports, l);
    hide Entries;
    var es := tc.entries;
    assert forall k :: 0 <= k < |es| ==> es[k].signer == l[k];
    forall i | i in reports ensures TcEntry(i, reports[i].qcRound, reports[i].sig) in es {
      var k :| 0 <= k < |l| && l[k] == i;
      assert es[k] == TcEntry(i, reports[i].qcRound, reports[i].sig);
    }
  }

  lemma FormedCarries(cfg: Config, round: nat, reports: map<nat, Report>, high: Qc)
    requires forall i :: i in reports ==> i < cfg.validators.Len()
    ensures Carries(FormedTc(cfg, round, reports, high), reports)
    ensures EntrySigners(FormedTc(cfg, round, reports, high).entries) == Sorted(reports.Keys, cfg.validators.Len())
  {
    hide Entries, Carries;
    var l := Sorted(reports.Keys, cfg.validators.Len());
    assert Ascending(l) && forall x :: x in l <==> x in reports;
    hide Sorted;
    ListCarries(FormedTc(cfg, round, reports, high), reports, l);
  }

  lemma SortedWide(s: set<nat>, n: nat, wide: nat)
    requires n <= wide && forall x :: x in s ==> x < n
    ensures Sorted(s, wide) == Sorted(s, n)
  {
    Bitmap.SortedUnique(Sorted(s, n), s, wide);
  }

  lemma TopIs(tc: Tc, reports: map<nat, Report>)
    requires Carries(tc, reports) && reports != map[] && forall i :: i in reports ==> reports[i].qcRound <= tc.highQc.round
    ensures tc.highQc.round == tc.MaxReported() <==> exists i :: i in reports && reports[i].qcRound == tc.highQc.round
  {
    var es := tc.entries;
    var k :| 0 <= k < |es| && es[k].qcRound == MaxQcRound(es);
    assert Holds(reports, es[k]);
    if i :| i in reports && reports[i].qcRound == tc.highQc.round {
      var e := TcEntry(i, reports[i].qcRound, reports[i].sig);
      assert e in es;
      var j :| 0 <= j < |es| && es[j] == e;
    }
  }

  /** A certificate formed from a quorum of good reports verifies exactly when somebody among them still reports
      its high QC's round. */
  lemma FormedTcExactly(cfg: Config, round: nat, ts: TimeoutSet)
    requires SetOk(cfg, round, ts) && cfg.validators.Len() <= Bitmap.INDEX_RANGE
    requires cfg.validators.IsQuorum(cfg.validators.WeightOf(Sorted(ts.entries.Keys, cfg.validators.Len())))
    ensures FormedTc(cfg, round, ts.entries, ts.highQc).Verify(cfg.Scope()) <==> TopReported(ts)
  {
    var tc := FormedTc(cfg, round, ts.entries, ts.highQc);
    FormedCarries(cfg, round, ts.entries, ts.highQc);
    hide Sorted, Entries, Qc.Verify, FormedTc;
    NotEmpty(cfg.validators, ts.entries.Keys);
    TopIs(tc, ts.entries);
    EntriesOk(cfg, round, ts, tc);
    SignersAre(cfg, ts.entries.Keys);
  }

  lemma SignersAre(cfg: Config, keys: set<nat>)
    requires cfg.validators.Len() <= Bitmap.INDEX_RANGE && forall x :: x in keys ==> x < cfg.validators.Len()
    ensures var l := Sorted(keys, cfg.validators.Len());
            Sorted(Elems(l), Bitmap.INDEX_RANGE) == l && forall i :: 0 <= i < |l| ==> l[i] < cfg.validators.Len()
  {
    var l := Sorted(keys, cfg.validators.Len());
    assert Elems(l) == keys;
    hide Sorted;
    SortedWide(keys, cfg.validators.Len(), Bitmap.INDEX_RANGE);
  }

  lemma EntriesOk(cfg: Config, round: nat, ts: TimeoutSet, tc: Tc)
    requires SetOk(cfg, round, ts) && Carries(tc, ts.entries)
    ensures forall i :: 0 <= i < |tc.entries| ==>
              && tc.entries[i].qcRound < round
              && VerifySig(tc.entries[i].signer, TimeoutMsg(cfg.chain, cfg.epoch, round, tc.entries[i].qcRound), tc.entries[i].sig)
  {
    hide Qc.Verify;
    forall i | 0 <= i < |tc.entries|
      ensures tc.entries[i].qcRound < round
      ensures VerifySig(tc.entries[i].signer, TimeoutMsg(cfg.chain, cfg.epoch, round, tc.entries[i].qcRound), tc.entries[i].sig)
    {
      assert Holds(ts.entries, tc.entries[i]);
      assert ReportOk(cfg, round, tc.entries[i].signer, ts.entries[tc.entries[i].signer]);
    }
  }

  lemma NotEmpty(v: ValidatorSet, keys: set<nat>)
    ensures keys == {} ==> !v.IsQuorum(v.WeightOf(Sorted(keys, v.Len())))
  {
    if keys == {} {
      Bitmap.SortedUnique([], keys, v.Len());
      assert v.WeightOf([]) == 0;
    }
  }

  // ---- counting a timeout

  /** What any engine of the epoch can check about a timeout by itself. */
  predicate GoodTimeout(cfg: Config, t: Timeout) {
    && t.epoch == cfg.epoch && t.signer < cfg.validators.Len() && t.highQc.round < t.round
    && VerifySig(t.signer, TimeoutMsg(cfg.chain, cfg.epoch, t.round, t.highQc.round), t.sig)
    && t.highQc.Verify(cfg.Scope())
  }

  lemma AcceptedIsGood(s: State, t: Timeout)
    ensures AcceptsTimeout(s, t) <==> GoodTimeout(s.cfg, t) && s.round <= t.round + 2
  {
    hide Qc.Verify;
  }

  /** When the timer of its round runs out, an unfinished engine sends a timeout for each of its members, which
      every engine of the epoch at most two rounds ahead hears, if its high QC is older than the round. */
  lemma TimeoutHeard(a: State, b: State, i: nat)
    requires !a.finished && b.cfg == a.cfg.(me := b.cfg.me) && a.highQc.Verify(a.cfg.Scope()) && i < |a.cfg.me| && a.cfg.me[i] < a.cfg.validators.Len()
    ensures var t := SignTimeouts(a)[i];
            && t in Handle(a, EvTimeout(a.round)).out && t.Broadcast? && t.m.TimeoutM?
            && (AcceptsTimeout(b, t.m.t) <==> a.highQc.round < a.round && b.round <= a.round + 2)
  {
    hide Qc.Verify;
    assert a.cfg.Scope() == b.cfg.Scope();
    var u := LocalTimeout(a).s;
    assert SignTimeouts(u)[i] == SignTimeouts(a)[i];
    assert LocalTimeout(a).out[i + 1] == SignTimeouts(u)[i];
  }

  /** The engine can show why it is in its round: the certificate of the round before. */
  predicate Entitled(s: State) {
    && s.highQc.Verify(s.cfg.Scope()) && s.highQc.round < s.round
    && (|| s.highQc.round + 1 == s.round
        || (s.entryTc.Some? && s.entryTc.value.round + 1 == s.round && s.entryTc.value.Verify(s.cfg.Scope())))
  }

  /** Whoever enters a round by a verified certificate can show why. */
  lemma EntersEntitled(s: State, qc: Qc, tc: Tc)
    requires InOrder(s) && s.highQc.Verify(s.cfg.Scope())
    ensures var t := ProcessQc(s, qc).s;
            qc.Verify(s.cfg.Scope()) && t.round > s.round ==> Entitled(t)
    ensures var t := ProcessTc(s, tc).s;
            tc.Verify(s.cfg.Scope()) && t.round > s.round && !t.finished ==> Entitled(t)
  {
    hide ProcessQc, ProcessTc, Qc.Verify, Tc.Verify;
    QcGrows(s, qc);
    if tc.Verify(s.cfg.Scope()) {
      V.VerifiedReports(s.cfg, tc);
      TcGrows(s, tc);
    }
  }

  /** A timeout takes everybody along: whoever handles it is then in the sender's round or a later one, or its
      epoch is over. */
  lemma LaggardCatchesUp(a: State, b: State, i: nat)
    requires Entitled(a) && InOrder(b) && b.cfg == a.cfg.(me := b.cfg.me) && i < |a.cfg.me| && a.cfg.me[i] < a.cfg.validators.Len()
    ensures var t := SignTimeouts(a)[i];
            t.Broadcast? && var c := Handle(b, EvMessage(t.m)).s; c.round >= a.round || c.finished
  {
    hide Qc.Verify, Tc.Verify, OnTimeoutMsg, AcceptsTimeout, CountTimeout, ProcessQc, ProcessTc;
    assert a.cfg.Scope() == b.cfg.Scope();
    var t := SignTimeouts(a)[i].m.t;
    AcceptedIsGood(b, t);
    HandleGrows(b, EvMessage(TimeoutM(t)));
    if !b.finished && b.round < a.round {
      MessageCases(b, t);
      CertsCatchUp(b, t);
      CountGrows(AfterCerts(b, t).s, t);
    }
  }

  lemma CertsCatchUp(b: State, t: Timeout)
    requires InOrder(b) && b.round < t.round
    requires || t.highQc.round + 1 == t.round
             || (t.lastTc.Some? && t.lastTc.value.round + 1 == t.round && t.lastTc.value.Verify(b.cfg.Scope()))
    ensures InOrder(AfterCerts(b, t).s) && AfterCerts(b, t).s.round >= t.round
  {
    hide ProcessQc, ProcessTc, Tc.Verify;
    if t.lastTc.Some? {
      AnyTcGrows(b, t.lastTc.value);
      QcGrows(ProcessTc(b, t.lastTc.value).s, t.highQc);
    }
    QcGrows(b, t.highQc);
  }

  function SetBefore(s: State, t: Timeout): TimeoutSet {
    if t.round in s.timeouts then s.timeouts[t.round] else TimeoutSet(map[], t.highQc, false)
  }

  /** The set with the timeout in it: the newest report of each signer, and the newest certificate of all. */
  function SetAfter(s: State, t: Timeout): TimeoutSet {
    var ts := SetBefore(s, t);
    TimeoutSet(ts.entries[t.signer := Report(t.highQc.round, t.sig)],
               if ts.highQc.round < t.highQc.round then t.highQc else ts.highQc,
               Quorate(s.cfg, ts.entries.Keys + {t.signer}))
  }

  predicate Quorate(cfg: Config, keys: set<nat>) {
    L.Enough(cfg.validators, keys)
  }

  function Entered(s: State, t: Timeout): State {
    s.(timeouts := s.timeouts[t.round := SetAfter(s, t)])
  }

  lemma CountCases(s: State, t: Timeout)
    ensures var ts, u := SetAfter(s, t), Entered(s, t);
            CountTimeout(s, t) ==
            if SetBefore(s, t).done then Result(s, [])
            else if ts.done then ProcessTc(u, FormedTc(s.cfg, t.round, ts.entries, ts.highQc))
            else if s.cfg.validators.IsOneThird(s.cfg.validators.WeightOf(Sorted(ts.entries.Keys, s.cfg.validators.Len())))
                    && t.round == s.round && t.round !in s.timedOut then LocalTimeout(u)
            else Result(u, [])
  {
    hide ProcessTc, LocalTimeout, Entries, Sorted, ValidatorSet.WeightOf, ValidatorSet.IsQuorum, ValidatorSet.IsOneThird;
    var ts := SetBefore(s, t);
    assert ts.entries[t.signer := Report(t.highQc.round, t.sig)].Keys == ts.entries.Keys + {t.signer};
  }

  lemma SetAfterOk(s: State, t: Timeout)
    requires TimeoutsOk(s) && GoodTimeout(s.cfg, t)
    ensures SetOk(s.cfg, t.round, SetAfter(s, t))
  {
    hide Qc.Verify, Quorate;
    if t.round in s.timeouts {
      assert SetOk(s.cfg, t.round, s.timeouts[t.round]);
    }
  }

  /** As long as no signer replaces a report by an older one, somebody reports the set's high QC. */
  lemma TopStays(s: State, t: Timeout)
    requires var ts := SetBefore(s, t);
             && (t.round in s.timeouts ==> TopReported(ts))
             && (t.signer in ts.entries ==> ts.entries[t.signer].qcRound <= t.highQc.round)
             && (forall i :: i in ts.entries ==> ts.entries[i].qcRound <= ts.highQc.round)
    ensures TopReported(SetAfter(s, t))
  {
    hide Quorate;
    var ts, after := SetBefore(s, t), SetAfter(s, t);
    if t.round in s.timeouts && t.highQc.round <= ts.highQc.round {
      var i :| i in ts.entries && ts.entries[i].qcRound == ts.highQc.round;
      assert i in after.entries && after.entries[i].qcRound == after.highQc.round;
    } else {
      assert t.signer in after.entries && after.entries[t.signer].qcRound == after.highQc.round;
    }
  }

  lemma MessageCases(s: State, t: Timeout)
    requires AcceptsTimeout(s, t)
    ensures OnTimeoutMsg(s, t) == CountTimeout(AfterCerts(s, t).s, t).After(AfterCerts(s, t).out)
  {
    hide AcceptsTimeout, ProcessQc, ProcessTc, CountTimeout, Tc.Verify;
  }

  /** The timeout that completes a quorum: the engine enters the next round with a certificate that carries
      exactly the reports counted and the newest high QC, and that verifies exactly when somebody still
      reports that high QC; it opens the round if it leads it. */
  lemma QuorumFormsTc(s: State, t: Timeout)
    requires InOrder(s) && TimeoutsOk(s) && GoodTimeout(s.cfg, t) && s.cfg.validators.Len() <= Bitmap.INDEX_RANGE
    requires s.round <= t.round && !SetBefore(s, t).done && SetAfter(s, t).done && !CountTimeout(s, t).s.finished
    ensures var r, ts := CountTimeout(s, t), SetAfter(s, t);
            && r.s.round == t.round + 1 && r.s.entryTc.Some?
            && (s.cfg.Leads(r.s.round) ==> Opens(r.s) in r.out)
            && var tc := r.s.entryTc.value;
               && tc.round == t.round && Carries(tc, ts.entries) && tc.highQc == ts.highQc
               && (tc.Verify(s.cfg.Scope()) <==> TopReported(ts))
  {
    hide CountTimeout, ProcessTc, Opens, Tc.Verify, Qc.Verify, TopReported, Carries, TimeoutsOk, Entries;
    var ts, u := SetAfter(s, t), Entered(s, t);
    CountCases(s, t);
    SetAfterOk(s, t);
    TcGrows(u, FormedTc(s.cfg, t.round, ts.entries, ts.highQc));
    assert ts.entries.Keys == SetBefore(s, t).entries.Keys + {t.signer};
    FormedTcExactly(s.cfg, t.round, ts);
    FormedCarries(s.cfg, t.round, ts.entries, ts.highQc);
  }

  // ---- every handler

  lemma FewerOk(s: State, t: State)
    requires TimeoutsOk(s) && Fewer(s, t)
    ensures TimeoutsOk(t)
  {
    hide SetOk;
  }

  lemma CountOk(s: State, t: Timeout)
    requires TimeoutsOk(s) && GoodTimeout(s.cfg, t)
    ensures TimeoutsOk(CountTimeout(s, t).s)
  {
    SetAfterOk(s, t);
    CountCases(s, t);
    hide CountTimeout, ProcessTc, LocalTimeout, SetOk, SetAfter, GoodTimeout;
    var ts, u := SetAfter(s, t), Entered(s, t);
    assert TimeoutsOk(u);
    var tc := FormedTc(s.cfg, t.round, ts.entries, ts.highQc);
    TcFewer(u, tc);
    FewerOk(u, ProcessTc(u, tc).s);
    TimeoutFewer(u);
    FewerOk(u, LocalTimeout(u).s);
  }

  lemma MessageOk(s: State, t: Timeout)
    requires TimeoutsOk(s)
    ensures TimeoutsOk(OnTimeoutMsg(s, t).s)
  {
    hide TimeoutsOk, ProcessTc, ProcessQc, CountTimeout, Tc.Verify, AcceptsTimeout, GoodTimeout;
    if AcceptsTimeout(s, t) {
      AcceptedIsGood(s, t);
      var useTc := && t.lastTc.Some?
                   && t.lastTc.value.round + 1 == t.round
                   && t.lastTc.value.round >= s.round
                   && t.lastTc.value.Verify(s.cfg.Scope());
      var r := if useTc then ProcessTc(s, t.lastTc.value) else Result(s, []);
      if useTc {
        TcFewer(s, t.lastTc.value);
        FewerOk(s, r.s);
      }
      QcFewer(r.s, t.highQc);
      FewerOk(r.s, ProcessQc(r.s, t.highQc).s);
      CountOk(ProcessQc(r.s, t.highQc).s, t);
    }
  }

  lemma VoteOk(s: State, v: Vote)
    requires TimeoutsOk(s)
    ensures TimeoutsOk(OnVote(s, v).s)
  {
    hide AddVote, ProcessQc, Bitmap.Encode, SetOk;
    var key := (v.round, v.block);
    var vs := if key in s.votes then s.votes[key] else VoteSet(v.height, map[], map[], false);
    var tally := AddVote(s.cfg.validators, VoteMsg(s.cfg.chain, s.cfg.epoch, v.round, v.block),
                         vs, v.height, v.signer, v.sig);
    var t := s.(votes := s.votes[key := tally.votes]);
    assert TimeoutsOk(t);
    if tally.formed.Some? {
      var qc := Qc(s.cfg.epoch, v.round, v.block, tally.votes.height,
                   Bitmap.Encode(tally.formed.value.signers, s.cfg.validators.Len()), Some(tally.formed.value.agg));
      QcFewer(t, qc);
      FewerOk(t, ProcessQc(t, qc).s);
    }
  }

  /** In every life the timeout sets stay good: signed reports no newer than the set's verified high QC. */
  lemma TimeoutsStayOk(s: State, ev: Event)
    requires TimeoutsOk(s)
    ensures TimeoutsOk(Handle(s, ev).s)
  {
    hide TimeoutsOk, OnVote, OnTimeoutMsg, OnProposal;
    if ev.EvMessage? && ev.m.VoteM? {
      VoteOk(s, ev.m.v);
    } else if ev.EvMessage? && ev.m.TimeoutM? {
      MessageOk(s, ev.m.t);
    } else {
      HandleFewer(s, ev);
      hide Handle;
      FewerOk(s, Handle(s, ev).s);
    }
  }

  // ---- a quorum of timeouts

  /** An engine not past round `r` that has heard these members give up on it. */
  ghost predicate Hears(n: State, r: nat, heard: set<nat>) {
    && !n.finished && n.round <= r && InOrder(n)
    && (r in n.timeouts ==> !n.timeouts[r].done && heard <= n.timeouts[r].entries.Keys && !Quorate(n.cfg, n.timeouts[r].entries.Keys))
    && (r !in n.timeouts ==> heard == {})
  }

  /** The engine has left the round, or the epoch is over for it. */
  predicate Left(n: State, r: nat) {
    n.round > r || n.finished
  }

  lemma QcHears(n: State, r: nat, heard: set<nat>, qc: Qc)
    requires Hears(n, r, heard) && qc.round < r
    ensures var q := ProcessQc(n, qc).s; q.cfg == n.cfg && InOrder(q) && (q.finished || Hears(q, r, heard))
  {
    hide ProcessQc, Quorate;
    QcGrows(n, qc);
    QcRetains(n, qc);
    QcFewer(n, qc);
  }

  lemma TcHears(n: State, r: nat, heard: set<nat>, tc: Tc)
    requires Hears(n, r, heard) && tc.highQc.round < tc.round && tc.round + 1 == r
    ensures var q := ProcessTc(n, tc).s; q.cfg == n.cfg && InOrder(q) && (q.finished || Hears(q, r, heard))
  {
    hide ProcessTc, Quorate;
    TcGrows(n, tc);
    TcRetains(n, tc);
    TcFewer(n, tc);
  }

  lemma CertsHear(n: State, r: nat, heard: set<nat>, t: Timeout)
    requires Hears(n, r, heard) && t.round == r && t.highQc.round < r
    ensures var q := AfterCerts(n, t).s; q.cfg == n.cfg && InOrder(q) && (q.finished || Hears(q, r, heard))
  {
    hide ProcessQc, ProcessTc, Hears, Tc.Verify;
    if t.lastTc.Some? && t.lastTc.value.round + 1 == t.round && t.lastTc.value.round >= n.round && t.lastTc.value.Verify(n.cfg.Scope()) {
      var tc := t.lastTc.value;
      V.VerifiedReports(n.cfg, tc);
      TcHears(n, r, heard, tc);
      var q := ProcessTc(n, tc).s;
      QcGrows(q, t.highQc);
      if !q.finished {
        QcHears(q, r, heard, t.highQc);
      }
    } else {
      QcHears(n, r, heard, t.highQc);
    }
  }

  lemma CountHears(n: State, r: nat, heard: set<nat>, t: Timeout)
    requires Hears(n, r, heard) && t.round == r
    ensures var c := CountTimeout(n, t).s;
            && c.cfg == n.cfg && (Left(c, r) || Hears(c, r, heard + {t.signer}))
            && (Quorate(n.cfg, heard + {t.signer}) ==> Left(c, r))
  {
    hide CountTimeout, ProcessTc, LocalTimeout, Quorate, Hears, SetAfter, Entries;
    assert InOrder(n) && !n.finished by { HearsParts(n, r, heard); }
    CountGrows(n, t);
    CountCases(n, t);
    EnteredHears(n, r, heard, t);
    var ts, u := SetAfter(n, t), Entered(n, t);
    if ts.done {
      AnyTcGrows(u, FormedTc(n.cfg, t.round, ts.entries, ts.highQc));
    } else {
      LocalSame(u);
      LocalGrows(u);
      HearsSame(u, LocalTimeout(u).s, r, heard + {t.signer});
    }
  }

  lemma HearsSame(n: State, c: State, r: nat, heard: set<nat>)
    requires Hears(n, r, heard) && c.timeouts == n.timeouts && c.round == n.round && c.finished == n.finished && c.cfg == n.cfg && InOrder(c)
    ensures Hears(c, r, heard)
  {
    hide Quorate;
  }

  lemma EnteredHears(n: State, r: nat, heard: set<nat>, t: Timeout)
    requires Hears(n, r, heard) && t.round == r
    ensures !SetBefore(n, t).done && InOrder(Entered(n, t)) && Entered(n, t).cfg == n.cfg
    ensures !SetAfter(n, t).done ==> Hears(Entered(n, t), r, heard + {t.signer})
    ensures Quorate(n.cfg, heard + {t.signer}) ==> SetAfter(n, t).done
  {
    hide Quorate;
    var ts := SetAfter(n, t);
    assert ts.entries.Keys == SetBefore(n, t).entries.Keys + {t.signer};
    if Quorate(n.cfg, heard + {t.signer}) {
      QuorateMore(n.cfg, heard + {t.signer}, ts.entries.Keys);
    }
  }

  lemma LocalSame(u: State)
    ensures var c := LocalTimeout(u).s; c.timeouts == u.timeouts && c.round == u.round && c.finished == u.finished && c.cfg == u.cfg
  {
    hide SignTimeouts;
  }

  lemma QuorateMore(cfg: Config, a: set<nat>, b: set<nat>)
    requires Quorate(cfg, a) && a <= b
    ensures Quorate(cfg, b)
  {
    L.EnoughMonotone(cfg.validators, a, b);
  }

  lemma Delivered(n: State, t: Timeout)
    requires !n.finished && t.epoch == n.cfg.epoch && AcceptsTimeout(n, t)
    ensures Handle(n, EvMessage(TimeoutM(t))).s == CountTimeout(AfterCerts(n, t).s, t).s
  {
    hide OnTimeoutMsg, AcceptsTimeout, AfterCerts, CountTimeout;
    MessageCases(n, t);
  }

  lemma TimeoutStep(n: State, r: nat, heard: set<nat>, t: Timeout)
    requires Hears(n, r, heard) && GoodTimeout(n.cfg, t) && t.round == r
    ensures var c := Handle(n, EvMessage(TimeoutM(t))).s;
            && c.cfg == n.cfg && InOrder(c) && (Left(c, r) || Hears(c, r, heard + {t.signer}))
            && (Quorate(n.cfg, heard + {t.signer}) ==> Left(c, r))
  {
    AcceptedIsGood(n, t);
    GoodParts(n.cfg, t);
    HearsParts(n, r, heard);
    hide AfterCerts, CountTimeout, AcceptsTimeout, Quorate, Hears, GoodTimeout, Handle;
    CertsHear(n, r, heard, t);
    Delivered(n, t);
    var q := AfterCerts(n, t);
    CountGrows(q.s, t);
    if !q.s.finished {
      CountHears(q.s, r, heard, t);
    }
  }

  lemma HearsParts(n: State, r: nat, heard: set<nat>)
    requires Hears(n, r, heard)
    ensures n.round <= r && !n.finished && InOrder(n)
  {
  }

  lemma GoodParts(cfg: Config, t: Timeout)
    requires GoodTimeout(cfg, t)
    ensures t.highQc.round < t.round && t.epoch == cfg.epoch
  {
  }

  function Signers(ts: seq<Timeout>): set<nat> {
    set t | t in ts :: t.signer
  }

  function Told(n: State, ts: seq<Timeout>): State {
    if ts == [] then n else Handle(Told(n, ts[..|ts| - 1]), EvMessage(TimeoutM(ts[|ts| - 1]))).s
  }

  lemma {:induction false} ToldTimeouts(n: State, r: nat, ts: seq<Timeout>)
    requires Hears(n, r, {})
    requires forall i :: 0 <= i < |ts| ==> GoodTimeout(n.cfg, ts[i]) && ts[i].round == r
    ensures var c := Told(n, ts); c.cfg == n.cfg && InOrder(c) && (Left(c, r) || Hears(c, r, Signers(ts)))
  {
    hide Handle, Hears, GoodTimeout;
    if ts == [] {
      assert Signers(ts) == {};
      HearsParts(n, r, {});
    } else {
      var less, x := ts[..|ts| - 1], ts[|ts| - 1];
      assert ts == less + [x];
      ToldTimeouts(n, r, less);
      assert Signers(ts) == Signers(less) + {x.signer};
      var c := Told(n, less);
      HandleGrows(c, EvMessage(TimeoutM(x)));
      if !Left(c, r) {
        TimeoutStep(c, r, Signers(less), x);
      }
    }
  }

  /** Once good timeouts of a quorum have reached it, in any order, an engine has left the round. */
  lemma QuorumLeaves(n: State, r: nat, ts: seq<Timeout>)
    requires Hears(n, r, {}) && Quorate(n.cfg, Signers(ts))
    requires forall i :: 0 <= i < |ts| ==> GoodTimeout(n.cfg, ts[i]) && ts[i].round == r
    ensures Left(Told(n, ts), r)
  {
    ToldTimeouts(n, r, ts);
    hide Told, GoodTimeout, Quorate;
    var c := Told(n, ts);
    if !Left(c, r) {
      NotQuorate(c, r, Signers(ts));
    }
  }

  lemma NotQuorate(c: State, r: nat, heard: set<nat>)
    requires Hears(c, r, heard)
    ensures !Quorate(c.cfg, heard)
  {
    if r in c.timeouts {
      if Quorate(c.cfg, heard) {
        QuorateMore(c.cfg, heard, c.timeouts[r].entries.Keys);
      }
    } else {
      NotEmpty(c.cfg.validators, heard);
    }
  }
}
