/** What is kept across restarts from snapshots: numbers in range, views that agree, a causal log. */
module Restarts {
  import opened Prelude
  import opened Events
  import opened Rules
  import opened KernelModel
  import opened Organism
  import opened Recovery
  import C = Causality
  import G = GovernorModel
  import K = KernelTheorems
  import M = MemoryModel
  import O = Openings
  import Ranges
  import Replicas
  import P = PerceptionModel
  import T = ExecutorModel
  import W = WorldModelModel
  import X = ExecutiveModel

  /** Only such events are published by the calls. */
  ghost predicate PublishOnly(ops: seq<K.Op>, admits: Payload -> bool) {
    forall op <- ops :: op.DoPublish? ==> admits(op.body)
  }

  // ---------------------------------------------------------------- numbers

  ghost predicate Ranging(o: OState) {
    Ranges.Sensing(o.worldModel) && Ranges.Valuing(o.executive) && Ranges.Scoring(o.memory)
  }

  lemma RestoringKeepsRanges(o: OState)
    requires Ranging(o)
    ensures Ranging(Restore(Capture(o)))
  {
    hide G.RebuiltAmendments, G.RebuiltEscalations, T.RebuiltSandbox, T.RebuiltAttempts, M.RebuiltPending, Latest, Filter, Values;
  }

  lemma NothingOutOfRange()
    ensures Ranging(Organism.Initial())
  {
  }

  /**
   Whatever is called, stopped, captured at any moment, lost and restored: as long as what is published from outside is in
   range, so is every number the organism holds.
   */
  lemma NumbersStayInRange(v: Setting, ops: seq<K.Op>)
    requires PublishOnly(ops, Ranges.InRange)
    ensures Ranges.WithinBounds(Called(v, ops).m.state)
  {
    hide Successor, Publications, Capture, Restore, K.Run, Ranges.Sensing, Ranges.Valuing, Ranges.Scoring, Ranges.InRange;
    var w := Recoverable(v);
    var admits, inv := (p: Payload) => Ranges.InRange(p), (o: OState) => Ranging(o);
    forall o, e: Event, t: nat | inv(o) && admits(e.body)
      ensures inv(w.handler(o, e, t).state) && forall p <- w.handler(o, e, t).published :: admits(p) {
      Ranges.PublicationsInRange(v, o, e, t);
    }
    forall o, blank | inv(o) && inv(blank) ensures inv(w.restore(blank, w.capture(o))) { RestoringKeepsRanges(o); }
    assert K.AdmitsKernel(admits) by { KernelIsInRange(); }
    NothingOutOfRange();
    K.RunsKeep(w, admits, inv, Organism.Initial(), ops);
    RangingIsWithinBounds(Called(v, ops).m.state);
  }

  lemma KernelIsInRange()
    ensures forall own: KernelEvent :: Ranges.InRange(OfKernel(own))
  {
  }

  lemma RangingIsWithinBounds(o: OState)
    requires Ranging(o)
    ensures Ranges.WithinBounds(o)
  {
  }

  // ---------------------------------------------------------------- actions

  /** Whatever is called: every approval, result and outcome in the log comes after what it is derived from. */
  lemma LogsStayJustified(v: Setting, ops: seq<K.Op>)
    requires PublishOnly(ops, (p: Payload) => !C.Derived(p))
    ensures C.Justified(Bodies(Called(v, ops).m.log))
  {
    hide Successor, Publications, Capture, Restore, K.Run, C.Justified, C.InTurn;
    var w := Recoverable(v);
    var admits, good := (p: Payload) => !C.Derived(p), (log: seq<Payload>) => C.Justified(log);
    forall log, s, e: Event, t: nat | good(log) && e.body in log ensures good(log + w.handler(s, e, t).published) {
      C.PublishedInTurn(v, s, e, t);
      C.JustifiedGrows(log, Publications(v, s, e, t), e.body);
    }
    forall log, body | good(log) && admits(body) ensures good(log + [body]) { C.JustifiedBy(log, body); }
    assert good([]) by { assert C.Justified([]) by { C.NothingToJustify(); } }
    K.LogsKeep(w, admits, good, Organism.Initial(), ops);
  }

  // ---------------------------------------------------------------- views

  predicate StartsRevision(p: Payload, id: Id) {
    p.OfMemory? && p.m.RevisionStarted? && p.m.revisionId == id
  }

  ghost predicate StartedBefore(log: seq<Payload>, i: nat, id: Id) {
    exists j: nat :: j < i && j < |log| && StartsRevision(log[j], id)
  }

  /** Every revision the log completes it started before. */
  ghost predicate Revised(log: seq<Payload>) {
    forall i: nat :: i < |log| && Replicas.CompletesRevision(log[i]) ==> StartedBefore(log, i, log[i].m.revisionId)
  }

  /** A revision is completed only in reaction to its start. */
  lemma CompletionAnswersStart(v: Setting, o: OState, e: Event, tick: nat, p: Payload)
    requires p in Publications(v, o, e, tick) && Replicas.CompletesRevision(p)
    ensures StartsRevision(e.body, p.m.revisionId)
  {
    hide P.Step, W.Step, X.Step, G.Step, T.Step, M.Step;
    EachPublishesItsOwn(v, o, e, tick);
    assert p in M.Step(Text(v), o.memory, e, tick).published;
    MemoryCompletes(Text(v), o.memory, e, tick, p);
  }

  lemma MemoryCompletes(n: Notation, s: M.MState, e: Event, tick: nat, p: Payload)
    requires p in M.Step(n, s, e, tick).published && Replicas.CompletesRevision(p)
    ensures StartsRevision(e.body, p.m.revisionId)
  {
    hide M.Learn, M.OnPrediction, M.OnOpportunityIdentified, By;
    if e.body.OfMemory? && M.OfLoops(e.body.m) {
      O.LoopsClose(n, s, e.body.m, e.time, tick, p);
    } else if e.body.OfMemory? {
      PredictionsComplete(s, e.body.m, e.time, tick);
    }
  }

  lemma PredictionsComplete(s: M.MState, m: MemoryEvent, time: real, tick: nat)
    requires !M.OfLoops(m)
    ensures forall p <- M.OnPrediction(s, m, time, tick).published :: !Replicas.CompletesRevision(p)
  {
    hide M.RescoredAll, M.SensorsOf, M.Resolved, M.FirstPrediction, By;
    if m.PredictionResolved? { RescoringCompletes(s, m, time, tick); }
  }

  lemma RescoringCompletes(s: M.MState, m: MemoryEvent, time: real, tick: nat)
    requires m.PredictionResolved?
    ensures forall p <- M.OnPredictionResolved(s, m, time, tick).published :: !Replicas.CompletesRevision(p)
  {
    hide M.ComputeReliability, M.Attributable, M.SensorsOf, M.Resolved, M.FirstPrediction, By;
  }

  lemma RevisedGrows(v: Setting, log: seq<Payload>, o: OState, e: Event, tick: nat)
    requires Revised(log) && e.body in log
    ensures Revised(log + Publications(v, o, e, tick))
  {
    hide Publications;
    var all, ps := log + Publications(v, o, e, tick), Publications(v, o, e, tick);
    var k: nat :| k < |log| && log[k] == e.body;
    forall i: nat | i < |all| && Replicas.CompletesRevision(all[i]) ensures StartedBefore(all, i, all[i].m.revisionId) {
      if i < |log| {
        var j: nat :| j < i && j < |log| && StartsRevision(log[j], log[i].m.revisionId);
        assert all[j] == log[j];
      } else {
        assert all[i] == ps[i - |log|] && ps[i - |log|] in ps;
        CompletionAnswersStart(v, o, e, tick, all[i]);
        assert all[k] == e.body;
      }
    }
  }

  lemma RevisedBy(log: seq<Payload>, body: Payload)
    requires Revised(log) && !body.OfMemory?
    ensures Revised(log + [body])
  {
    var all := log + [body];
    forall i: nat | i < |all| && Replicas.CompletesRevision(all[i]) ensures StartedBefore(all, i, all[i].m.revisionId) {
      var j: nat :| j < i && j < |log| && StartsRevision(log[j], log[i].m.revisionId);
      assert all[j] == log[j];
    }
  }

  lemma LogsStayRevised(v: Setting, ops: seq<K.Op>)
    requires PublishOnly(ops, (p: Payload) => !p.OfMemory?)
    ensures Revised(Bodies(Called(v, ops).m.log))
  {
    hide Successor, Publications, Capture, Restore, K.Run, Revised;
    var w := Recoverable(v);
    var admits, good := (p: Payload) => !p.OfMemory?, (log: seq<Payload>) => Revised(log);
    forall log, s, e: Event, t: nat | good(log) && e.body in log ensures good(log + w.handler(s, e, t).published) {
      RevisedGrows(v, log, s, e, t);
    }
    forall log, body | good(log) && admits(body) ensures good(log + [body]) { RevisedBy(log, body); }
    assert good([]) by { assert Revised([]) by { NothingRevised(); } }
    K.LogsKeep(w, admits, good, Organism.Initial(), ops);
  }

  lemma NothingRevised()
    ensures Revised([])
  {
  }

  /** Agreement is a matter of the view. */
  lemma AgreementIsViewed(o: OState, p: OState)
    requires Viewed(o) == Viewed(p) && Replicas.Agree(o)
    ensures Replicas.Agree(p)
  {
    hide Replicas.LatestReliability, Replicas.Distilled;
  }

  /** What the first n events of a log make: the views agree, and the ledger has the revisions they started. */
  ghost predicate Agreed(v: Setting, log: seq<Event>, n: nat) {
    n <= |log| &&
    var o := Showing(K.FoldView(Turn(v), Viewed(Organism.Initial()), log[..n]));
    Replicas.Agree(o) && forall id :: O.OnLedger(o.memory, O.Revision(id)) <==> StartedBefore(Bodies(log), n, id)
  }

  lemma {:induction false} FoldsAgree(v: Setting, log: seq<Event>, n: nat)
    requires n <= |log| && Revised(Bodies(log))
    ensures Agreed(v, log, n)
  {
    hide Viewed, Showing, Turn, Replicas.Agree, O.OnLedger, K.FoldView, Revised;
    if n == 0 {
      NothingFolded(v, log);
    } else {
      FoldsAgree(v, log, n - 1);
      FoldAgreesOn(v, log, n - 1);
    }
  }

  lemma NothingFolded(v: Setting, log: seq<Event>)
    ensures Agreed(v, log, 0)
  {
    hide Successor, Publications;
    assert log[..0] == [];
    Replicas.NothingToAgreeOn();
    AgreementIsViewed(Organism.Initial(), Showing(Viewed(Organism.Initial())));
  }

  lemma FoldAgreesOn(v: Setting, log: seq<Event>, n: nat)
    requires Revised(Bodies(log)) && n < |log| && Agreed(v, log, n)
    ensures Agreed(v, log, n + 1)
  {
    hide Successor, Replicas.Agree, O.OnLedger;
    var e, x := log[n], K.FoldView(Turn(v), Viewed(Organism.Initial()), log[..n]);
    var o, x' := Showing(x), K.FoldView(Turn(v), Viewed(Organism.Initial()), log[..n + 1]);
    assert log[..n + 1] == log[..n] + [e];
    K.FoldViewSnoc(Turn(v), Viewed(Organism.Initial()), log[..n], e);
    var o' := Successor(v, o, e, 0);
    assert Viewed(o') == x' == Viewed(Showing(x'));
    assert Bodies(log)[n] == e.body;
    if Replicas.CompletesRevision(e.body) {
      assert StartedBefore(Bodies(log), n, e.body.m.revisionId);
      LedgerFinds(o.memory, e.body.m.revisionId);
    }
    Replicas.DeliveryKeepsAgreement(v, o, e, 0);
    AgreementIsViewed(o', Showing(x'));
    forall id ensures O.OnLedger(Showing(x').memory, O.Revision(id)) <==> StartedBefore(Bodies(log), n + 1, id) {
      O.DeliveryOpens(v, o, e, 0, O.Revision(id));
      LedgerIsViewed(o', Showing(x'), id);
      StartedNow(Bodies(log), n, id);
    }
  }

  lemma LedgerFinds(s: M.MState, id: Id)
    requires O.OnLedger(s, O.Revision(id))
    ensures M.FirstRevision(s.learning.revisions, id).Some?
  {
    O.RevisionFound(s.learning.revisions, id);
  }

  lemma LedgerIsViewed(o: OState, p: OState, id: Id)
    requires Viewed(o) == Viewed(p)
    ensures O.OnLedger(o.memory, O.Revision(id)) <==> O.OnLedger(p.memory, O.Revision(id))
  {
  }

  lemma StartedNow(log: seq<Payload>, n: nat, id: Id)
    requires n < |log|
    ensures StartedBefore(log, n + 1, id) <==> StartedBefore(log, n, id) || O.Opens(log[n]) == Some(O.Revision(id))
  {
    if StartsRevision(log[n], id) { assert n < n + 1; }
  }

  /**
   In every process of every legal list of calls, restored from a snapshot or not: the World Model's reliabilities and the
   Governor's knowledge are what Memory's own ledgers say, as long as Memory's events are published by Memory alone.
   */
  lemma ViewsAgree(v: Setting, ops: seq<K.Op>)
    requires LegalCalls(v, ops) && PublishOnly(ops, (p: Payload) => !p.OfMemory?)
    ensures Replicas.Agree(Called(v, ops).m.state)
  {
    hide Viewed, Showing, Turn, Replicas.Agree, K.Run, K.FoldView, LegalCalls, K.LegalRun, K.Tracks, Recoverable, Revised, O.OnLedger;
    var k := Called(v, ops);
    OrganismTracks(v, v);
    CallsAreCovered(v, ops);
    K.RunsAreFaithful(Recoverable(v), Viewed, Turn(v), Organism.Initial(), ops);
    if k.replayed {
      LogsStayRevised(v, ops);
      FoldsAgree(v, k.m.log, k.m.head);
      ShowingIsViewed(Viewed(k.m.state));
      AgreementIsViewed(Showing(Viewed(k.m.state)), k.m.state);
    } else {
      Replicas.NothingToAgreeOn();
    }
  }

  lemma ShowingIsViewed(x: View)
    ensures Viewed(Showing(x)) == x
  {
  }
}
