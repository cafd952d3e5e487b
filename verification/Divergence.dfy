/** A run, built from undisturbed requests and approvals, in which two overlapping promotions diverge. */
module Divergence {
  import opened Wrappers
  import opened Records
  import opened ApprovalGate
  import opened Promotion
  import opened WorkOrders
  import opened Ledger
  import opened Protocol
  import opened Guarantees
  import opened AliasAgreement

  ghost predicate Reachable(s: Sys) {
    exists trace :: Run(Init, trace) == s
  }

  lemma ReachableStep(s: Sys, t: Tid, step: Step)
    requires Reachable(s)
    ensures Reachable(Apply(s, t, step))
  {
    hide Apply;
    var trace :| Run(Init, trace) == s;
    var longer := trace + [(t, step)];
    assert longer[..|longer| - 1] == trace;
    assert Run(Init, longer) == Apply(s, t, step);
  }

  function Request(s: Sys, t: Tid, modelId: Id, approvalId: Id): Sys {
    Apply(Apply(s, t, BeginRequest(modelId, Agent, None)), t, CommitRequest(approvalId))
  }

  function Decide(s: Sys, t: Tid, approvalId: Id, v: Verdict): Sys {
    Apply(Apply(s, t, BeginDecide(approvalId, v, None)), t, CommitDecide)
  }

  lemma RequestRuns(s: Sys, t: Tid, m: Model, approvalId: Id)
    requires t !in s.calls && ModelKnown(s.db, m) && RequestTx(s.db, m, approvalId, Agent, None).Some?
    ensures Request(s, t, m.id, approvalId) == s.(db := RequestTx(s.db, m, approvalId, Agent, None).value)
  {
    hide RequestTx;
    var s1 := Apply(s, t, BeginRequest(m.id, Agent, None));
    assert s1.calls == s.calls[t := Requesting(m, Agent, None)];
    assert s1.calls - {t} == s.calls;
  }

  lemma DecideRuns(s: Sys, t: Tid, id: Id, v: Verdict)
    requires t !in s.calls && id in s.db.approvals && s.db.approvals[id].status.Pending?
    requires ValidVerdict(v) && DecideTx(s.db, id, s.db.approvals[id].version, v).Some?
    ensures Decide(s, t, id, v) == s.(db := DecideTx(s.db, id, s.db.approvals[id].version, v).value)
  {
  }

  function Grant(s: Sys, t: Tid, modelId: Id, approvalId: Id, actor: string): Sys {
    Decide(Request(s, t, modelId, approvalId), t, approvalId, Verdict(Approve, None, None, actor))
  }

  /** No promotion of the model waits for its decision, whatever else does. */
  ghost predicate Unasked(t: Approvals, m: Id) {
    forall id :: id in t && t[id].status == Pending ==>
      t[id].action != ModelPromotion || t[id].entityType != "registered_model" || t[id].entityId != m
  }

  /** An undisturbed request and approval authorise the model and leave every other approval alone. */
  lemma GrantAuthorises(s: Sys, t: Tid, m: Model, approvalId: Id, actor: string)
    requires t !in s.calls && ModelKnown(s.db, m) && approvalId !in s.db.approvals
    requires Requestable(s.db.lifecycle, m.id) && ValidProposal(RequestProposal(m, approvalId, Agent, None))
    requires Unasked(s.db.approvals, m.id)
    requires NonBlank(actor) && |actor| <= ID_MAX_LEN
    ensures var s' := Grant(s, t, m.id, approvalId, actor);
      && s' == s.(db := s'.db) && s'.db.models == s.db.models && s'.db.receipts == s.db.receipts
      && approvalId in s'.db.approvals && Authorises(s'.db.approvals[approvalId], m)
      && s'.db.approvals == s.db.approvals[approvalId := s'.db.approvals[approvalId]]
      && s'.db.lifecycle.Keys == s.db.lifecycle.Keys + {m.id}
  {
    hide Request, Decide, RequestTx, DecideTx, ValidProposal, Unasked, NonBlank, RequestPayload;
    var v := Verdict(Approve, None, None, actor);
    RequestEffect(s.db, m, approvalId);
    RequestRuns(s, t, m, approvalId);
    var s1 := Request(s, t, m.id, approvalId);
    DecideEffect(s1.db, approvalId, v);
    DecideRuns(s1, t, approvalId, v);
  }

  lemma RequestEffect(db: Db, m: Model, approvalId: Id)
    requires approvalId !in db.approvals && Requestable(db.lifecycle, m.id)
    requires ValidProposal(RequestProposal(m, approvalId, Agent, None))
    requires Unasked(db.approvals, m.id)
    ensures var tx := RequestTx(db, m, approvalId, Agent, None);
      && tx.Some?
      && tx.value.approvals == db.approvals[approvalId := NewRow(RequestProposal(m, approvalId, Agent, None))]
      && tx.value.models == db.models && tx.value.receipts == db.receipts
      && tx.value.lifecycle.Keys == db.lifecycle.Keys + {m.id}
  {
    hide ValidProposal, HasPending, RequestPayload, Unasked;
    UnaskedEnters(db.approvals, m.id);
  }

  lemma UnaskedEnters(t: Approvals, m: Id)
    requires Unasked(t, m)
    ensures !HasPending(t, ModelPromotion, ENTITY_REGISTERED_MODEL, m)
  {
  }

  lemma DecideEffect(db: Db, id: Id, v: Verdict)
    requires id in db.approvals && db.approvals[id].status.Pending? && v.decision.Approve?
    ensures var row := db.approvals[id];
      var tx := DecideTx(db, id, row.version, v);
      && tx.Some?
      && tx.value.approvals ==
         db.approvals[id := row.(status := Approved, decision := v.payload, decidedBy := Some(v.actor),
                                                       reason := v.reason, version := row.version + 1)]
      && tx.value.models == db.models && tx.value.receipts == db.receipts && tx.value.lifecycle == db.lifecycle
  {
  }

  lemma ReachableGrant(s: Sys, t: Tid, modelId: Id, approvalId: Id, actor: string)
    requires Reachable(s)
    ensures Reachable(Grant(s, t, modelId, approvalId, actor))
  {
    hide Apply;
    var s1 := Apply(s, t, BeginRequest(modelId, Agent, None));
    ReachableStep(s, t, BeginRequest(modelId, Agent, None));
    ReachableStep(s1, t, CommitRequest(approvalId));
    var s2 := Request(s, t, modelId, approvalId);
    var v := Verdict(Approve, None, None, actor);
    ReachableStep(s2, t, BeginDecide(approvalId, v, None));
    ReachableStep(Apply(s2, t, BeginDecide(approvalId, v, None)), t, CommitDecide);
  }

  lemma ReachableApproach(s: Sys, t: Tid, modelId: Id, approvalId: Id, actor: string)
    requires Reachable(s)
    ensures Reachable(Approach(s, t, modelId, approvalId, actor))
  {
    hide Apply;
    var s1 := Apply(s, t, BeginPromotion(modelId, approvalId, actor));
    var s2 := Apply(s1, t, LoadModel);
    ReachableStep(s, t, BeginPromotion(modelId, approvalId, actor));
    ReachableStep(s1, t, LoadModel);
    ReachableStep(s2, t, ClearPromotion);
    ReachableStep(Apply(s2, t, ClearPromotion), t, MoveAlias(Moved));
  }

  const OLD := Model("m1", "pump", 1)
  const NEW := Model("m2", "pump", 2)

  function TwoVersions(): Sys {
    Apply(Apply(Init, 0, Register(OLD)), 0, Register(NEW))
  }

  function Prepared(): Sys {
    Grant(Grant(TwoVersions(), 0, OLD.id, "a1", "eve"), 0, NEW.id, "a2", "eve")
  }

  lemma TwoVersionsState()
    ensures Reachable(TwoVersions())
    ensures var s := TwoVersions();
      && s.calls == map[] && s.interrupted == {} && s.db.receipts == [] && s.db.approvals == map[]
      && s.db.models == map[OLD.id := OLD, NEW.id := NEW] && s.db.lifecycle == map[]
  {
    assert Run(Init, []) == Init;
    ReachableStep(Init, 0, Register(OLD));
    ReachableStep(Apply(Init, 0, Register(OLD)), 0, Register(NEW));
    assert OLD.id[1] != NEW.id[1];
  }

  lemma Literals()
    ensures OLD.id != NEW.id && "a1" != "a2" && "r1" != "r2" && NonBlank("eve")
    ensures ValidProposal(RequestProposal(OLD, "a1", Agent, None))
    ensures ValidProposal(RequestProposal(NEW, "a2", Agent, None))
  {
    assert OLD.id[1] != NEW.id[1] && "a1"[1] != "a2"[1] && "r1"[1] != "r2"[1] && !IsSpace("eve"[0]);
    assert !IsSpace(ENTITY_REGISTERED_MODEL[0]) && !IsSpace(OLD.id[0]) && !IsSpace(NEW.id[0]);
  }

  /** Promotions of different models wait side by side: a pending request blocks its own target only. */
  lemma TwoRequestsWait() returns (s: Sys)
    ensures Reachable(s) && s.calls == map[]
    ensures "a1" in s.db.approvals && s.db.approvals["a1"].status == Pending
            && s.db.approvals["a1"].action == ModelPromotion && s.db.approvals["a1"].entityId == OLD.id
    ensures "a2" in s.db.approvals && s.db.approvals["a2"].status == Pending
            && s.db.approvals["a2"].action == ModelPromotion && s.db.approvals["a2"].entityId == NEW.id
    ensures OLD.id != NEW.id
  {
    hide Request, RequestTx, ValidProposal, TwoVersions, Reachable, NonBlank, RequestPayload;
    TwoVersionsState();
    Literals();
    var s2 := TwoVersions();
    RequestEffect(s2.db, OLD, "a1");
    RequestRuns(s2, 0, OLD, "a1");
    ReachableRequest(s2, 0, OLD.id, "a1");
    var s3 := Request(s2, 0, OLD.id, "a1");
    RequestEffect(s3.db, NEW, "a2");
    RequestRuns(s3, 0, NEW, "a2");
    ReachableRequest(s3, 0, NEW.id, "a2");
    s := Request(s3, 0, NEW.id, "a2");
  }

  lemma ReachableRequest(s: Sys, t: Tid, modelId: Id, approvalId: Id)
    requires Reachable(s)
    ensures Reachable(Request(s, t, modelId, approvalId))
  {
    hide Apply, Reachable;
    ReachableStep(s, t, BeginRequest(modelId, Agent, None));
    ReachableStep(Apply(s, t, BeginRequest(modelId, Agent, None)), t, CommitRequest(approvalId));
  }

  /** The two grants are the only approvals, and both are decided. */
  lemma PreparedApprovals()
    ensures var approvals := Prepared().db.approvals;
      && (forall a :: a in approvals ==> a == "a1" || a == "a2")
         && (forall a :: a in approvals ==> approvals[a].Executable())
  {
    hide Grant, ValidPayload, ValidProposal, TwoVersions, Reachable, NonBlank;
    TwoVersionsState();
    Literals();
    var s2 := TwoVersions();
    GrantAuthorises(s2, 0, OLD, "a1", "eve");
    var s3 := Grant(s2, 0, OLD.id, "a1", "eve");
    assert forall a :: a in s3.db.approvals ==> a == "a1" && s3.db.approvals[a].Executable();
    assert NEW.id !in s3.db.lifecycle;
    GrantAuthorises(s3, 0, NEW, "a2", "eve");
  }

  lemma PreparedState()
    ensures Reachable(Prepared())
    ensures var s := Prepared();
      && s.calls == map[] && s.interrupted == {} && s.db.receipts == []
      && s.db.models == map[OLD.id := OLD, NEW.id := NEW]
      && "a1" in s.db.approvals && Authorises(s.db.approvals["a1"], OLD)
      && "a2" in s.db.approvals && Authorises(s.db.approvals["a2"], NEW)
  {
    hide Grant, Apply, ValidPayload, ValidProposal, TwoVersions, Reachable, NonBlank;
    TwoVersionsState();
    Literals();
    var s2 := TwoVersions();
    ReachableGrant(s2, 0, OLD.id, "a1", "eve");
    GrantAuthorises(s2, 0, OLD, "a1", "eve");
    var s3 := Grant(s2, 0, OLD.id, "a1", "eve");
    ReachableGrant(s3, 0, NEW.id, "a2", "eve");
    assert forall a :: a in s3.db.approvals ==> a == "a1" && s3.db.approvals[a].Executable();
    assert NEW.id !in s3.db.lifecycle;
    GrantAuthorises(s3, 0, NEW, "a2", "eve");
  }

  /** Both calls write the alias, the later writer commits first, the earlier one last. */
  function Overlapped(s: Sys): Sys {
    var both := Approach(Approach(s, 1, OLD.id, "a1", "eve"), 2, NEW.id, "a2", "eve");
    Apply(Apply(both, 2, CommitPromotion("r2")), 1, CommitPromotion("r1"))
  }

  lemma ReachableOverlapped(s: Sys)
    requires Reachable(s)
    ensures Reachable(Overlapped(s))
    ensures Reachable(Approach(Approach(s, 1, OLD.id, "a1", "eve"), 2, NEW.id, "a2", "eve"))
  {
    hide Apply, Approach, Reachable;
    var one := Approach(s, 1, OLD.id, "a1", "eve");
    var both := Approach(one, 2, NEW.id, "a2", "eve");
    ReachableApproach(s, 1, OLD.id, "a1", "eve");
    ReachableApproach(one, 2, NEW.id, "a2", "eve");
    ReachableStep(both, 2, CommitPromotion("r2"));
    ReachableStep(Apply(both, 2, CommitPromotion("r2")), 1, CommitPromotion("r1"));
  }

  lemma ReachableInv(s: Sys)
    requires Reachable(s)
    ensures SysInv(s)
  {
    var trace :| Run(Init, trace) == s;
    ReachedInv(trace);
  }

  lemma NothingReceipted(approvalId: Id)
    ensures ReceiptFor([], approvalId).None?
  {
  }

  lemma BothInWindow(s: Sys)
    requires s == Prepared()
    ensures var both := Approach(Approach(s, 1, OLD.id, "a1", "eve"), 2, NEW.id, "a2", "eve");
      && InWindow(both, 1, "pump") && InWindow(both, 2, "pump")
      && both.calls.Keys == {1, 2}
      && both.calls[1].at.model == OLD && both.calls[1].approvalId == "a1"
      && both.calls[2].at.model == NEW && both.calls[2].approvalId == "a2"
      && "pump" in both.alias && both.alias["pump"] == 2
      && both.db.receipts == [] && both.interrupted == {}
  {
    hide Prepared, Approach, Authorises, NonBlank, ReceiptFor, ValidProposal;
    PreparedState();
    Literals();
    NothingReceipted("a1");
    NothingReceipted("a2");
    ApproachOpensWindow(s, 1, OLD, "a1", "eve");
    ApproachOpensWindow(Approach(s, 1, OLD.id, "a1", "eve"), 2, NEW, "a2", "eve");
  }

  lemma OverlappedIs(s: Sys)
    ensures var both := Approach(Approach(s, 1, OLD.id, "a1", "eve"), 2, NEW.id, "a2", "eve");
      Overlapped(s) == Apply(Apply(both, 2, CommitPromotion("r2")), 1, CommitPromotion("r1"))
  {
    hide Apply, Approach;
  }

  /**
   Two approved promotions of one name whose calls overlap end with no call open, and still the alias
   names a version that is not the champion's.
   */
  lemma DivergenceIsReachable() returns (s: Sys)
    ensures Reachable(s) && s.calls == map[] && "pump" !in s.interrupted && !Agrees(s, "pump")
  {
    hide Prepared, Apply, Approach, Overlapped, InWindow, Agrees, SysInv, Reachable, Authorises, NonBlank, ReceiptFor,
         ValidProposal;
    var start := Prepared();
    PreparedState();
    Literals();
    BothInWindow(start);
    OverlappedIs(start);
    var both := Approach(Approach(start, 1, OLD.id, "a1", "eve"), 2, NEW.id, "a2", "eve");
    ReachableOverlapped(start);
    ReachableInv(both);
    OverlapDiverges(both, 2, 1, "pump", "r2", "r1");
    s := Overlapped(start);
  }

  // ----- repeating an executed approval -----

  lemma ReachableAttempt(s: Sys, t: Tid, modelId: Id, approvalId: Id, actor: string, receiptId: Id)
    requires Reachable(s)
    ensures Reachable(Attempt(s, t, modelId, approvalId, actor, receiptId))
  {
    hide Apply, Approach, Reachable;
    ReachableApproach(s, t, modelId, approvalId, actor);
    ReachableStep(Approach(s, t, modelId, approvalId, actor), t, CommitPromotion(receiptId));
  }

  /** An old receipt, then a newer promotion that writes the alias and stops: the alias is ahead of the champion. */
  function LeftBehind(s: Sys): Sys {
    var first := Attempt(s, 1, OLD.id, "a1", "eve", "r1");
    Apply(Approach(first, 2, NEW.id, "a2", "eve"), 2, Crash)
  }

  lemma StopsInWindow(s: Sys, m: Model, approvalId: Id, actor: string)
    requires s.calls == map[] && ModelKnown(s.db, m) && m.version >= 1 && NonBlank(actor)
    requires approvalId in s.db.approvals && Authorises(s.db.approvals[approvalId], m)
    requires ReceiptFor(s.db.receipts, approvalId).None?
    ensures var s' := Apply(Approach(s, 2, m.id, approvalId, actor), 2, Crash);
      s'.db == s.db && s'.calls == map[] && s'.alias == s.alias[m.name := m.version]
  {
    hide Approach, Authorises, NonBlank, ReceiptFor;
    ApproachOpensWindow(s, 2, m, approvalId, actor);
    var both := Approach(s, 2, m.id, approvalId, actor);
    assert both.calls - {2} == map[];
  }

  lemma ReachableLeftBehind(s: Sys)
    requires Reachable(s)
    ensures Reachable(LeftBehind(s))
  {
    hide Apply, Approach, Attempt, Reachable;
    var first := Attempt(s, 1, OLD.id, "a1", "eve", "r1");
    ReachableAttempt(s, 1, OLD.id, "a1", "eve", "r1");
    ReachableApproach(first, 2, NEW.id, "a2", "eve");
    ReachableStep(Approach(first, 2, NEW.id, "a2", "eve"), 2, Crash);
  }

  lemma FirstAttempt(s: Sys)
    requires s == Prepared()
    ensures var first := Attempt(s, 1, OLD.id, "a1", "eve", "r1");
      && first.calls == map[] && first.db.models == s.db.models && first.db.approvals == s.db.approvals
      && LastTarget(first.db.receipts, "pump") == Some(OLD.id)
      && ReceiptFor(first.db.receipts, "a1").Some? && ReceiptFor(first.db.receipts, "a2").None?
  {
    hide Prepared, Attempt, Authorises, NonBlank;
    PreparedState();
    Literals();
    AttemptEffect(s, 1, OLD, "a1", "eve", "r1");
    var first := Attempt(s, 1, OLD.id, "a1", "eve", "r1");
    var r :| first.db.receipts == s.db.receipts + [r] && r.id == "r1" && r.approvalId == "a1";
    assert first.db.receipts == [r] && r in first.db.receipts;
  }

  /**
   Reachable: no call is open, approval a1 has its receipt, alias and champion disagree, and executing a1 again, by
   anyone and however often, leaves them disagreeing.
   */
  lemma RepeatDoesNotRestore() returns (s: Sys)
    ensures Reachable(s) && s.calls == map[] && ReceiptFor(s.db.receipts, "a1").Some? && !Agrees(s, "pump")
    ensures forall t, actor, receiptId :: !Agrees(Attempt(s, t, OLD.id, "a1", actor, receiptId), "pump")
  {
    hide Prepared, Apply, Approach, Attempt, Reachable, Authorises, NonBlank, ReceiptFor;
    var start := Prepared();
    PreparedState();
    Literals();
    FirstAttempt(start);
    var first := Attempt(start, 1, OLD.id, "a1", "eve", "r1");
    ReachableLeftBehind(start);
    StopsInWindow(first, NEW, "a2", "eve");
    s := LeftBehind(start);
    assert s.alias["pump"] == 2 && s.db == first.db;
    forall t, actor, receiptId ensures !Agrees(Attempt(s, t, OLD.id, "a1", actor, receiptId), "pump") {
      RepeatChangesNothing(s, t, OLD, "a1", actor, receiptId);
    }
  }

  // ----- an archived model that comes back -----

  /** A second grant for the old model while it is still a challenger. */
  function TwiceGranted(): Sys {
    Grant(Prepared(), 0, OLD.id, "a3", "eve")
  }

  lemma UnpromotedAreRequestable(s: Sys, m: Model)
    requires SysInv(s) && ModelKnown(s.db, m) && s.db.receipts == []
    ensures Requestable(s.db.lifecycle, m.id)
  {
    assert StageInv(s.db.models, s.db.lifecycle, s.db.receipts);
    assert ReplayedStage(s.db.receipts, m) == None;
  }

  lemma TwiceGrantedState()
    ensures Reachable(TwiceGranted())
    ensures var s := TwiceGranted();
      && s.calls == map[] && s.db.receipts == [] && s.db.models == map[OLD.id := OLD, NEW.id := NEW]
      && "a1" in s.db.approvals && Authorises(s.db.approvals["a1"], OLD)
      && "a2" in s.db.approvals && Authorises(s.db.approvals["a2"], NEW)
      && "a3" in s.db.approvals && Authorises(s.db.approvals["a3"], OLD)
  {
    hide Prepared, Grant, Apply, ValidPayload, ValidProposal, Reachable, NonBlank, SysInv, Requestable;
    PreparedState();
    PreparedApprovals();
    Literals();
    ThirdLiteral();
    var s := Prepared();
    ReachableGrant(s, 0, OLD.id, "a3", "eve");
    ReachableInv(s);
    UnpromotedAreRequestable(s, OLD);
    GrantAuthorises(s, 0, OLD, "a3", "eve");
  }

  lemma ThirdLiteral()
    ensures "a3" != "a1" && "a3" != "a2" && "r3" != "r1" && "r3" != "r2"
    ensures ValidProposal(RequestProposal(OLD, "a3", Agent, None))
  {
    assert "a3"[1] != "a1"[1] && "a3"[1] != "a2"[1] && "r3"[1] != "r1"[1] && "r3"[1] != "r2"[1];
    assert !IsSpace(ENTITY_REGISTERED_MODEL[0]) && !IsSpace(OLD.id[0]);
  }

  lemma ArchivedAfterSuccessor(s: Sys, m: Model, successor: Id)
    requires SysInv(s) && ModelKnown(s.db, m) && LastTarget(s.db.receipts, m.name) == Some(successor)
    requires m.id != successor && Targeted(s.db.receipts, m.id)
    ensures m.id in s.db.lifecycle && s.db.lifecycle[m.id].Archived?
  {
  }

  /** Old model promoted, then the new one: the old one is archived, and its second approval is still unexecuted. */
  function AfterSuccessor(s: Sys): Sys {
    Attempt(Attempt(s, 1, OLD.id, "a1", "eve", "r1"), 1, NEW.id, "a2", "eve", "r2")
  }

  lemma AfterSuccessorState(s: Sys)
    requires s == TwiceGranted()
    ensures Reachable(AfterSuccessor(s))
    ensures var s' := AfterSuccessor(s);
      && s'.calls == map[] && s'.db.models == s.db.models && s'.db.approvals == s.db.approvals
      && OLD.id in s'.db.lifecycle && s'.db.lifecycle[OLD.id].Archived?
      && ReceiptFor(s'.db.receipts, "a3").None? && (forall r :: r in s'.db.receipts ==> r.id != "r3")
  {
    hide TwiceGranted, Attempt, Authorises, NonBlank, Reachable, SysInv, ReceiptFor;
    TwiceGrantedState();
    Literals();
    ThirdLiteral();
    ReachableAttempt(s, 1, OLD.id, "a1", "eve", "r1");
    PromotionGoesThrough(s, OLD, "a1", "r1");
    var s1 := Attempt(s, 1, OLD.id, "a1", "eve", "r1");
    OthersUnexecuted(s.db.receipts, s1.db.receipts, "a1", "r1", "a2", "r2");
    OthersUnexecuted(s.db.receipts, s1.db.receipts, "a1", "r1", "a3", "r3");
    ReachableAttempt(s1, 1, NEW.id, "a2", "eve", "r2");
    PromotionGoesThrough(s1, NEW, "a2", "r2");
    var s2 := Attempt(s1, 1, NEW.id, "a2", "eve", "r2");
    OthersUnexecuted(s1.db.receipts, s2.db.receipts, "a2", "r2", "a3", "r3");
    StaysTargeted(s1.db.receipts, s2.db.receipts, "pump", OLD.id);
    ReachableInv(s2);
    ArchivedAfterSuccessor(s2, OLD, NEW.id);
  }

  lemma PromotionGoesThrough(s: Sys, m: Model, approvalId: Id, receiptId: Id)
    requires s.calls == map[] && ModelKnown(s.db, m) && m.version >= 1 && NonBlank("eve")
    requires approvalId in s.db.approvals && Authorises(s.db.approvals[approvalId], m)
    requires ReceiptFor(s.db.receipts, approvalId).None? && forall r :: r in s.db.receipts ==> r.id != receiptId
    ensures var s' := Attempt(s, 1, m.id, approvalId, "eve", receiptId);
      && s'.calls == map[] && s'.db.models == s.db.models && s'.db.approvals == s.db.approvals
      && LastTarget(s'.db.receipts, m.name) == Some(m.id)
      && exists r :: s'.db.receipts == s.db.receipts + [r] && r.id == receiptId && r.approvalId == approvalId
  {
    hide Attempt, Authorises, NonBlank, ReceiptFor, Agrees;
    AttemptEffect(s, 1, m, approvalId, "eve", receiptId);
  }

  /** A receipt of one approval leaves another approval, and another id, unused. */
  lemma OthersUnexecuted(before: seq<Receipt>, after: seq<Receipt>, approvalId: Id, receiptId: Id, other: Id, id: Id)
    requires exists r :: after == before + [r] && r.id == receiptId && r.approvalId == approvalId
    requires other != approvalId && id != receiptId
    requires ReceiptFor(before, other).None? && forall r :: r in before ==> r.id != id
    ensures ReceiptFor(after, other).None? && forall r :: r in after ==> r.id != id
  {
    var x :| after == before + [x] && x.id == receiptId && x.approvalId == approvalId;
    assert forall r :: r in after ==> r in before || r == x;
  }

  lemma StaysTargeted(before: seq<Receipt>, after: seq<Receipt>, name: string, m: Id)
    requires LastTarget(before, name) == Some(m) && before <= after
    ensures Targeted(after, m)
  {
    LastTargetIsTargeted(before, name);
    var r :| r in before && IsPromotionOf(r, name) && r.outcome.modelId == m;
    var i :| 0 <= i < |before| && before[i] == r;
    assert after[i] == r;
  }

  /** Reachable: an archived model becomes champion again under a second approval granted before it was archived. */
  lemma ArchivedComesBack() returns (before: Sys, after: Sys)
    ensures Reachable(before) && OLD.id in before.db.lifecycle && before.db.lifecycle[OLD.id].Archived?
    ensures Reachable(after) && OLD.id in after.db.lifecycle && after.db.lifecycle[OLD.id].Champion?
    ensures after == Attempt(before, 1, OLD.id, "a3", "eve", "r3")
  {
    hide TwiceGranted, AfterSuccessor, Attempt, Authorises, NonBlank, Reachable, SysInv, ReceiptFor;
    TwiceGrantedState();
    Literals();
    before := AfterSuccessor(TwiceGranted());
    AfterSuccessorState(TwiceGranted());
    ReachableInv(before);
    ArchivedComesBackIff(before, 1, OLD, "a3", "eve", "r3");
    after := Attempt(before, 1, OLD.id, "a3", "eve", "r3");
    ReachableAttempt(before, 1, OLD.id, "a3", "eve", "r3");
  }
}
