/**
 The database as a whole: what every committed transaction of the gated services keeps, and how the
 tables may grow. Each transaction is one atomic function from a database to its successor.
 */
module Ledger {
  import opened Wrappers
  import opened Records
  import opened ApprovalGate
  import opened Promotion
  import opened WorkOrders

  function ProposeTx(db: Db, p: Proposal): Option<Db> {
    match Insert(db.approvals, NewRow(p))
    case None => None
    case Some(t) => Some(db.(approvals := t, audit := db.audit + [Proposed(p.id)]))
  }

  function DecideTx(db: Db, id: Id, expected: nat, v: Verdict): Option<Db>
    requires !v.decision.UnknownDecision?
  {
    match Transition(db.approvals, id, expected, v)
    case None => None
    case Some(t) => Some(db.(approvals := t, audit := db.audit + [Decided(id, StatusFor(v.decision), v.actor)]))
  }

  /** A registration committed by the registry service. */
  function AddModel(db: Db, m: Model): Db {
    if m.id in db.models then db
    else db.(models := db.models[m.id := m], modelOrder := db.modelOrder + [m.id])
  }

  // ----- the execution trail -----

  datatype Execution = PromotedBy(approvalId: Id, modelId: Id, archived: seq<Id>)
      | DraftedBy(approvalId: Id, workOrderId: Id)

  function Executions(audit: seq<AuditEvent>): seq<Execution> {
    if audit == [] then []
    else
      var last := audit[|audit| - 1];
      Executions(audit[..|audit| - 1]) +
      match last
      case ChampionPromoted(a, m, archived, _) => [PromotedBy(a, m, archived)]
      case WorkOrderDrafted(a, w) => [DraftedBy(a, w)]
      case _ => []
  }

  function Executed(r: Receipt): Execution {
    match r.outcome
    case Promotion(m, _, _, _, archived) => PromotedBy(r.approvalId, m, archived)
    case Drafted(w) => DraftedBy(r.approvalId, w)
  }

  function Performed(receipts: seq<Receipt>): seq<Execution> {
    if receipts == [] then [] else Performed(receipts[..|receipts| - 1]) + [Executed(receipts[|receipts| - 1])]
  }

  /** The audit log records the executed actions exactly as the receipts do, in the same order. */
  ghost predicate TrailInv(audit: seq<AuditEvent>, receipts: seq<Receipt>) {
    Executions(audit) == Performed(receipts)
  }

  lemma TrailOther(audit: seq<AuditEvent>, receipts: seq<Receipt>, e: AuditEvent)
    requires TrailInv(audit, receipts) && !e.ChampionPromoted? && !e.WorkOrderDrafted?
    ensures TrailInv(audit + [e], receipts)
  {
  }

  // ----- the database invariant and the growth relation -----

  ghost predicate DbInv(db: Db) {
    && TableInv(db.approvals)
    && DecisionTrail(db.approvals, db.audit)
    && OrderInv(db.models, db.modelOrder)
    && StageInv(db.models, db.lifecycle, db.receipts)
    && NamesInv(db.models, db.receipts)
    && ArchivedInv(db.receipts)
    && ReceiptsInv(db.approvals, db.models, db.receipts)
    && WorkOrdersInv(db.approvals, db.receipts, db.workOrders)
    && RequestedInv(db.approvals, db.lifecycle)
    && TrailInv(db.audit, db.receipts)
  }

  ghost predicate Extended<V>(m: map<Id, V>, m': map<Id, V>) {
    forall k :: k in m ==> k in m' && m'[k] == m[k]
  }

  /** Requests and decided rows are frozen, models and work orders immutable, the logs append-only. */
  ghost predicate Grows(db: Db, db': Db) {
    && Frozen(db.approvals, db'.approvals)
    && Extended(db.models, db'.models)
    && Extended(db.workOrders, db'.workOrders)
    && db.lifecycle.Keys <= db'.lifecycle.Keys
    && db.receipts <= db'.receipts
    && db.audit <= db'.audit
    && db.events <= db'.events
  }

  lemma GrowsTransitive(a: Db, b: Db, c: Db)
    requires Grows(a, b) && Grows(b, c)
    ensures Grows(a, c)
  {
  }

  const EmptyDb := Db(map[], map[], [], map[], [], map[], {}, [])

  lemma ApprovalsMoved(db: Db, t: Approvals, audit: seq<AuditEvent>)
    requires DbInv(db) && Frozen(db.approvals, t) && TableInv(t)
    requires DecisionTrail(t, audit) && TrailInv(audit, db.receipts) && db.audit <= audit
    ensures DbInv(db.(approvals := t, audit := audit)) && Grows(db, db.(approvals := t, audit := audit))
  {
    forall r | r in db.receipts ensures Authorised(t, db.models, r) {
      FrozenKeepsAuthority(db.approvals, t, db.models, db.models, r);
    }
    FrozenKeepsWorkOrders(db.approvals, t, db.receipts, db.workOrders);
    forall m | m in db.lifecycle
      ensures exists a :: a in t && SameTarget(t[a], ModelPromotion, ENTITY_REGISTERED_MODEL, m)
    {
      var a :| a in db.approvals && SameTarget(db.approvals[a], ModelPromotion, ENTITY_REGISTERED_MODEL, m);
      assert a in t && SameTarget(t[a], ModelPromotion, ENTITY_REGISTERED_MODEL, m);
    }
  }

  lemma ProposeKeeps(db: Db, p: Proposal)
    requires DbInv(db) && ProposeTx(db, p).Some?
    ensures DbInv(ProposeTx(db, p).value) && Grows(db, ProposeTx(db, p).value)
  {
    var a := NewRow(p);
    InsertKeeps(db.approvals, a);
    InsertTrail(db.approvals, a, db.audit);
    TrailOther(db.audit, db.receipts, Proposed(p.id));
    ApprovalsMoved(db, Insert(db.approvals, a).value, db.audit + [Proposed(p.id)]);
  }

  lemma DecideKeeps(db: Db, id: Id, expected: nat, v: Verdict)
    requires DbInv(db) && ValidVerdict(v) && DecideTx(db, id, expected, v).Some?
    ensures DbInv(DecideTx(db, id, expected, v).value) && Grows(db, DecideTx(db, id, expected, v).value)
  {
    var e := Decided(id, StatusFor(v.decision), v.actor);
    TransitionKeeps(db.approvals, id, expected, v);
    TransitionTrail(db.approvals, id, expected, v, db.audit);
    TrailOther(db.audit, db.receipts, e);
    ApprovalsMoved(db, Transition(db.approvals, id, expected, v).value, db.audit + [e]);
  }

  lemma NewModelKeepsStages(models: Models, lifecycle: Lifecycle, receipts: seq<Receipt>, m: Model)
    requires StageInv(models, lifecycle, receipts) && NamesInv(models, receipts) && m.id !in models
    ensures StageInv(models[m.id := m], lifecycle, receipts) && NamesInv(models[m.id := m], receipts)
  {
    LastTargetIsTargeted(receipts, m.name);
  }

  lemma NewModelKeepsOrder(models: Models, order: seq<Id>, m: Model)
    requires OrderInv(models, order) && m.id !in models
    ensures OrderInv(models[m.id := m], order + [m.id])
  {
  }

  lemma NewModelKeepsReceipts(t: Approvals, models: Models, receipts: seq<Receipt>, m: Model)
    requires ReceiptsInv(t, models, receipts) && m.id !in models
    ensures ReceiptsInv(t, models[m.id := m], receipts)
  {
  }

  lemma AddModelKeeps(db: Db, m: Model)
    requires DbInv(db)
    ensures DbInv(AddModel(db, m)) && Grows(db, AddModel(db, m))
  {
    if m.id !in db.models {
      NewModelKeepsStages(db.models, db.lifecycle, db.receipts, m);
      NewModelKeepsOrder(db.models, db.modelOrder, m);
      NewModelKeepsReceipts(db.approvals, db.models, db.receipts, m);
    }
  }

  lemma ChallengerKeepsOverlay(models: Models, lifecycle: Lifecycle, receipts: seq<Receipt>, approvals: Approvals,
                               m: Id, approvalId: Id)
    requires StageInv(models, lifecycle, receipts) && RequestedInv(approvals, lifecycle)
    requires m in models && m !in lifecycle && approvalId in approvals
    requires SameTarget(approvals[approvalId], ModelPromotion, ENTITY_REGISTERED_MODEL, m)
    ensures StageInv(models, lifecycle[m := Challenger], receipts)
    ensures RequestedInv(approvals, lifecycle[m := Challenger])
  {
  }

  lemma EnsureChallengerKeeps(db: Db, m: Id, approvalId: Id)
    requires DbInv(db) && m in db.models && m !in db.lifecycle && approvalId in db.approvals
    requires SameTarget(db.approvals[approvalId], ModelPromotion, ENTITY_REGISTERED_MODEL, m)
    ensures DbInv(db.(lifecycle := db.lifecycle[m := Challenger]))
  {
    ChallengerKeepsOverlay(db.models, db.lifecycle, db.receipts, db.approvals, m, approvalId);
  }

  lemma NoteChallengerKeeps(db: Db, m: Id)
    requires DbInv(db)
    ensures DbInv(db.(audit := db.audit + [ChallengerEnsured(m)]))
  {
  }

  /** A request that creates the overlay row is: note the challenger, propose, insert the row. */
  lemma RequestSplits(db: Db, m: Model, approvalId: Id, requester: Requester, requesterId: Option<string>)
    requires RequestTx(db, m, approvalId, requester, requesterId).Some?
    ensures var p := RequestProposal(m, approvalId, requester, requesterId);
            var db' := RequestTx(db, m, approvalId, requester, requesterId).value;
            if m.id in db.lifecycle then ProposeTx(db, p) == Some(db')
            else
              var noted := db.(audit := db.audit + [ChallengerEnsured(m.id)]);
              && ProposeTx(noted, p).Some?
              && var proposed := ProposeTx(noted, p).value;
              && approvalId in proposed.approvals
              && SameTarget(proposed.approvals[approvalId], ModelPromotion, ENTITY_REGISTERED_MODEL, m.id)
              && proposed.models == db.models && proposed.lifecycle == db.lifecycle
              && db' == proposed.(lifecycle := db.lifecycle[m.id := Challenger])
  {
    assert db.audit + [] + [Proposed(approvalId)] == db.audit + [Proposed(approvalId)];
  }

  lemma RequestGrows(db: Db, m: Model, approvalId: Id, requester: Requester, requesterId: Option<string>)
    requires RequestTx(db, m, approvalId, requester, requesterId).Some?
    ensures Grows(db, RequestTx(db, m, approvalId, requester, requesterId).value)
  {
  }

  lemma RequestKeeps(db: Db, m: Model, approvalId: Id, requester: Requester, requesterId: Option<string>)
    requires DbInv(db) && m.id in db.models
    requires RequestTx(db, m, approvalId, requester, requesterId).Some?
    ensures DbInv(RequestTx(db, m, approvalId, requester, requesterId).value)
  {
    var p := RequestProposal(m, approvalId, requester, requesterId);
    RequestSplits(db, m, approvalId, requester, requesterId);
    if m.id in db.lifecycle {
      ProposeKeeps(db, p);
    } else {
      var noted := db.(audit := db.audit + [ChallengerEnsured(m.id)]);
      NoteChallengerKeeps(db, m.id);
      ProposeKeeps(noted, p);
      EnsureChallengerKeeps(ProposeTx(noted, p).value, m.id, approvalId);
    }
  }

  lemma PromotionKeepsRequested(approvals: Approvals, lifecycle: Lifecycle, retired: seq<Id>, target: Model, a: Id)
    requires RequestedInv(approvals, lifecycle) && a in approvals && Authorises(approvals[a], target)
    ensures RequestedInv(approvals, Promoted(lifecycle, retired, target.id))
  {
  }

  lemma ExecutionKeepsTrails(db: Db, e: AuditEvent, r: Receipt)
    requires DecisionTrail(db.approvals, db.audit) && TrailInv(db.audit, db.receipts)
    requires match e
             case ChampionPromoted(a, m, archived, _) => Executed(r) == PromotedBy(a, m, archived)
             case WorkOrderDrafted(a, w) => Executed(r) == DraftedBy(a, w)
             case _ => false
    ensures DecisionTrail(db.approvals, db.audit + [e]) && TrailInv(db.audit + [e], db.receipts + [r])
  {
  }

  lemma PromoteKeeps(db: Db, target: Model, approvalId: Id, status: ApprovalStatus, actor: string, receiptId: Id)
    requires DbInv(db) && target.id in db.models && db.models[target.id] == target
    requires approvalId in db.approvals && Authorises(db.approvals[approvalId], target)
    requires status == db.approvals[approvalId].status
    requires PromoteTx(db, target, approvalId, status, actor, receiptId).Some?
    ensures var db' := PromoteTx(db, target, approvalId, status, actor, receiptId).value; DbInv(db') && Grows(db, db')
  {
    hide ReceiptsInv, WorkOrdersInv, StageInv, NamesInv, ArchivedInv, TrailInv, DecisionTrail, TableInv, RequestedInv,
         Champions, NamedIds;
    var archived := Champions(NamedIds(db.modelOrder, db.models, target.name), db.lifecycle, target.id);
    var r := PromotionReceipt(receiptId, approvalId, target, status, archived);
    PromoteKeepsReplay(db, target, approvalId, status, actor, receiptId);
    PromotionKeepsRequested(db.approvals, db.lifecycle, archived, target, approvalId);
    AppendKeepsReceipts(db.approvals, db.models, db.receipts, r);
    PromotionKeepsWorkOrders(db.approvals, db.receipts, db.workOrders, r);
    ExecutionKeepsTrails(db, ChampionPromoted(approvalId, target.id, archived, actor), r);
  }

  lemma DraftKeeps(db: Db, a: Id, workOrderId: Id, receiptId: Id)
    requires DbInv(db) && a in db.approvals && Draftable(db.approvals[a])
    requires DraftTx(db, a, db.approvals[a].Effective().value, workOrderId, receiptId).Some?
    ensures var db' := DraftTx(db, a, db.approvals[a].Effective().value, workOrderId, receiptId).value;
            DbInv(db') && Grows(db, db')
  {
    hide ReceiptsInv, WorkOrdersInv, StageInv, NamesInv, ArchivedInv, TrailInv, DecisionTrail, TableInv, OrderInv,
         RequestedInv, ValidDraftPayload, Draft, IdTaken, Authorises;
    var r := Receipt(receiptId, a, Drafted(workOrderId));
    DraftKeepsWorkOrders(db, a, workOrderId, receiptId);
    AppendKeepsReceipts(db.approvals, db.models, db.receipts, r);
    OtherReceiptKeepsReplay(db.models, db.lifecycle, db.receipts, r);
    ExecutionKeepsTrails(db, WorkOrderDrafted(a, workOrderId), r);
  }
}
