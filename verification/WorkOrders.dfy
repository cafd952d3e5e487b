/** The mock CMMS: one work order and one receipt per executed `cmms_work_order` approval. */
module WorkOrders {
  import opened Wrappers
  import opened Records
  import opened ApprovalGate
  import opened Promotion

  const PAYLOAD_KEYS: set<string> := {
    "asset_id", "priority", "recommended_action", "prediction_event_id",
    "reason", "risk_score", "source_model_version", "evidence"
  }

  predicate RequiredText(p: Payload, key: string, maxLen: nat) {
    key in p && p[key].JString? && NonBlank(p[key].text) && |p[key].text| <= maxLen
  }

  predicate OptionalText(p: Payload, key: string, maxLen: nat) {
    NullAt(p, key) || (p[key].JString? && |p[key].text| <= maxLen)
  }

  predicate ValidDraftPayload(payload: Option<Payload>, entityId: Id) {
    && payload.Some? && |payload.value| > 0
    && var p := payload.value;
    && p.Keys <= PAYLOAD_KEYS
    && RequiredText(p, "asset_id", 255)
    && RequiredText(p, "priority", 32)
    && RequiredText(p, "recommended_action", 1024)
    && RequiredText(p, "prediction_event_id", 64)
    && p["prediction_event_id"].text == entityId
    && OptionalText(p, "reason", 2048)
    && (NullAt(p, "risk_score") || p["risk_score"].JNumber?)
    && OptionalText(p, "source_model_version", 32)
    && (NullAt(p, "evidence") || p["evidence"].JObject?)
  }

  predicate Draftable(a: Approval) {
    && a.action == CmmsWorkOrder && a.entityType == ENTITY_PREDICTION_EVENT && a.Executable()
    && ValidDraftPayload(a.Effective(), a.entityId)
  }

  lemma DraftableTexts(a: Approval)
    requires Draftable(a)
    ensures a.Effective().Some?
    ensures var p := a.Effective().value;
      && "asset_id" in p && p["asset_id"].JString? && "priority" in p && p["priority"].JString?
      && "recommended_action" in p && p["recommended_action"].JString?
  {
  }

  /** The row the executor builds from the payload it was handed. */
  function Draft(id: Id, approvalId: Id, p: Payload): WorkOrder
    requires "asset_id" in p && p["asset_id"].JString?
    requires "priority" in p && p["priority"].JString?
    requires "recommended_action" in p && p["recommended_action"].JString?
  {
    WorkOrder(id, approvalId, p["asset_id"].text, p["priority"].text, p["recommended_action"].text,
              TextAt(p, "reason"),
              if "risk_score" in p && p["risk_score"].JNumber? then Some(p["risk_score"].number) else None,
              if "evidence" in p && p["evidence"].JObject? then Some(p["evidence"].fields) else None,
              TextAt(p, "source_model_version"))
  }

  /** Each column holds the payload's value for its own key, and is empty exactly when the payload has none. */
  lemma DraftCarriesPayload(id: Id, approvalId: Id, p: Payload, entityId: Id)
    requires ValidDraftPayload(Some(p), entityId)
    ensures var w := Draft(id, approvalId, p);
      && w.id == id && w.approvalId == approvalId
      && p["asset_id"] == JString(w.assetId) && NonBlank(w.assetId)
      && p["priority"] == JString(w.priority) && NonBlank(w.priority)
      && p["recommended_action"] == JString(w.recommendedAction) && NonBlank(w.recommendedAction)
      && (w.reason.None? <==> NullAt(p, "reason"))
      && (w.reason.Some? ==> p["reason"] == JString(w.reason.value))
      && (w.riskScore.None? <==> NullAt(p, "risk_score"))
      && (w.riskScore.Some? ==> p["risk_score"] == JNumber(w.riskScore.value))
      && (w.evidence.None? <==> NullAt(p, "evidence"))
      && (w.evidence.Some? ==> p["evidence"] == JObject(w.evidence.value))
      && (w.sourceModelVersion.None? <==> NullAt(p, "source_model_version"))
      && (w.sourceModelVersion.Some? ==> p["source_model_version"] == JString(w.sourceModelVersion.value))
  {
  }

  predicate IdTaken(workOrders: map<Id, WorkOrder>, receipts: seq<Receipt>, workOrderId: Id, receiptId: Id) {
    || (exists a :: a in workOrders && workOrders[a].id == workOrderId)
    || (exists r :: r in receipts && r.id == receiptId)
  }

  /** Insert the work order, then the receipt, then audit; any unique violation rolls all of it back. */
  function DraftTx(db: Db, approvalId: Id, p: Payload, workOrderId: Id, receiptId: Id): Option<Db>
    requires "asset_id" in p && p["asset_id"].JString?
    requires "priority" in p && p["priority"].JString?
    requires "recommended_action" in p && p["recommended_action"].JString?
  {
    if approvalId in db.workOrders || IdTaken(db.workOrders, db.receipts, workOrderId, receiptId)
       || ReceiptBlocked(db.receipts, receiptId, approvalId) then None
    else
      Some(db.(workOrders := db.workOrders[approvalId := Draft(workOrderId, approvalId, p)],
               receipts := db.receipts + [Receipt(receiptId, approvalId, Drafted(workOrderId))],
               audit := db.audit + [WorkOrderDrafted(approvalId, workOrderId)]))
  }

  /** The receipt of an approval, if its action has been executed. */
  function ReceiptFor(receipts: seq<Receipt>, approvalId: Id): (r: Option<Receipt>)
    ensures r.Some? ==> r.value in receipts && r.value.approvalId == approvalId
    ensures r.None? ==> forall x :: x in receipts ==> x.approvalId != approvalId
  {
    if receipts == [] then None
    else if receipts[0].approvalId == approvalId then Some(receipts[0])
    else ReceiptFor(receipts[1..], approvalId)
  }

  ghost predicate ReceiptKeys(receipts: seq<Receipt>) {
    forall r, q :: r in receipts && q in receipts && (r.id == q.id || r.approvalId == q.approvalId) ==> r == q
  }

  /** Every receipt is the receipt of a decided approval whose effective payload asked for that outcome. */
  ghost predicate Authorised(approvals: Approvals, models: Models, r: Receipt) {
    && r.approvalId in approvals
    && match r.outcome
       case Promotion(m, name, version, status, archived) =>
         m in models && Authorises(approvals[r.approvalId], models[m])
         && models[m].id == m
         && status == approvals[r.approvalId].status
       case Drafted(_) => Draftable(approvals[r.approvalId])
  }

  ghost predicate ReceiptsInv(approvals: Approvals, models: Models, receipts: seq<Receipt>) {
    && ReceiptKeys(receipts)
    && forall r :: r in receipts ==> Authorised(approvals, models, r)
  }

  /** Work orders and draft receipts correspond one to one, and each row equals its frozen payload. */
  ghost predicate WorkOrdersInv(approvals: Approvals, receipts: seq<Receipt>, workOrders: map<Id, WorkOrder>) {
    && (forall a :: a in workOrders ==>
          && a in approvals && Draftable(approvals[a])
          && workOrders[a] == Draft(workOrders[a].id, a, approvals[a].Effective().value)
          && exists r :: r in receipts && r.approvalId == a && r.outcome == Drafted(workOrders[a].id))
    && (forall r :: r in receipts && r.outcome.Drafted? ==> r.approvalId in workOrders)
  }

  /** For a work-order approval, having a receipt and having a work order are the same thing. */
  lemma WorkOrderIffReceipt(approvals: Approvals, models: Models, receipts: seq<Receipt>,
                            workOrders: map<Id, WorkOrder>, a: Id)
    requires ReceiptsInv(approvals, models, receipts) && WorkOrdersInv(approvals, receipts, workOrders)
    requires a in approvals && approvals[a].action == CmmsWorkOrder
    ensures a in workOrders <==> ReceiptFor(receipts, a).Some?
    ensures a in workOrders ==> ReceiptFor(receipts, a).value.outcome == Drafted(workOrders[a].id)
  {
  }

  lemma FrozenKeepsAuthority(t: Approvals, t': Approvals, models: Models, models': Models, r: Receipt)
    requires Frozen(t, t') && Authorised(t, models, r)
    requires forall m :: m in models ==> m in models' && models'[m] == models[m]
    ensures Authorised(t', models', r)
  {
  }

  lemma FrozenKeepsWorkOrders(t: Approvals, t': Approvals, receipts: seq<Receipt>, workOrders: map<Id, WorkOrder>)
    requires Frozen(t, t') && WorkOrdersInv(t, receipts, workOrders)
    ensures WorkOrdersInv(t', receipts, workOrders)
  {
  }

  lemma AppendKeepsReceipts(t: Approvals, models: Models, receipts: seq<Receipt>, r: Receipt)
    requires ReceiptsInv(t, models, receipts) && Authorised(t, models, r)
    requires !ReceiptBlocked(receipts, r.id, r.approvalId)
    ensures ReceiptsInv(t, models, receipts + [r])
  {
  }

  lemma PromotionKeepsWorkOrders(t: Approvals, receipts: seq<Receipt>, workOrders: map<Id, WorkOrder>, r: Receipt)
    requires WorkOrdersInv(t, receipts, workOrders) && r.outcome.Promotion?
    ensures WorkOrdersInv(t, receipts + [r], workOrders)
  {
  }

  /** The draft transaction keeps work orders and receipts in step. */
  lemma DraftKeepsWorkOrders(db: Db, a: Id, workOrderId: Id, receiptId: Id)
    requires WorkOrdersInv(db.approvals, db.receipts, db.workOrders)
    requires a in db.approvals && Draftable(db.approvals[a])
    requires DraftTx(db, a, db.approvals[a].Effective().value, workOrderId, receiptId).Some?
    ensures var db' := DraftTx(db, a, db.approvals[a].Effective().value, workOrderId, receiptId).value;
            WorkOrdersInv(db'.approvals, db'.receipts, db'.workOrders)
  {
    var w := Draft(workOrderId, a, db.approvals[a].Effective().value);
    AddedDraft(db.approvals, db.receipts, db.workOrders, a, w, Receipt(receiptId, a, Drafted(workOrderId)));
  }

  lemma AddedDraft(t: Approvals, receipts: seq<Receipt>, workOrders: map<Id, WorkOrder>, a: Id, w: WorkOrder,
                   r: Receipt)
    requires WorkOrdersInv(t, receipts, workOrders) && a !in workOrders
    requires a in t && Draftable(t[a]) && w == Draft(w.id, a, t[a].Effective().value)
    requires r.approvalId == a && r.outcome == Drafted(w.id)
    ensures WorkOrdersInv(t, receipts + [r], workOrders[a := w])
  {
    hide Draftable, Draft, ValidDraftPayload;
    DraftableTexts(t[a]);
    assert forall x :: x in receipts + [r] <==> x in receipts || x == r;
    var changed := workOrders[a := w];
    forall b | b in changed
      ensures exists x :: x in receipts + [r] && x.approvalId == b && x.outcome == Drafted(changed[b].id)
    {
      if b == a {
        assert r in receipts + [r];
      } else {
        var x :| x in receipts && x.approvalId == b && x.outcome == Drafted(workOrders[b].id);
        assert x in receipts + [r];
      }
    }
  }

  /** A unique violation at the draft transaction has one cause besides an id collision: a sibling already committed. */
  lemma DraftFailsOnlyOnReplay(db: Db, a: Id, p: Payload, workOrderId: Id, receiptId: Id)
    requires ReceiptsInv(db.approvals, db.models, db.receipts)
    requires WorkOrdersInv(db.approvals, db.receipts, db.workOrders)
    requires a in db.approvals && Draftable(db.approvals[a]) && p == db.approvals[a].Effective().value
    ensures DraftTx(db, a, p, workOrderId, receiptId).None? <==>
            a in db.workOrders || IdTaken(db.workOrders, db.receipts, workOrderId, receiptId)
  {
  }
}
