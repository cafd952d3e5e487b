/** What holds in every state the interleaved services can reach, and between any two such states. */
module Guarantees {
  import opened Wrappers
  import opened Records
  import opened ApprovalGate
  import opened Promotion
  import opened WorkOrders
  import opened Ledger
  import opened Protocol

  function Reached(trace: Trace): Db {
    Run(Init, trace).db
  }

  lemma ReachedInv(trace: Trace)
    ensures SysInv(Run(Init, trace))
  {
    InitInv();
    RunKeeps(Init, trace);
  }

  /**
   The lifecycle table is a replay of the promotion receipts in commit order: champion means target of
   the latest receipt of its name, archived means targeted only by earlier ones, and a model no receipt
   names is at most a challenger. Each receipt archives exactly the previous target of its name.
   */
  lemma LifecycleIsReplay(trace: Trace)
    ensures forall m :: m in Reached(trace).models ==>
      var db := Reached(trace);
      var name := db.models[m].name;
      && ((m in db.lifecycle && db.lifecycle[m].Champion?) <==> LastTarget(db.receipts, name) == Some(m))
      && ((m in db.lifecycle && db.lifecycle[m].Archived?) <==>
          Targeted(db.receipts, m) && LastTarget(db.receipts, name) != Some(m))
      && (m in db.lifecycle && db.lifecycle[m].Challenger? ==> !Targeted(db.receipts, m))
    ensures forall i :: 0 <= i < |Reached(trace).receipts| && Reached(trace).receipts[i].outcome.Promotion? ==>
      var log := Reached(trace).receipts;
      log[i].outcome.archived == Superseded(log[..i], log[i].outcome.name, log[i].outcome.modelId)
  {
    ReachedInv(trace);
    var db := Reached(trace);
    forall m | m in db.models && LastTarget(db.receipts, db.models[m].name) == Some(m)
      ensures Targeted(db.receipts, m)
    {
      LastTargetIsTargeted(db.receipts, db.models[m].name);
    }
  }

  /** At most one champion per name, and exactly one once any promotion of the name has committed. */
  lemma OneChampionPerName(trace: Trace, name: string)
    ensures var db := Reached(trace);
      var champions := set m | m in db.models && db.models[m].name == name && m in db.lifecycle
          && db.lifecycle[m].Champion?;
      && |champions| <= 1
      && (|champions| == 1 <==> exists r :: r in db.receipts && IsPromotionOf(r, name))
  {
    ReachedInv(trace);
    var db := Reached(trace);
    InvariantParts(db);
    hide DbInv, CallsOk, RepliesOk, Reached, StageInv, NamesInv;
    ReplayGivesOneChampion(db.models, db.lifecycle, db.receipts, name);
    LastTargetIsTargeted(db.receipts, name);
  }

  /**
   Nothing was executed without its approval: at most one receipt per approval, and each promotion
   receipt belongs to an approved or modified promotion approval of that very model. The payload executed, the
   human's after a modification, names the promoted model and contradicts neither its name nor its version.
   Every overlay row was requested or approved for its model.
   */
  lemma ExecutionsAreAuthorised(trace: Trace)
    ensures ReceiptKeys(Reached(trace).receipts)
    ensures forall r :: r in Reached(trace).receipts ==> r.approvalId in Reached(trace).approvals
    ensures forall r :: r in Reached(trace).receipts && r.outcome.Promotion? ==>
      var db := Reached(trace);
      r.outcome.modelId in db.models && Authorises(db.approvals[r.approvalId], db.models[r.outcome.modelId])
    ensures forall r :: r in Reached(trace).receipts && r.outcome.Promotion? ==>
      && var approval := Reached(trace).approvals[r.approvalId];
      && var model := Reached(trace).models[r.outcome.modelId];
      && model.id == r.outcome.modelId && model.name == r.outcome.name && model.version == r.outcome.version
      && approval.action == ModelPromotion && approval.entityType == "registered_model"
      && approval.entityId == model.id
      && (approval.status == Approved || approval.status == Modified) && r.outcome.approvalStatus == approval.status
      && var payload := if approval.status == Modified then approval.decision else approval.proposed;
      && payload.Some?
      && "registered_model_id" in payload.value && payload.value["registered_model_id"] == JString(model.id)
      && ("name" in payload.value ==> payload.value["name"] == JString(model.name))
      && ("version" in payload.value ==> payload.value["version"] == JString(Decimal(model.version)))
    ensures forall r :: r in Reached(trace).receipts && r.outcome.Drafted? ==>
      Draftable(Reached(trace).approvals[r.approvalId])
    ensures forall m :: m in Reached(trace).lifecycle ==>
      exists a :: a in Reached(trace).approvals
               && SameTarget(Reached(trace).approvals[a], ModelPromotion, ENTITY_REGISTERED_MODEL, m)
  {
    ReachedInv(trace);
  }

  /**
   Racing deciders and proposers: one pending request per target, one decision event per decided
   approval and none per pending one, and the version says which it is.
   */
  lemma DecidedAtMostOnce(trace: Trace)
    ensures TableInv(Reached(trace).approvals)
    ensures forall id :: DecisionCount(Reached(trace).audit, id) ==
                         if id in Reached(trace).approvals && Reached(trace).approvals[id].version == 2 then 1 else 0
    ensures forall e :: e in Reached(trace).audit && e.Decided? ==>
      && e.approvalId in Reached(trace).approvals
      && Reached(trace).approvals[e.approvalId].status == e.status
      && Reached(trace).approvals[e.approvalId].decidedBy == Some(e.actor)
  {
    ReachedInv(trace);
  }

  /**
   An undisturbed proposal under an unused id enters exactly when its fields are acceptable and no request for the same
   action on the same entity is pending; requests for anything else do not stand in its way.
   */
  lemma ProposesIff(s: Sys, t: Tid, p: Proposal)
    requires t !in s.calls && p.id !in s.db.approvals
    ensures var s' := Apply(Apply(s, t, BeginPropose(p)), t, CommitPropose);
      var free := forall id :: id in s.db.approvals && s.db.approvals[id].status == Pending ==>
                    || s.db.approvals[id].action != p.action
                    || s.db.approvals[id].entityType != p.entityType
                    || s.db.approvals[id].entityId != p.entityId;
      && s' == s.(db := s'.db)
      && (!ValidProposal(p) || !free ==> s'.db == s.db)
      && (ValidProposal(p) && free ==>
            s'.db == s.db.(approvals := s.db.approvals[p.id := NewRow(p)], audit := s.db.audit + [Proposed(p.id)]))
  {
    hide ValidProposal, NewRow;
    NewRowColumns(p);
    assert (s.calls[t := Proposing(p)]) - {t} == s.calls;
  }

  lemma NewRowColumns(p: Proposal)
    ensures var a := NewRow(p);
      && a.id == p.id && a.action == p.action && a.entityType == p.entityType && a.entityId == p.entityId
      && a.status == Pending && a.proposed == p.payload && a.version == 1
  {
  }

  /**
   An undisturbed decision takes effect exactly when it is valid, its approval is pending, and the version it was made
   against, if it names one, is the stored one; otherwise it leaves the database as it was.
   */
  lemma DecidesTheVersionSeen(s: Sys, t: Tid, id: Id, v: Verdict, version: Option<nat>)
    requires t !in s.calls
    ensures var s' := Apply(Apply(s, t, BeginDecide(id, v, version)), t, CommitDecide);
      var taken := && ValidVerdict(v) && id in s.db.approvals && s.db.approvals[id].status == Pending
                   && (version.Some? ==> version.value >= 1 && version.value == s.db.approvals[id].version);
      && s' == s.(db := s'.db)
      && (!taken ==> s'.db == s.db)
      && (taken ==>
            && id in s'.db.approvals && s'.db.approvals == s.db.approvals[id := s'.db.approvals[id]]
            && s'.db.approvals[id].status == (match v.decision
                                              case Approve => Approved
                                              case Reject => Rejected
                                              case _ => Modified)
            && s'.db.approvals[id].decision == v.payload && s'.db.approvals[id].decidedBy == Some(v.actor)
            && s'.db.audit == s.db.audit + [Decided(id, s'.db.approvals[id].status, v.actor)])
  {
    hide ValidVerdict, NonBlank;
    if ValidVerdict(v) && id in s.db.approvals {
      KnownDecision(v);
      var expected := if version.Some? then version.value else s.db.approvals[id].version;
      assert (s.calls[t := Deciding(id, expected, v)]) - {t} == s.calls;
    }
  }

  lemma KnownDecision(v: Verdict)
    requires ValidVerdict(v)
    ensures !v.decision.UnknownDecision?
  {
  }

  lemma {:induction false} RunSplits(s: Sys, a: Trace, b: Trace)
    ensures Run(s, a + b) == Run(Run(s, a), b)
  {
    if b == [] {
      assert a + b == a;
    } else {
      var n := |b| - 1;
      RunSplits(s, a, b[..n]);
      assert (a + b)[..|a + b| - 1] == a + b[..n];
    }
  }

  /**
   Whatever happens later, a decided approval never changes, a pending one keeps its request, models
   and work orders keep their rows, and receipts and audit events are only ever appended.
   */
  lemma HistoryIsAppendOnly(before: Trace, after: Trace)
    ensures Grows(Reached(before), Reached(before + after))
  {
    RunSplits(Init, before, after);
    ReachedInv(before);
    RunKeeps(Run(Init, before), after);
  }

  /** The audit log tells the same story as the receipts: same executions, same order. */
  lemma AuditMatchesReceipts(trace: Trace)
    ensures Executions(Reached(trace).audit) == Performed(Reached(trace).receipts)
  {
    ReachedInv(trace);
  }

  /**
   A work-order approval has a work order exactly when it has a receipt; the row carries the frozen
   effective payload, and the receipt names the row.
   */
  lemma WorkOrdersMatchReceipts(trace: Trace, a: Id)
    requires a in Reached(trace).approvals && Reached(trace).approvals[a].action == CmmsWorkOrder
    ensures a in Reached(trace).workOrders <==> ReceiptFor(Reached(trace).receipts, a).Some?
    ensures a in Reached(trace).workOrders ==>
      var db := Reached(trace);
      var w := db.workOrders[a];
      && Draftable(db.approvals[a])
      && w == Draft(w.id, a, db.approvals[a].Effective().value)
      && ReceiptFor(db.receipts, a).value.outcome == Drafted(w.id)
  {
    ReachedInv(trace);
    var db := Reached(trace);
    WorkOrderIffReceipt(db.approvals, db.models, db.receipts, db.workOrders, a);
  }

  /** Every work order, in every reachable state, carries the frozen payload column by column. */
  lemma WorkOrdersCarryTheirPayload(trace: Trace, a: Id)
    requires a in Reached(trace).workOrders
    ensures a in Reached(trace).approvals && Reached(trace).approvals[a].Effective().Some?
    ensures var p, w := Reached(trace).approvals[a].Effective().value, Reached(trace).workOrders[a];
      && w.approvalId == a
      && "prediction_event_id" in p && p["prediction_event_id"] == JString(Reached(trace).approvals[a].entityId)
      && "asset_id" in p && p["asset_id"] == JString(w.assetId)
      && "priority" in p && p["priority"] == JString(w.priority)
      && "recommended_action" in p && p["recommended_action"] == JString(w.recommendedAction)
      && (if w.reason.Some? then "reason" in p && p["reason"] == JString(w.reason.value) else NullAt(p, "reason"))
      && (if w.riskScore.Some? then "risk_score" in p && p["risk_score"] == JNumber(w.riskScore.value)
          else NullAt(p, "risk_score"))
      && (if w.evidence.Some? then "evidence" in p && p["evidence"] == JObject(w.evidence.value)
         else NullAt(p, "evidence"))
      && (if w.sourceModelVersion.Some?
          then "source_model_version" in p && p["source_model_version"] == JString(w.sourceModelVersion.value)
          else NullAt(p, "source_model_version"))
  {
    ReachedInv(trace);
    var db := Reached(trace);
    InvariantParts(db);
    hide DbInv, Reached, CallsOk, RepliesOk, ReceiptsInv;
    assert Draftable(db.approvals[a]);
    DraftCarriesPayload(db.workOrders[a].id, a, db.approvals[a].Effective().value, db.approvals[a].entityId);
  }

  /** All replies about one approval, by whichever racing or repeated caller, name the same ids. */
  lemma RepliesAgree(trace: Trace, r: Reply, q: Reply)
    requires r in Run(Init, trace).replies && q in Run(Init, trace).replies
    requires r.approvalId == q.approvalId
    ensures r.DraftReply? && q.DraftReply? ==>
      r.workOrderId == q.workOrderId && r.receipt == q.receipt && r.receipt.Some?
    ensures r.PromotionReply? && q.PromotionReply? ==> r.receiptId == q.receiptId
    ensures r.PromotionReply? && q.DraftReply? ==> q.receipt == Some(r.receiptId)
  {
    ReachedInv(trace);
    var db := Reached(trace);
    assert ReplyOk(db, r) && ReplyOk(db, q);
    assert ReceiptKeys(db.receipts);
  }

  /**
   After a unique violation the draft call looks for the row that won. It is missing only if one of
   the two freshly drawn ids was already in use, so with unused ids the error branch is unreachable.
   */
  lemma BlockedDraftFindsItsWinner(trace: Trace, t: Tid)
    requires t in Run(Init, trace).calls
    requires var c := Run(Init, trace).calls[t]; c.Drafting? && c.point.DraftBlocked?
    ensures var s := Run(Init, trace);
      var c := s.calls[t];
      c.approval.id in s.db.workOrders
      || IdTaken(s.db.workOrders, s.db.receipts, c.point.workOrderId, c.point.receiptId)
  {
    ReachedInv(trace);
  }

  /**
   The commit step of a draft that drew unused ids leaves its approval with a work order, whether it wrote the row
   itself or lost to another caller, and the row is there ever after: the branch without a work order is unreachable.
   */
  lemma DraftCommitSettles(trace: Trace, t: Tid, workOrderId: Id, receiptId: Id, more: Trace)
    requires t in Run(Init, trace).calls
    requires Run(Init, trace).calls[t].Drafting? && Run(Init, trace).calls[t].point.DraftAbsent?
    requires !IdTaken(Reached(trace).workOrders, Reached(trace).receipts, workOrderId, receiptId)
    ensures var a := Run(Init, trace).calls[t].approval.id;
      var committed := trace + [(t, CommitDraft(workOrderId, receiptId))];
      a in Reached(committed).workOrders && a in Reached(committed + more).workOrders
  {
    var s := Run(Init, trace);
    var committed := trace + [(t, CommitDraft(workOrderId, receiptId))];
    assert committed[..|trace|] == trace;
    assert Run(Init, committed) == Apply(s, t, CommitDraft(workOrderId, receiptId));
    hide Run, Apply, IdTaken;
    ReachedInv(trace);
    DraftCommitFinds(s, t, workOrderId, receiptId);
    HistoryIsAppendOnly(committed, more);
  }

  lemma DraftCommitFinds(s: Sys, t: Tid, workOrderId: Id, receiptId: Id)
    requires SysInv(s) && t in s.calls && s.calls[t].Drafting? && s.calls[t].point.DraftAbsent?
    requires !IdTaken(s.db.workOrders, s.db.receipts, workOrderId, receiptId)
    ensures s.calls[t].approval.id in Apply(s, t, CommitDraft(workOrderId, receiptId)).db.workOrders
  {
    var c := s.calls[t];
    InvariantParts(s.db);
    assert CallOk(s.db, c);
    hide DbInv, ReceiptsInv, WorkOrdersInv, RepliesOk, IdTaken, DraftTx, Draftable;
    DraftableTexts(c.approval);
    DraftFailsOnlyOnReplay(s.db, c.approval.id, c.approval.Effective().value, workOrderId, receiptId);
    DraftCommitShape(s, t, c, workOrderId, receiptId);
    DraftAdded(s.db, c.approval.id, c.approval.Effective().value, workOrderId, receiptId);
    hide AdvanceDraft;
    assert Apply(s, t, CommitDraft(workOrderId, receiptId)) == AdvanceDraft(s, t, c,
           CommitDraft(workOrderId, receiptId));
  }

  lemma DraftAdded(db: Db, a: Id, p: Payload, workOrderId: Id, receiptId: Id)
    requires "asset_id" in p && p["asset_id"].JString? && "priority" in p && p["priority"].JString?
    requires "recommended_action" in p && p["recommended_action"].JString?
    ensures var tx := DraftTx(db, a, p, workOrderId, receiptId); tx.Some? ==> a in tx.value.workOrders
  {
  }

  /** A call cleared to move the alias is still cleared when it commits, however late that is. */
  lemma ClearanceOutlivesTheWait(trace: Trace, t: Tid)
    requires t in Run(Init, trace).calls
    requires var c := Run(Init, trace).calls[t]; c.Promoting? && c.at.AliasMoved?
    ensures var s := Run(Init, trace);
      var c := s.calls[t];
      && c.approvalId in s.db.approvals && c.modelId in s.db.models
      && s.db.models[c.modelId] == c.at.model
      && Authorises(s.db.approvals[c.approvalId], s.db.models[c.modelId])
  {
    hide Run, DbInv, Authorises, RepliesOk;
    ReachedInv(trace);
    assert CallOk(Run(Init, trace).db, Run(Init, trace).calls[t]);
  }

  // ----- exactly once -----

  /** How often a caller was told that its own call executed the approval. */
  function ExecutedReplies(replies: seq<Reply>, approvalId: Id): nat {
    if replies == [] then 0
    else
      var last := replies[|replies| - 1];
      ExecutedReplies(replies[..|replies| - 1], approvalId) + (if last.approvalId == approvalId && Claims(last) then
          1 else 0)
  }

  predicate Claims(r: Reply) { if r.PromotionReply? then r.executed else r.created }

  predicate HasReceipt(receipts: seq<Receipt>, approvalId: Id) {
    exists r :: r in receipts && r.approvalId == approvalId
  }

  ghost predicate OnceInv(s: Sys) {
    forall a :: ExecutedReplies(s.replies, a) <= (if HasReceipt(s.db.receipts, a) then 1 else 0)
  }

  /** What one step may add to replies and receipts. */
  ghost predicate Adds(s: Sys, s': Sys) {
    || (s'.replies == s.replies && s.db.receipts <= s'.db.receipts)
    || (exists r: Reply :: s'.replies == s.replies + [r] && !Claims(r) && s'.db.receipts == s.db.receipts)
    || (exists r: Reply, x: Receipt ::
          && s'.replies == s.replies + [r] && s'.db.receipts == s.db.receipts + [x]
          && x.approvalId == r.approvalId && !HasReceipt(s.db.receipts, r.approvalId))
  }

  lemma AddsKeepsOnce(s: Sys, s': Sys)
    requires OnceInv(s) && Adds(s, s')
    ensures OnceInv(s')
  {
  }

  lemma PromotionAdds(s: Sys, t: Tid, c: Call, step: Step)
    requires t in s.calls && s.calls[t] == c && c.Promoting?
    ensures Adds(s, AdvancePromotion(s, t, c, step))
  {
  }

  lemma DraftAdds(s: Sys, t: Tid, c: Call, step: Step)
    requires t in s.calls && s.calls[t] == c && c.Drafting?
    ensures Adds(s, AdvanceDraft(s, t, c, step))
  {
    hide ValidDraftPayload, Draft, IdTaken;
    var s' := AdvanceDraft(s, t, c, step);
    if c.point.DraftAbsent? && step.CommitDraft? && s'.db != s.db {
      var r, x := s'.replies[|s.replies|], s'.db.receipts[|s.db.receipts|];
      assert s'.replies == s.replies + [r] && s'.db.receipts == s.db.receipts + [x];
    } else if s'.replies != s.replies {
      var r := s'.replies[|s.replies|];
      assert s'.replies == s.replies + [r] && !Claims(r);
    }
  }

  lemma StepAdds(s: Sys, t: Tid, step: Step)
    ensures Adds(s, Apply(s, t, step))
  {
    hide AdvancePromotion, AdvanceDraft, ValidProposal, ValidVerdict, NonBlank, Draftable, ReceiptFor, ProposeTx,
         DecideTx, RequestTx, Adds;
    if t in s.calls && !step.Crash? && s.calls[t].Promoting? {
      PromotionAdds(s, t, s.calls[t], step);
    } else if t in s.calls && !step.Crash? && s.calls[t].Drafting? {
      DraftAdds(s, t, s.calls[t], step);
    } else {
      QuietAdds(s, t, step);
    }
  }

  lemma QuietAdds(s: Sys, t: Tid, step: Step)
    requires t in s.calls && !step.Crash? ==> !s.calls[t].Promoting? && !s.calls[t].Drafting?
    ensures Adds(s, Apply(s, t, step))
  {
    hide AdvancePromotion, AdvanceDraft, ValidProposal, ValidVerdict, NonBlank, Draftable, ReceiptFor;
    var s' := Apply(s, t, step);
    if s'.replies != s.replies {
      var r := s'.replies[|s.replies|];
      assert s'.replies == s.replies + [r] && !Claims(r);
    }
  }

  /** However many callers execute or replay an approval, at most one of them is told that its own call did it. */
  lemma {:induction false} ExecutedAtMostOnce(trace: Trace, a: Id)
    ensures ExecutedReplies(Run(Init, trace).replies, a) <= 1
    ensures ExecutedReplies(Run(Init, trace).replies, a) == 1 ==> HasReceipt(Reached(trace).receipts, a)
  {
    OnceReached(trace);
  }

  lemma {:induction false} OnceReached(trace: Trace)
    ensures OnceInv(Run(Init, trace))
  {
    hide Apply, Adds;
    if trace != [] {
      var n := |trace| - 1;
      OnceReached(trace[..n]);
      StepAdds(Run(Init, trace[..n]), trace[n].0, trace[n].1);
      AddsKeepsOnce(Run(Init, trace[..n]), Run(Init, trace));
    }
  }
}
