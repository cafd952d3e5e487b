/**
 The gated services as they run: each method updates the tables in place, with the loops, checks and rollbacks
 of its transaction, and has the effect of the corresponding steps of the interleaved machine.
 */
module Services {
  import opened Wrappers
  import opened Records
  import opened ApprovalGate
  import opened Promotion
  import opened WorkOrders
  import opened Ledger
  import opened Protocol

  datatype ProposeError = InvalidProposal | AlreadyPending

  datatype DecideError = InvalidDecision | ApprovalMissing | AlreadyDecided | StaleVersion

  datatype RequestError = NoSuchModel | NotPromotable | RequestRefused(why: ProposeError)

  datatype PromotionError =
    | ActorRequired
    | ModelMissing
    | NoSuchApproval
    | ActionMismatch
    | EntityTypeMismatch
    | EntityMismatch
    | NotReady
    | PayloadMismatch
    | RegistryError
    | IntegrityFailure

  datatype DraftError = DraftApprovalMissing | NotDraftable | EventMissing | DraftFailed

  datatype PromotionResult = PromotionResult(receiptId: Id, executed: bool, archived: seq<Id>)

  datatype DraftResult = DraftResult(workOrderId: Id, receiptId: Option<Id>, created: bool)

  /** What an approval must look like to be drafted, every column, key and limit written out. */
  ghost predicate MeetsDraftContract(a: Approval) {
    && a.action == CmmsWorkOrder && a.entityType == "prediction_event"
    && (a.status == Approved || a.status == Modified)
    && var payload := if a.status == Modified then a.decision else a.proposed;
    && payload.Some?
    && var p := payload.value;
    && (forall key :: key in p ==>
          || key == "asset_id" || key == "priority" || key == "recommended_action"
          || key == "prediction_event_id" || key == "reason" || key == "risk_score"
          || key == "source_model_version" || key == "evidence")
    && "asset_id" in p && p["asset_id"].JString?
    && NonBlank(p["asset_id"].text) && |p["asset_id"].text| <= 255
    && "priority" in p && p["priority"].JString?
    && NonBlank(p["priority"].text) && |p["priority"].text| <= 32
    && "recommended_action" in p && p["recommended_action"].JString?
    && NonBlank(p["recommended_action"].text) && |p["recommended_action"].text| <= 1024
    && "prediction_event_id" in p && p["prediction_event_id"] == JString(a.entityId)
    && NonBlank(a.entityId) && |a.entityId| <= 64
    && ("reason" in p && p["reason"] != JNull ==>
          p["reason"].JString? && |p["reason"].text| <= 2048)
    && ("risk_score" in p && p["risk_score"] != JNull ==> p["risk_score"].JNumber?)
    && ("source_model_version" in p && p["source_model_version"] != JNull ==>
          p["source_model_version"].JString? && |p["source_model_version"].text| <= 32)
    && ("evidence" in p && p["evidence"] != JNull ==> p["evidence"].JObject?)
  }

  // ----- the same calls as steps of the machine -----

  /** A promotion call from its alias write on, and as a whole; steps after its end do nothing. */
  function FromAlias(s: Sys, t: Tid, result: AliasResult, receiptId: Id): Sys {
    Apply(Apply(Apply(s, t, MoveAlias(result)), t, CommitPromotion(receiptId)), t, ResolvePromotion)
  }

  function PromotionSteps(s: Sys, t: Tid, modelId: Id, approvalId: Id, actor: string, result: AliasResult,
                          receiptId: Id): Sys {
    FromAlias(Apply(Apply(Apply(s, t, BeginPromotion(modelId, approvalId, actor)), t, LoadModel), t, ClearPromotion),
              t, result, receiptId)
  }

  function FromCommit(s: Sys, t: Tid, workOrderId: Id, receiptId: Id): Sys {
    Apply(Apply(Apply(s, t, CommitDraft(workOrderId, receiptId)), t, ResolveDraft), t, ReplyDraft)
  }

  function DraftSteps(s: Sys, t: Tid, approvalId: Id, workOrderId: Id, receiptId: Id): Sys {
    FromCommit(Apply(Apply(Apply(s, t, BeginDraft(approvalId)), t, VerifyEvent), t, LookUpDraft), t, workOrderId,
        receiptId)
  }

  lemma PromotionEnded(s: Sys, t: Tid, result: AliasResult, receiptId: Id)
    requires t !in s.calls
    ensures FromAlias(s, t, result, receiptId) == s
  {
  }

  lemma DraftEnded(s: Sys, t: Tid, workOrderId: Id, receiptId: Id)
    requires t !in s.calls
    ensures FromCommit(s, t, workOrderId, receiptId) == s
  {
  }

  /** How far the checks of a promotion call take it when nobody else steps in between. */
  lemma Checks(db: Db, alias: map<string, nat>, modelId: Id, approvalId: Id, actor: string)
    ensures var s := Sys(db, alias, {}, map[], []);
      var s' := Apply(Apply(Apply(s, 0, BeginPromotion(modelId, approvalId, actor)), 0, LoadModel), 0, ClearPromotion);
      if !NonBlank(actor) then s' == s
      else
        match ReceiptFor(db.receipts, approvalId)
        case Some(r) => s' == s.(replies := [PromotionReply(approvalId, r.id, false)])
        case None =>
          if modelId in db.models && approvalId in db.approvals
              && Authorises(db.approvals[approvalId], db.models[modelId]) then
            s' == s.(calls := map[0 := Promoting(modelId, approvalId, actor,
                                                 Cleared(db.models[modelId], db.approvals[approvalId].status))])
          else s' == s
  {
    hide NonBlank, ReceiptFor, Authorises, Apply;
    var s := Sys(db, alias, {}, map[], []);
    var s1 := Apply(s, 0, BeginPromotion(modelId, approvalId, actor));
    Begins(s, modelId, approvalId, actor);
    if 0 !in s1.calls {
      Ended(s1, 0, LoadModel);
      Ended(s1, 0, ClearPromotion);
    } else {
      var s2 := Apply(s1, 0, LoadModel);
      Loads(s1, modelId, approvalId, actor);
      if 0 in s2.calls {
        Clears(s2, db.models[modelId], approvalId, actor);
      } else {
        Ended(s2, 0, ClearPromotion);
      }
    }
  }

  lemma Begins(s: Sys, modelId: Id, approvalId: Id, actor: string)
    requires s.calls == map[] && s.replies == []
    ensures Apply(s, 0, BeginPromotion(modelId, approvalId, actor)) ==
            if !NonBlank(actor) then s
            else
              match ReceiptFor(s.db.receipts, approvalId)
              case Some(r) => s.(replies := [PromotionReply(approvalId, r.id, false)])
              case None => s.(calls := map[0 := Promoting(modelId, approvalId, actor, ReceiptAbsent)])
  {
  }

  lemma Loads(s: Sys, modelId: Id, approvalId: Id, actor: string)
    requires s.calls == map[0 := Promoting(modelId, approvalId, actor, ReceiptAbsent)]
    ensures Apply(s, 0, LoadModel) ==
            if modelId in s.db.models then
                s.(calls := map[0 := Promoting(modelId, approvalId, actor, ModelLoaded(s.db.models[modelId]))])
            else s.(calls := map[])
  {
  }

  lemma Clears(s: Sys, m: Model, approvalId: Id, actor: string)
    requires exists id :: s.calls == map[0 := Promoting(id, approvalId, actor, ModelLoaded(m))]
    ensures Apply(s, 0, ClearPromotion) ==
            if approvalId in s.db.approvals && Authorises(s.db.approvals[approvalId], m) then
              s.(calls := map[0 := Promoting(s.calls[0].modelId, approvalId, actor,
                  Cleared(m, s.db.approvals[approvalId].status))])
            else s.(calls := map[])
  {
    hide Authorises;
  }

  function Replayed(db: Db, approvalId: Id): seq<Reply> {
    match ReceiptFor(db.receipts, approvalId)
    case Some(r) => [PromotionReply(approvalId, r.id, false)]
    case None => []
  }

  /** The rest of the call: what each of the two possible failures leaves behind, and what success does. */
  lemma AliasEffects(s: Sys, m: Model, approvalId: Id, status: ApprovalStatus, actor: string, result: AliasResult,
                     receiptId: Id)
    requires s.calls == map[0 := Promoting(m.id, approvalId, actor, Cleared(m, status))] && s.replies == []
    requires m.id in s.db.models && s.db.models[m.id] == m
    ensures var s' := FromAlias(s, 0, result, receiptId);
      if m.version < 1 || result.FailedBefore? then s'.db == s.db && s'.alias == s.alias && s'.replies == []
      else
        && s'.alias == s.alias[m.name := m.version]
        && (if result.FailedAfter? then s'.db == s.db && s'.replies == []
            else
              match PromoteTx(s.db, m, approvalId, status, Strip(actor), receiptId)
              case Some(db) => s'.db == db && s'.replies == [PromotionReply(approvalId, receiptId, true)]
              case None => s'.db == s.db && s'.replies == Replayed(s.db, approvalId))
  {
    hide Apply, Strip, PromoteTx;
    var s1 := Apply(s, 0, MoveAlias(result));
    Moves(s, m, approvalId, status, actor, result);
    if 0 !in s1.calls {
      Ended(s1, 0, CommitPromotion(receiptId));
      Ended(s1, 0, ResolvePromotion);
    } else {
      var s2 := Apply(s1, 0, CommitPromotion(receiptId));
      Commits(s1, m, approvalId, status, actor, receiptId);
      if 0 !in s2.calls { Ended(s2, 0, ResolvePromotion); } else { Resolves(s2, m, approvalId, actor, receiptId); }
    }
  }

  lemma Moves(s: Sys, m: Model, approvalId: Id, status: ApprovalStatus, actor: string, result: AliasResult)
    requires s.calls == map[0 := Promoting(m.id, approvalId, actor, Cleared(m, status))]
    ensures var s' := Apply(s, 0, MoveAlias(result));
      && s'.db == s.db && s'.replies == s.replies
      && (if m.version < 1 || result.FailedBefore? then s'.alias == s.alias && s'.calls == map[]
          else
            && s'.alias == s.alias[m.name := m.version]
            && s'.calls == if result.FailedAfter? then map[]
                           else map[0 := Promoting(m.id, approvalId, actor, AliasMoved(m, status))])
  {
  }

  lemma Commits(s: Sys, m: Model, approvalId: Id, status: ApprovalStatus, actor: string, receiptId: Id)
    requires s.calls == map[0 := Promoting(m.id, approvalId, actor, AliasMoved(m, status))] && s.replies == []
    requires m.id in s.db.models && s.db.models[m.id] == m
    ensures var s' := Apply(s, 0, CommitPromotion(receiptId));
      && s'.alias == s.alias
      && match PromoteTx(s.db, m, approvalId, status, Strip(actor), receiptId)
         case Some(db) => s'.db == db && s'.calls == map[]
              && s'.replies == [PromotionReply(approvalId, receiptId, true)]
         case None => s'.db == s.db && s'.replies == []
                      && s'.calls == map[0 := Promoting(m.id, approvalId, actor, PromotionBlocked(receiptId))]
  {
    hide PromoteTx, Strip;
  }

  lemma Resolves(s: Sys, m: Model, approvalId: Id, actor: string, receiptId: Id)
    requires s.calls == map[0 := Promoting(m.id, approvalId, actor, PromotionBlocked(receiptId))]
    requires s.replies == []
    ensures var s' := Apply(s, 0, ResolvePromotion);
      s'.db == s.db && s'.alias == s.alias && s'.replies == Replayed(s.db, approvalId)
  {
    hide ReceiptFor;
  }

  function WithChallenger(db: Db, m: Id): Db {
    if m in db.lifecycle then db
    else db.(lifecycle := db.lifecycle[m := Challenger], audit := db.audit + [ChallengerEnsured(m)])
  }

  /** A promotion request is a proposal on top of an ensured challenger row. */
  lemma RequestIsProposal(db: Db, m: Model, approvalId: Id, requester: Requester, requesterId: Option<string>)
    ensures var p := RequestProposal(m, approvalId, requester, requesterId);
      RequestTx(db, m, approvalId, requester, requesterId) ==
      if Requestable(db.lifecycle, m.id) && ValidProposal(p) then ProposeTx(WithChallenger(db, m.id), p) else None
    ensures RequestProposal(m, approvalId, requester, requesterId).id == approvalId
  {
    hide ValidProposal, HasPending;
    var p := RequestProposal(m, approvalId, requester, requesterId);
    assert p.id == approvalId;
    if m.id !in db.lifecycle {
      assert db.audit + ([ChallengerEnsured(m.id)] + [Proposed(approvalId)]) == db.audit + [ChallengerEnsured(m.id)]
             + [Proposed(approvalId)];
    } else {
      assert db.audit + [] + [Proposed(approvalId)] == db.audit + [Proposed(approvalId)];
    }
  }

  lemma RequestColumns(m: Model, approvalId: Id, requester: Requester, requesterId: Option<string>)
    ensures var p := RequestProposal(m, approvalId, requester, requesterId);
      && p.id == approvalId && p.action == ModelPromotion && p.entityType == "registered_model" && p.entityId == m.id
      && p.requester == requester && p.requesterId == requesterId
      && p.payload == Some(map["registered_model_id" := JString(m.id), "name" := JString(m.name),
                               "version" := JString(Decimal(m.version)), "to_alias" := JString("champion")])
    ensures NonBlank("registered_model")
  {
    assert !IsSpace("registered_model"[0]);
  }

  /** How far an undisturbed draft call gets before its transaction. */
  lemma DraftChecks(s: Sys, approvalId: Id)
    requires s.calls == map[] && s.replies == []
    requires approvalId in s.db.approvals ==> s.db.approvals[approvalId].id == approvalId
    ensures var s' := Apply(Apply(Apply(s, 0, BeginDraft(approvalId)), 0, VerifyEvent), 0, LookUpDraft);
      if approvalId !in s.db.approvals || !Draftable(s.db.approvals[approvalId])
         || s.db.approvals[approvalId].entityId !in s.db.events then s' == s
      else
        var point := if approvalId in s.db.workOrders then DraftFound(s.db.workOrders[approvalId]) else DraftAbsent;
        s' == s.(calls := map[0 := Drafting(s.db.approvals[approvalId], point)])
  {
    hide Draftable, Apply;
    var s1 := Apply(s, 0, BeginDraft(approvalId));
    DraftBegins(s, approvalId);
    if 0 !in s1.calls {
      Ended(s1, 0, VerifyEvent);
      Ended(s1, 0, LookUpDraft);
    } else {
      var s2 := Apply(s1, 0, VerifyEvent);
      DraftLooks(s1, s.db.approvals[approvalId]);
      if 0 !in s2.calls { Ended(s2, 0, LookUpDraft); }
    }
  }

  lemma DraftBegins(s: Sys, approvalId: Id)
    requires s.calls == map[]
    ensures Apply(s, 0, BeginDraft(approvalId)) ==
            if approvalId !in s.db.approvals || !Draftable(s.db.approvals[approvalId]) then s
            else s.(calls := map[0 := Drafting(s.db.approvals[approvalId], DraftCleared)])
  {
  }

  lemma DraftLooks(s: Sys, a: Approval)
    requires s.calls == map[0 := Drafting(a, DraftCleared)]
    ensures var s' := Apply(s, 0, VerifyEvent);
      s' == s.(calls := if a.entityId in s.db.events then map[0 := Drafting(a, EventVerified)] else map[])
    ensures a.entityId in s.db.events ==>
      Apply(Apply(s, 0, VerifyEvent), 0, LookUpDraft) ==
      s.(calls := map[0 := Drafting(a, if a.id in s.db.workOrders then DraftFound(s.db.workOrders[a.id])
          else DraftAbsent)])
  {
  }

  /** The rest of the call: the row found or made, or nothing when a drawn id is taken. */
  lemma DraftEffects(s: Sys, a: Approval, workOrderId: Id, receiptId: Id)
    requires Draftable(a) && s.replies == []
    requires s.calls == map[0 := Drafting(a, if a.id in s.db.workOrders then DraftFound(s.db.workOrders[a.id])
             else DraftAbsent)]
    ensures var s' := FromCommit(s, 0, workOrderId, receiptId);
      if a.id in s.db.workOrders then
        s'.db == s.db && s'.replies ==
            [DraftReply(a.id, s.db.workOrders[a.id].id, ReceiptIdFor(s.db.receipts, a.id), false)]
      else
        match DraftTx(s.db, a.id, a.Effective().value, workOrderId, receiptId)
        case Some(db) => s'.db == db && s'.replies == [DraftReply(a.id, workOrderId, Some(receiptId), true)]
        case None => s'.db == s.db && s'.replies == []
  {
    hide Apply, DraftTx, ReceiptIdFor;
    var s1 := Apply(s, 0, CommitDraft(workOrderId, receiptId));
    DraftCommits(s, a, workOrderId, receiptId);
    if 0 !in s1.calls {
      Ended(s1, 0, ResolveDraft);
      Ended(s1, 0, ReplyDraft);
    } else {
      DraftResolves(s1, a, workOrderId, receiptId);
    }
  }

  lemma DraftCommits(s: Sys, a: Approval, workOrderId: Id, receiptId: Id)
    requires Draftable(a) && s.replies == []
    requires s.calls == map[0 := Drafting(a, if a.id in s.db.workOrders then DraftFound(s.db.workOrders[a.id])
             else DraftAbsent)]
    ensures var s' := Apply(s, 0, CommitDraft(workOrderId, receiptId));
      if a.id in s.db.workOrders then s' == s
      else
        match DraftTx(s.db, a.id, a.Effective().value, workOrderId, receiptId)
        case Some(db) => s'.db == db && s'.calls == map[]
             && s'.replies == [DraftReply(a.id, workOrderId, Some(receiptId), true)]
        case None => s' == s.(calls := map[0 := Drafting(a, DraftBlocked(workOrderId, receiptId))])
  {
    hide DraftTx;
    assert a.Effective().Some?;
  }

  lemma DraftResolves(s: Sys, a: Approval, workOrderId: Id, receiptId: Id)
    requires s.replies == []
    requires s.calls == map[0 := Drafting(a, if a.id in s.db.workOrders then DraftFound(s.db.workOrders[a.id])
                                             else DraftBlocked(workOrderId, receiptId))]
    ensures var s' := Apply(Apply(s, 0, ResolveDraft), 0, ReplyDraft);
      s'.db == s.db
      && s'.replies == if a.id in s.db.workOrders
                       then [DraftReply(a.id, s.db.workOrders[a.id].id, ReceiptIdFor(s.db.receipts, a.id), false)]
                            else []
  {
    hide ReceiptIdFor;
  }

  // ----- the retiring loop -----

  lemma ChampionsStep(ids: seq<Id>, lifecycle: Lifecycle, target: Id)
    requires ids != []
    ensures Champions(ids, lifecycle, target) ==
            (if ids[0] != target && ids[0] in lifecycle && lifecycle[ids[0]].Champion? then [ids[0]] else [])
            + Champions(ids[1..], lifecycle, target)
  {
  }

  lemma ChampionsOfNone(lifecycle: Lifecycle, target: Id)
    ensures Champions([], lifecycle, target) == []
  {
  }

  lemma {:induction false} ChampionsAppend(ids: seq<Id>, x: Id, lifecycle: Lifecycle, target: Id)
    ensures Champions(ids + [x], lifecycle, target) ==
            Champions(ids, lifecycle, target) + Champions([x], lifecycle, target)
  {
    hide Champions;
    if ids == [] {
      assert ids + [x] == [x];
      ChampionsOfNone(lifecycle, target);
    } else {
      ChampionsAppend(ids[1..], x, lifecycle, target);
      assert (ids + [x])[1..] == ids[1..] + [x];
      ChampionsStep(ids, lifecycle, target);
      ChampionsStep(ids + [x], lifecycle, target);
    }
  }

  lemma {:induction false} ChampionsMembers(ids: seq<Id>, lifecycle: Lifecycle, target: Id)
    ensures forall m :: m in Champions(ids, lifecycle, target) ==> m in ids && m in lifecycle && lifecycle[m].Champion?
  {
    if ids != [] { ChampionsMembers(ids[1..], lifecycle, target); }
  }

  class Store {
    var approvals: map<Id, Approval>
    var models: map<Id, Model>
    var modelOrder: seq<Id>
    var lifecycle: map<Id, Stage>
    var receipts: seq<Receipt>
    var workOrders: map<Id, WorkOrder>
    var events: set<Id>
    var audit: seq<AuditEvent>
    var alias: map<string, nat>

    ghost function Snapshot(): Db
      reads this
    {
      Db(approvals, models, modelOrder, lifecycle, receipts, workOrders, events, audit)
    }

    /** The store as a machine state with no call in progress. */
    ghost function Idle(): Sys
      reads this
    {
      Sys(Snapshot(), alias, {}, map[], [])
    }

    /** The primary keys of the model and approval tables. */
    ghost predicate Valid()
      reads this
    {
      OrderInv(models, modelOrder) && forall a :: a in approvals ==> approvals[a].id == a
    }

    constructor ()
      ensures Valid() && Idle() == Init
    {
      approvals, models, modelOrder, lifecycle := map[], map[], [], map[];
      receipts, workOrders, events, audit, alias := [], map[], {}, [], map[];
    }

    // ----- approvals -----

    /** `create`: the pending row enters under its primary key and the partial unique index. */
    method CreateApproval(row: Approval) returns (inserted: bool)
      modifies this`approvals
      ensures inserted <==> Insert(old(approvals), row).Some?
      ensures inserted <==>
              && row.id !in old(approvals)
              && forall id :: id in old(approvals) && old(approvals)[id].status == Pending ==>
                   || old(approvals)[id].action != row.action
                   || old(approvals)[id].entityType != row.entityType
                   || old(approvals)[id].entityId != row.entityId
      ensures approvals == if inserted then old(approvals)[row.id := row] else old(approvals)
    {
      inserted := row.id !in approvals && !HasPending(approvals, row.action, row.entityType, row.entityId);
      if inserted { approvals := approvals[row.id := row]; }
    }

    /** `transition`: the guarded update; false when it matched no row. */
    method TransitionApproval(id: Id, expected: nat, v: Verdict) returns (matched: bool)
      requires !v.decision.UnknownDecision?
      modifies this`approvals
      ensures matched <==> Transition(old(approvals), id, expected, v).Some?
      ensures approvals == if matched then Transition(old(approvals), id, expected, v).value else old(approvals)
    {
      matched := id in approvals && approvals[id].version == expected && approvals[id].status == Pending;
      if matched {
        var row := approvals[id];
        approvals := approvals[id := row.(status := StatusFor(v.decision), decision := v.payload,
                                          decidedBy := Some(v.actor), reason := v.reason, version := row.version + 1)];
      }
    }

    /** Proposes atomically with its audit event; a clash with a pending request changes nothing. */
    method Propose(p: Proposal) returns (r: Result<Id, ProposeError>)
      requires Valid()
      modifies this`approvals, this`audit
      ensures Valid()
      ensures r.Ok? <==> ValidProposal(p) && ProposeTx(old(Snapshot()), p).Some?
      ensures r != Err(InvalidProposal) <==>
              && !p.action.UnknownAction? && !p.requester.UnknownRequester?
              && NonBlank(p.entityType) && |p.entityType| <= 64
              && NonBlank(p.entityId) && |p.entityId| <= 64
              && (p.requesterId.Some? ==> |p.requesterId.value| <= 64)
      ensures r.Ok? <==>
              && r != Err(InvalidProposal)
              && p.id !in old(approvals)
              && forall id :: id in old(approvals) && old(approvals)[id].status == Pending ==>
                   || old(approvals)[id].action != p.action
                   || old(approvals)[id].entityType != p.entityType
                   || old(approvals)[id].entityId != p.entityId
      ensures Snapshot() == if r.Ok? then ProposeTx(old(Snapshot()), p).value else old(Snapshot())
      ensures r.Ok? ==>
                && r.value == p.id
                && approvals == old(approvals)[p.id := Approval(p.id, p.action, p.entityType, p.entityId, Pending,
                                                                p.payload, None, p.requester, p.requesterId, None,
                                                                None, 1)]
    {
      if !ValidProposal(p) { return Err(InvalidProposal); }
      if HasPending(approvals, p.action, p.entityType, p.entityId) { return Err(AlreadyPending); }
      var inserted := CreateApproval(NewRow(p));
      if !inserted { return Err(AlreadyPending); }
      audit := audit + [Proposed(p.id)];
      r := Ok(p.id);
    }

    /** Decides a pending approval at the expected version, or the version just read when none is given. */
    method Decide(id: Id, v: Verdict, expected: Option<int>) returns (r: Result<Approval, DecideError>)
      requires Valid()
      modifies this`approvals, this`audit
      ensures Valid()
      ensures r != Err(InvalidDecision) <==>
              && NonBlank(v.actor) && |v.actor| <= 64 && (expected.Some? ==> expected.value >= 1)
              && (v.decision == Approve || v.decision == Reject || v.decision == Modify)
              && (v.decision == Reject || v.decision == Modify ==> v.reason.Some? && NonBlank(v.reason.value))
              && (v.decision == Modify ==> v.payload.Some? && v.payload.value != map[])
              && (v.reason.Some? ==> |v.reason.value| <= 2048)
      ensures r == Err(ApprovalMissing) <==> r != Err(InvalidDecision) && id !in old(approvals)
      ensures r == Err(AlreadyDecided) <==>
              r != Err(InvalidDecision) && id in old(approvals) && old(approvals)[id].status != Pending
      ensures r.Ok? <==> ValidVerdict(v) && id in old(approvals) && old(approvals[id]).status.Pending?
                         && (expected.Some? ==> expected.value >= 1 && expected.value == old(approvals[id]).version)
      ensures r.Err? ==> Snapshot() == old(Snapshot())
      ensures r.Ok? ==> && DecideTx(old(Snapshot()), id, old(approvals[id]).version, v) == Some(Snapshot())
                        && id in approvals && r.value == approvals[id]
                        && r.value == old(approvals[id]).(
                                      status := match v.decision
                                                case Approve => Approved
                                                case Reject => Rejected
                                                case _ => Modified,
                                      decision := v.payload, decidedBy := Some(v.actor), reason := v.reason,
                                      version := old(approvals[id]).version + 1)
    {
      if !ValidVerdict(v) || (expected.Some? && expected.value < 1) { return Err(InvalidDecision); }
      if id !in approvals { return Err(ApprovalMissing); }
      if approvals[id].status != Pending { return Err(AlreadyDecided); }
      var version := if expected.Some? then expected.value else approvals[id].version;
      var matched := TransitionApproval(id, version, v);
      if !matched { return Err(StaleVersion); }
      audit := audit + [Decided(id, StatusFor(v.decision), v.actor)];
      r := Ok(approvals[id]);
    }

    // ----- the lifecycle -----

    /** Adds the challenger row and its audit event unless the model has a row already. */
    method EnsureChallenger(modelId: Id)
      modifies this`lifecycle, this`audit
      ensures Snapshot() == WithChallenger(old(Snapshot()), modelId)
    {
      if modelId !in lifecycle {
        lifecycle := lifecycle[modelId := Challenger];
        audit := audit + [ChallengerEnsured(modelId)];
      }
    }

    /** One transaction: the challenger row, then the proposal; a refused proposal takes the row back out. */
    method RequestPromotion(modelId: Id, approvalId: Id, requester: Requester, requesterId: Option<string>)
      returns (r: Result<Id, RequestError>)
      requires Valid()
      modifies this`approvals, this`lifecycle, this`audit
      ensures Valid()
      ensures r == Err(NoSuchModel) <==> modelId !in models
      ensures r == Err(NotPromotable) <==>
              modelId in models && modelId in old(lifecycle) && old(lifecycle)[modelId] != Challenger
      ensures r == Err(RequestRefused(InvalidProposal)) <==>
              && modelId in models && (modelId in old(lifecycle) ==> old(lifecycle)[modelId] == Challenger)
              && !(&& !requester.UnknownRequester? && NonBlank(modelId) && |modelId| <= 64
                   && (requesterId.Some? ==> |requesterId.value| <= 64))
      ensures r.Ok? <==>
              && modelId in models && (modelId in old(lifecycle) ==> old(lifecycle)[modelId] == Challenger)
              && r != Err(RequestRefused(InvalidProposal))
              && approvalId !in old(approvals)
              && forall id :: id in old(approvals) && old(approvals)[id].status == Pending ==>
                   || old(approvals)[id].action != ModelPromotion
                   || old(approvals)[id].entityType != "registered_model"
                   || old(approvals)[id].entityId != modelId
      ensures r.Ok? ==>
                && approvalId in approvals && approvals == old(approvals)[approvalId := approvals[approvalId]]
                && approvals[approvalId].proposed.Some?
                && var payload := approvals[approvalId].proposed.value;
                && approvals[approvalId] == Approval(approvalId, ModelPromotion, "registered_model", modelId, Pending,
                                                     Some(payload), None, requester, requesterId, None, None, 1)
                && payload == map["registered_model_id" := JString(modelId), "name" := JString(models[modelId].name),
                                  "version" := JString(Decimal(models[modelId].version)),
                                  "to_alias" := JString("champion")]
                && lifecycle == old(lifecycle)[modelId := Challenger]
      ensures modelId in models ==>
                var tx := RequestTx(old(Snapshot()), models[modelId], approvalId, requester, requesterId);
                (r.Ok? <==> tx.Some?) && (r.Ok? ==> tx == Some(Snapshot()))
      ensures r.Err? ==> Snapshot() == old(Snapshot())
    {
      hide RequestTx, RequestProposal, ProposeTx, ValidProposal, NonBlank;
      if modelId !in models { return Err(NoSuchModel); }
      var model := models[modelId];
      RequestColumns(model, approvalId, requester, requesterId);
      RequestIsProposal(Snapshot(), model, approvalId, requester, requesterId);
      if modelId in lifecycle && lifecycle[modelId] != Challenger { return Err(NotPromotable); }
      var savedLifecycle, savedAudit := lifecycle, audit;
      EnsureChallenger(modelId);
      var proposed := Propose(RequestProposal(model, approvalId, requester, requesterId));
      if proposed.Err? {
        lifecycle, audit := savedLifecycle, savedAudit;
        return Err(RequestRefused(proposed.error));
      }
      r := Ok(approvalId);
    }

    /** Archives the champion siblings one by one and reports them in the order met. */
    method RetireSiblings(target: Model) returns (archived: seq<Id>)
      requires Valid()
      modifies this`lifecycle
      ensures archived == Champions(NamedIds(modelOrder, models, target.name), old(lifecycle), target.id)
      ensures lifecycle == Retire(old(lifecycle), archived)
    {
      hide NamedIds;
      var siblings := NamedIds(modelOrder, models, target.name);
      NamedIdsMembers(modelOrder, models, target.name);
      ghost var before := lifecycle;
      archived := [];
      for i := 0 to |siblings|
        invariant archived == Champions(siblings[..i], before, target.id)
        invariant lifecycle == Retire(before, archived)
      {
        var sibling := siblings[i];
        assert siblings[..i + 1] == siblings[..i] + [sibling];
        ChampionsAppend(siblings[..i], sibling, before, target.id);
        ChampionsMembers(siblings[..i], before, target.id);
        assert sibling !in siblings[..i];
        if sibling != target.id && sibling in lifecycle && lifecycle[sibling] == Champion {
          lifecycle := lifecycle[sibling := Archived];
          archived := archived + [sibling];
        }
      }
      assert siblings[..|siblings|] == siblings;
    }

    /** The promotion transaction; a taken receipt id or approval rolls the stages back. */
    method CommitPromotionTx(target: Model, approvalId: Id, status: ApprovalStatus, actor: string, receiptId: Id)
      returns (committed: bool, archived: seq<Id>)
      requires Valid()
      modifies this`lifecycle, this`receipts, this`audit
      ensures var tx := PromoteTx(old(Snapshot()), target, approvalId, status, actor, receiptId);
              (committed <==> tx.Some?) && Snapshot() == if committed then tx.value else old(Snapshot())
      ensures committed <==> forall x :: x in old(receipts) ==> x.id != receiptId && x.approvalId != approvalId
      ensures archived == Champions(NamedIds(modelOrder, models, target.name), old(lifecycle), target.id)
    {
      var saved := lifecycle;
      archived := RetireSiblings(target);
      lifecycle := lifecycle[target.id := Champion];
      if ReceiptBlocked(receipts, receiptId, approvalId) {
        lifecycle := saved;
        return false, archived;
      }
      receipts := receipts + [PromotionReceipt(receiptId, approvalId, target, status, archived)];
      audit := audit + [ChampionPromoted(approvalId, target.id, archived, actor)];
      committed := true;
    }

    /** `_validate_approval` and `_validate_payload`, check by check. */
    method ValidatePromotion(approval: Approval, model: Model) returns (refusal: Option<PromotionError>)
      ensures refusal.None? <==> Authorises(approval, model)
      ensures refusal == Some(ActionMismatch) <==> approval.action != ModelPromotion
      ensures refusal == Some(EntityTypeMismatch) <==>
              approval.action == ModelPromotion && approval.entityType != "registered_model"
      ensures refusal == Some(EntityMismatch) <==>
              approval.action == ModelPromotion && approval.entityType == "registered_model"
              && approval.entityId != model.id
      ensures refusal == Some(NotReady) <==>
              approval.action == ModelPromotion && approval.entityType == "registered_model"
              && approval.entityId == model.id && (approval.status == Pending || approval.status == Rejected)
      ensures refusal.None? <==>
              && approval.action == ModelPromotion && approval.entityType == "registered_model"
              && approval.entityId == model.id && (approval.status == Approved || approval.status == Modified)
              && var payload := if approval.status == Modified then approval.decision else approval.proposed;
              && payload.Some?
              && "registered_model_id" in payload.value
              && payload.value["registered_model_id"] == JString(model.id)
              && ("name" in payload.value ==> payload.value["name"] == JString(model.name))
              && ("version" in payload.value ==> payload.value["version"] == JString(Decimal(model.version)))
      ensures refusal.Some? ==> refusal.value in {ActionMismatch, EntityTypeMismatch, EntityMismatch, NotReady,
                                                  PayloadMismatch}
    {
      if approval.action != ModelPromotion { return Some(ActionMismatch); }
      if approval.entityType != ENTITY_REGISTERED_MODEL { return Some(EntityTypeMismatch); }
      if approval.entityId != model.id { return Some(EntityMismatch); }
      if !approval.Executable() { return Some(NotReady); }
      refusal := if ValidPayload(approval.Effective(), model) then None else Some(PayloadMismatch);
    }

    /** The caller-visible form of an existing receipt. */
    function Replay(receipt: Receipt): PromotionResult {
      PromotionResult(receipt.id, false, if receipt.outcome.Promotion? then receipt.outcome.archived else [])
    }

    /** From the alias write to the reply. */
    method PromoteCleared(model: Model, approvalId: Id, status: ApprovalStatus, actor: string, registry: AliasResult,
                          receiptId: Id)
      returns (r: Result<PromotionResult, PromotionError>)
      requires Valid() && model.id in models && models[model.id] == model
      modifies this`lifecycle, this`receipts, this`audit, this`alias
      ensures var s := FromAlias(old(Idle()).(calls := map[0 := Promoting(model.id, approvalId, actor,
              Cleared(model, status))]),
                                 0, registry, receiptId);
              && Snapshot() == s.db && alias == s.alias
              && s.replies == if r.Ok? then [PromotionReply(approvalId, r.value.receiptId, r.value.executed)] else []
      ensures r.Err? ==> r.error == RegistryError || r.error == IntegrityFailure
      ensures r.Err? ==> Snapshot() == old(Snapshot())
      ensures r.Ok? && r.value.executed <==>
              && model.version >= 1 && registry == Moved
              && forall x :: x in old(receipts) ==> x.id != receiptId && x.approvalId != approvalId
      ensures r.Ok? && r.value.executed ==>
                r.value.archived == Champions(NamedIds(modelOrder, models, model.name), old(lifecycle), model.id)
    {
      hide FromAlias, PromoteTx, Strip, ReceiptFor, OrderInv, Champions, NamedIds;
      AliasEffects(Idle().(calls := map[0 := Promoting(model.id, approvalId, actor, Cleared(model, status))]),
                   model, approvalId, status, actor, registry, receiptId);
      if model.version < 1 || registry == FailedBefore { return Err(RegistryError); }
      alias := alias[model.name := model.version];
      if registry == FailedAfter { return Err(RegistryError); }
      var committed, archived := CommitPromotionTx(model, approvalId, status, Strip(actor), receiptId);
      if committed { return Ok(PromotionResult(receiptId, true, archived)); }
      // A concurrent execution of this approval may have committed; undisturbed, only the receipt id can clash.
      var existing := ReceiptFor(receipts, approvalId);
      r := if existing.Some? then Ok(Replay(existing.value)) else Err(IntegrityFailure);
    }

    /** A whole promotion, undisturbed: tables, alias and reply come out as the machine's steps say. */
    method ExecutePromotion(modelId: Id, approvalId: Id, actor: string, registry: AliasResult, receiptId: Id)
      returns (r: Result<PromotionResult, PromotionError>)
      requires Valid()
      modifies this`lifecycle, this`receipts, this`audit, this`alias
      ensures var s := PromotionSteps(old(Idle()), 0, modelId, approvalId, actor, registry, receiptId);
              && Snapshot() == s.db && alias == s.alias
              && s.replies == if r.Ok? then [PromotionReply(approvalId, r.value.receiptId, r.value.executed)] else []
      ensures r.Err? ==> Snapshot() == old(Snapshot())
      ensures r.Err? && r.error != RegistryError && r.error != IntegrityFailure ==> alias == old(alias)
      ensures r.Ok? && r.value.executed <==>
              && NonBlank(actor) && registry == Moved
              && modelId in models && models[modelId].version >= 1
              && (forall x :: x in old(receipts) ==> x.id != receiptId && x.approvalId != approvalId)
              && approvalId in approvals
              && var approval := approvals[approvalId];
              && approval.action == ModelPromotion && approval.entityType == "registered_model"
              && approval.entityId == modelId && (approval.status == Approved || approval.status == Modified)
              && var payload := if approval.status == Modified then approval.decision else approval.proposed;
              && payload.Some?
              && "registered_model_id" in payload.value && payload.value["registered_model_id"] == JString(modelId)
              && ("name" in payload.value ==> payload.value["name"] == JString(models[modelId].name))
              && ("version" in payload.value ==>
                    payload.value["version"] == JString(Decimal(models[modelId].version)))
      ensures r.Ok? && r.value.executed ==>
                && modelId in models
                && r.value.archived == Champions(NamedIds(modelOrder, models, models[modelId].name), old(lifecycle),
                   modelId)
    {
      hide Apply, FromAlias, Authorises, NonBlank;
      ghost var s := Idle();
      Checks(Snapshot(), alias, modelId, approvalId, actor);
      ghost var s3 := Apply(Apply(Apply(s, 0, BeginPromotion(modelId, approvalId, actor)), 0, LoadModel), 0,
                ClearPromotion);
      if 0 !in s3.calls { PromotionEnded(s3, 0, registry, receiptId); }
      if !NonBlank(actor) { return Err(ActorRequired); }
      var existing := ReceiptFor(receipts, approvalId);
      if existing.Some? { return Ok(Replay(existing.value)); }
      if modelId !in models { return Err(ModelMissing); }
      var model := models[modelId];
      if approvalId !in approvals { return Err(NoSuchApproval); }
      var approval := approvals[approvalId];
      var refusal := ValidatePromotion(approval, model);
      if refusal.Some? { return Err(refusal.value); }
      assert model.id == modelId;
      r := PromoteCleared(model, approvalId, approval.status, actor, registry, receiptId);
    }

    // ----- work orders -----

    /** The draft transaction: work order, receipt and audit event, or none of them. */
    method CommitDraftTx(approvalId: Id, payload: Payload, entityId: Id, workOrderId: Id,
                         receiptId: Id) returns (committed: bool)
      requires ValidDraftPayload(Some(payload), entityId)
      modifies this`workOrders, this`receipts, this`audit
      ensures var tx := DraftTx(old(Snapshot()), approvalId, payload, workOrderId, receiptId);
              (committed <==> tx.Some?) && Snapshot() == if committed then tx.value else old(Snapshot())
      ensures committed <==>
              && approvalId !in old(workOrders)
              && (forall a :: a in old(workOrders) ==> old(workOrders)[a].id != workOrderId)
              && (forall x :: x in old(receipts) ==> x.id != receiptId && x.approvalId != approvalId)
    {
      hide Draft;
      if approvalId in workOrders || IdTaken(workOrders, receipts, workOrderId, receiptId) { return false; }
      var savedWorkOrders := workOrders;
      workOrders := workOrders[approvalId := Draft(workOrderId, approvalId, payload)];
      if ReceiptBlocked(receipts, receiptId, approvalId) {
        workOrders := savedWorkOrders;
        return false;
      }
      receipts := receipts + [Receipt(receiptId, approvalId, Drafted(workOrderId))];
      audit := audit + [WorkOrderDrafted(approvalId, workOrderId)];
      committed := true;
    }

    /** A whole draft call, undisturbed: replays return the existing ids and change nothing. */
    method CreateDraft(approvalId: Id, workOrderId: Id, receiptId: Id) returns (r: Result<DraftResult, DraftError>)
      requires Valid()
      modifies this`workOrders, this`receipts, this`audit
      ensures var s := DraftSteps(old(Idle()), 0, approvalId, workOrderId, receiptId);
              && Snapshot() == s.db
              && s.replies == if r.Ok? then
                 [DraftReply(approvalId, r.value.workOrderId, r.value.receiptId, r.value.created)] else []
      ensures r.Err? || !r.value.created ==> Snapshot() == old(Snapshot())
      ensures r == Err(DraftApprovalMissing) <==> approvalId !in approvals
      ensures r != Err(NotDraftable) <==>
              (approvalId in approvals ==> MeetsDraftContract(approvals[approvalId]))
      ensures r == Err(EventMissing) <==>
              && approvalId in approvals && r != Err(NotDraftable)
              && approvals[approvalId].entityId !in events
      ensures r.Ok? && !r.value.created <==>
              && approvalId in approvals && r != Err(NotDraftable) && r != Err(EventMissing)
              && approvalId in old(workOrders)
      ensures r.Ok? && r.value.created <==>
              && approvalId in approvals && r != Err(NotDraftable) && r != Err(EventMissing)
              && approvalId !in old(workOrders)
              && (forall a :: a in old(workOrders) ==> old(workOrders)[a].id != workOrderId)
              && (forall x :: x in old(receipts) ==> x.id != receiptId && x.approvalId != approvalId)
      ensures r.Ok? ==> approvalId in workOrders && workOrders[approvalId].id == r.value.workOrderId
    {
      hide Apply, FromCommit, Draftable, MeetsDraftContract, DraftTx, ReceiptIdFor;
      ghost var s := Idle();
      DraftChecks(s, approvalId);
      ghost var s3 := Apply(Apply(Apply(s, 0, BeginDraft(approvalId)), 0, VerifyEvent), 0, LookUpDraft);
      if 0 !in s3.calls { DraftEnded(s3, 0, workOrderId, receiptId); }
      if approvalId !in approvals { return Err(DraftApprovalMissing); }
      var approval := approvals[approvalId];
      ContractIsChecked(approval);
      if !Draftable(approval) { return Err(NotDraftable); }
      if approval.entityId !in events { return Err(EventMissing); }
      DraftEffects(s3, approval, workOrderId, receiptId);
      if approvalId in workOrders {
        return Ok(DraftResult(workOrders[approvalId].id, ReceiptIdFor(receipts, approvalId), false));
      }
      DraftablePayload(approval);
      var committed := CommitDraftTx(approvalId, approval.Effective().value, approval.entityId, workOrderId, receiptId);
      if !committed { return Err(DraftFailed); }
      WorkOrderInstalled(old(Snapshot()), approvalId, approval.Effective().value, workOrderId, receiptId);
      r := Ok(DraftResult(workOrderId, Some(receiptId), true));
    }
  }

  /** An undisturbed call is a run of the machine, so it keeps everything every run keeps. */
  lemma UndisturbedCallsKeepInvariant(s: Sys, modelId: Id, approvalId: Id, actor: string, result: AliasResult, w: Id,
                                      r: Id)
    requires SysInv(s)
    ensures SysInv(PromotionSteps(s, 0, modelId, approvalId, actor, result, r))
    ensures SysInv(DraftSteps(s, 0, approvalId, w, r))
  {
    hide SysInv, Apply;
    var p := Keeps(s, BeginPromotion(modelId, approvalId, actor));
    p := Keeps(p, LoadModel);
    p := Keeps(p, ClearPromotion);
    p := Keeps(p, MoveAlias(result));
    p := Keeps(p, CommitPromotion(r));
    p := Keeps(p, ResolvePromotion);
    var d := Keeps(s, BeginDraft(approvalId));
    d := Keeps(d, VerifyEvent);
    d := Keeps(d, LookUpDraft);
    d := Keeps(d, CommitDraft(w, r));
    d := Keeps(d, ResolveDraft);
    d := Keeps(d, ReplyDraft);
  }

  lemma Keeps(s: Sys, step: Step) returns (s': Sys)
    requires SysInv(s)
    ensures s' == Apply(s, 0, step) && SysInv(s')
  {
    hide SysInv, Apply;
    ApplyKeeps(s, 0, step);
    s' := Apply(s, 0, step);
  }

  lemma DraftablePayload(a: Approval)
    requires Draftable(a)
    ensures a.Effective().Some? && ValidDraftPayload(a.Effective(), a.entityId)
  {
  }

  lemma ContractIsChecked(a: Approval)
    ensures Draftable(a) <==> MeetsDraftContract(a)
  {
  }

  lemma WorkOrderInstalled(db: Db, approvalId: Id, p: Payload, workOrderId: Id, receiptId: Id)
    requires "asset_id" in p && p["asset_id"].JString? && "priority" in p && p["priority"].JString?
    requires "recommended_action" in p && p["recommended_action"].JString?
    requires DraftTx(db, approvalId, p, workOrderId, receiptId).Some?
    ensures var db' := DraftTx(db, approvalId, p, workOrderId, receiptId).value;
      approvalId in db'.workOrders && db'.workOrders[approvalId].id == workOrderId
  {
  }
}
