/**
 The services running side by side. Every read outside a transaction, the external alias write and
 every transaction is one step of one call; calls interleave freely and may crash between any two
 steps. Ids drawn by `new_id()` are step parameters, so a collision is one of the modelled outcomes.
 */
module Protocol {
  import opened Wrappers
  import opened Records
  import opened ApprovalGate
  import opened Promotion
  import opened WorkOrders
  import opened Ledger

  type Tid = nat

  /** How far a promotion call has come. */
  datatype PromotionPoint =
    | ReceiptAbsent
    | ModelLoaded(model: Model)
    | Cleared(model: Model, status: ApprovalStatus)
    | AliasMoved(model: Model, status: ApprovalStatus)
    | PromotionBlocked(receiptId: Id)

  datatype DraftPoint =
    | DraftCleared
    | EventVerified
    | DraftAbsent
    | DraftBlocked(workOrderId: Id, receiptId: Id)
    | DraftFound(workOrder: WorkOrder)

  datatype Call =
    | Proposing(p: Proposal)
    | Deciding(id: Id, expected: nat, v: Verdict)
    | Requesting(model: Model, requester: Requester, requesterId: Option<string>)
    | Promoting(modelId: Id, approvalId: Id, actor: string, at: PromotionPoint)
    | Drafting(approval: Approval, point: DraftPoint)

  datatype Reply =
    | PromotionReply(approvalId: Id, receiptId: Id, executed: bool)
    | DraftReply(approvalId: Id, workOrderId: Id, receipt: Option<Id>, created: bool)

  /**
   `alias` is the external champion alias per name. `interrupted` is a history variable: the names
   whose latest alias write was not followed by the commit of the call that made it.
   */
  datatype Sys = Sys(
    db: Db,
    alias: map<string, nat>,
    interrupted: set<string>,
    calls: map<Tid, Call>,
    replies: seq<Reply>)

  /** The registry may fail before the alias is written, or after it (reading the version back). */
  datatype AliasResult = Moved | FailedBefore | FailedAfter

  datatype Step =
    | Register(m: Model)
    | Predict(eventId: Id)
    | BeginPropose(p: Proposal)
    | CommitPropose
    | BeginDecide(id: Id, v: Verdict, version: Option<nat>)
    | CommitDecide
    | BeginRequest(modelId: Id, requester: Requester, requesterId: Option<string>)
    | CommitRequest(approvalId: Id)
    | BeginPromotion(modelId: Id, approvalId: Id, actor: string)
    | LoadModel
    | ClearPromotion
    | MoveAlias(result: AliasResult)
    | CommitPromotion(receiptId: Id)
    | ResolvePromotion
    | BeginDraft(approvalId: Id)
    | VerifyEvent
    | LookUpDraft
    | CommitDraft(workOrderId: Id, receiptId: Id)
    | ResolveDraft
    | ReplyDraft
    | Crash

  function End(s: Sys, t: Tid): Sys {
    s.(calls := s.calls - {t})
  }

  function Move(s: Sys, t: Tid, c: Call): Sys {
    s.(calls := s.calls[t := c])
  }

  function Say(s: Sys, r: Reply): Sys {
    s.(replies := s.replies + [r])
  }

  // ----- the first step of each call -----

  function StartPropose(s: Sys, t: Tid, p: Proposal): Sys {
    if !ValidProposal(p) || HasPending(s.db.approvals, p.action, p.entityType, p.entityId) then s
    else Move(s, t, Proposing(p))
  }

  function StartDecide(s: Sys, t: Tid, id: Id, v: Verdict, version: Option<nat>): Sys {
    if !ValidVerdict(v) || (version.Some? && version.value < 1) then s
    else if id !in s.db.approvals || !s.db.approvals[id].status.Pending? then s
    else Move(s, t, Deciding(id, if version.Some? then version.value else s.db.approvals[id].version, v))
  }

  function StartRequest(s: Sys, t: Tid, modelId: Id, requester: Requester, requesterId: Option<string>): Sys {
    if modelId !in s.db.models then s else Move(s, t, Requesting(s.db.models[modelId], requester, requesterId))
  }

  function StartPromotion(s: Sys, t: Tid, modelId: Id, approvalId: Id, actor: string): Sys {
    if !NonBlank(actor) then s
    else
      match ReceiptFor(s.db.receipts, approvalId)
      case Some(r) => Say(s, PromotionReply(approvalId, r.id, false))
      case None => Move(s, t, Promoting(modelId, approvalId, actor, ReceiptAbsent))
  }

  function StartDraft(s: Sys, t: Tid, approvalId: Id): Sys {
    if approvalId !in s.db.approvals || !Draftable(s.db.approvals[approvalId]) then s
    else Move(s, t, Drafting(s.db.approvals[approvalId], DraftCleared))
  }

  // ----- later steps -----

  function CommitWith(s: Sys, t: Tid, tx: Option<Db>): Sys {
    match tx
    case None => End(s, t)
    case Some(db) => End(s, t).(db := db)
  }

  function AdvancePromotion(s: Sys, t: Tid, c: Call, step: Step): Sys
    requires c.Promoting?
  {
    match (c.at, step)
    case (ReceiptAbsent, LoadModel) =>
      if c.modelId !in s.db.models then End(s, t)
      else Move(s, t, c.(at := ModelLoaded(s.db.models[c.modelId])))
    case (ModelLoaded(m), ClearPromotion) =>
      if c.approvalId !in s.db.approvals || !Authorises(s.db.approvals[c.approvalId], m) then End(s, t)
      else Move(s, t, c.(at := Cleared(m, s.db.approvals[c.approvalId].status)))
    case (Cleared(m, status), MoveAlias(result)) =>
      if m.version < 1 || result.FailedBefore? then End(s, t)
      else
        var moved := s.(alias := s.alias[m.name := m.version]);
        if result.FailedAfter? then End(moved, t).(interrupted := s.interrupted + {m.name})
        else Move(moved, t, c.(at := AliasMoved(m, status)))
    case (AliasMoved(m, status), CommitPromotion(receiptId)) =>
      if c.modelId !in s.db.models then End(s, t).(interrupted := s.interrupted + {m.name})
      else
        var target := s.db.models[c.modelId];
        (match PromoteTx(s.db, target, c.approvalId, status, Strip(c.actor), receiptId)
         case None =>
           Move(s, t, c.(at := PromotionBlocked(receiptId))).(interrupted := s.interrupted + {m.name})
         case Some(db) =>
           Say(End(s, t), PromotionReply(c.approvalId, receiptId, true))
           .(db := db, interrupted := s.interrupted - {m.name}))
    case (PromotionBlocked(_), ResolvePromotion) =>
      (match ReceiptFor(s.db.receipts, c.approvalId)
       case None => End(s, t)
       case Some(r) => Say(End(s, t), PromotionReply(c.approvalId, r.id, false)))
    case _ => s
  }

  function ReceiptIdFor(receipts: seq<Receipt>, approvalId: Id): Option<Id> {
    match ReceiptFor(receipts, approvalId)
    case None => None
    case Some(r) => Some(r.id)
  }

  function AdvanceDraft(s: Sys, t: Tid, c: Call, step: Step): Sys
    requires c.Drafting?
  {
    var a := c.approval;
    match (c.point, step)
    case (DraftCleared, VerifyEvent) =>
      if a.entityId !in s.db.events then End(s, t) else Move(s, t, c.(point := EventVerified))
    case (EventVerified, LookUpDraft) =>
      if a.id in s.db.workOrders then Move(s, t, c.(point := DraftFound(s.db.workOrders[a.id])))
      else Move(s, t, c.(point := DraftAbsent))
    case (DraftAbsent, CommitDraft(workOrderId, receiptId)) =>
      if !Draftable(a) then End(s, t)
      else
        (match DraftTx(s.db, a.id, a.Effective().value, workOrderId, receiptId)
         case None => Move(s, t, c.(point := DraftBlocked(workOrderId, receiptId)))
         case Some(db) => Say(End(s, t), DraftReply(a.id, workOrderId, Some(receiptId), true)).(db := db))
    case (DraftBlocked(_, _), ResolveDraft) =>
      if a.id in s.db.workOrders then Move(s, t, c.(point := DraftFound(s.db.workOrders[a.id])))
      else End(s, t)
    case (DraftFound(w), ReplyDraft) =>
      Say(End(s, t), DraftReply(a.id, w.id, ReceiptIdFor(s.db.receipts, a.id), false))
    case _ => s
  }

  function Stop(s: Sys, t: Tid, c: Call): Sys {
    if c.Promoting? && c.at.AliasMoved? then End(s, t).(interrupted := s.interrupted + {c.at.model.name})
    else End(s, t)
  }

  function Advance(s: Sys, t: Tid, step: Step): Sys
    requires t in s.calls
  {
    var c := s.calls[t];
    if step.Crash? then Stop(s, t, c)
    else
      match c
      case Proposing(p) =>
        if step.CommitPropose? then CommitWith(s, t, ProposeTx(s.db, p)) else s
      case Deciding(id, expected, v) =>
        if step.CommitDecide? && !v.decision.UnknownDecision? then CommitWith(s, t, DecideTx(s.db, id, expected, v))
        else s
      case Requesting(m, requester, requesterId) =>
        if step.CommitRequest? then CommitWith(s, t, RequestTx(s.db, m, step.approvalId, requester, requesterId))
        else s
      case Promoting(_, _, _, _) => AdvancePromotion(s, t, c, step)
      case Drafting(_, _) => AdvanceDraft(s, t, c, step)
  }

  function Start(s: Sys, t: Tid, step: Step): Sys {
    match step
    case Register(m) => s.(db := AddModel(s.db, m))
    case Predict(e) => s.(db := s.db.(events := s.db.events + {e}))
    case BeginPropose(p) => StartPropose(s, t, p)
    case BeginDecide(id, v, version) => StartDecide(s, t, id, v, version)
    case BeginRequest(m, requester, requesterId) => StartRequest(s, t, m, requester, requesterId)
    case BeginPromotion(m, a, actor) => StartPromotion(s, t, m, a, actor)
    case BeginDraft(a) => StartDraft(s, t, a)
    case _ => s
  }

  /** One step of call `t`; a step the call is not ready for changes nothing. */
  function Apply(s: Sys, t: Tid, step: Step): Sys {
    if t in s.calls then Advance(s, t, step) else Start(s, t, step)
  }

  /** A step past the end of its call does nothing. */
  lemma Ended(s: Sys, t: Tid, step: Step)
    requires t !in s.calls
    requires step.LoadModel? || step.ClearPromotion? || step.MoveAlias? || step.CommitPromotion?
             || step.ResolvePromotion? || step.VerifyEvent? || step.LookUpDraft? || step.CommitDraft?
             || step.ResolveDraft? || step.ReplyDraft?
    ensures Apply(s, t, step) == s
  {
  }

  type Trace = seq<(Tid, Step)>

  function Run(s: Sys, trace: Trace): Sys {
    if trace == [] then s
    else
      var last := trace[|trace| - 1];
      Apply(Run(s, trace[..|trace| - 1]), last.0, last.1)
  }

  const Init := Sys(EmptyDb, map[], {}, map[], [])

  // ----- what a suspended call still knows to be true -----

  ghost predicate ModelKnown(db: Db, m: Model) {
    m.id in db.models && db.models[m.id] == m
  }

  ghost predicate Clearance(db: Db, c: Call, m: Model, status: ApprovalStatus)
    requires c.Promoting?
  {
    && ModelKnown(db, m) && c.modelId == m.id
    && c.approvalId in db.approvals
    && Authorises(db.approvals[c.approvalId], m) && db.approvals[c.approvalId].status == status
  }

  ghost predicate CallOk(db: Db, c: Call) {
    match c
    case Proposing(p) => ValidProposal(p)
    case Deciding(_, _, v) => ValidVerdict(v)
    case Requesting(m, _, _) => ModelKnown(db, m)
    case Promoting(m, a, actor, at) =>
      NonBlank(actor) &&
      (match at
       case ReceiptAbsent => true
       case ModelLoaded(model) => ModelKnown(db, model) && m == model.id
       case Cleared(model, status) => Clearance(db, c, model, status)
       case AliasMoved(model, status) => Clearance(db, c, model, status)
       case PromotionBlocked(receiptId) => ReceiptBlocked(db.receipts, receiptId, a))
    case Drafting(a, point) =>
      && a.id in db.approvals && db.approvals[a.id] == a && Draftable(a)
      && (match point
          case DraftCleared => true
          case EventVerified => a.entityId in db.events
          case DraftAbsent => a.entityId in db.events
          case DraftBlocked(w, r) => a.id in db.workOrders || IdTaken(db.workOrders, db.receipts, w, r)
          case DraftFound(w) => a.id in db.workOrders && db.workOrders[a.id] == w)
  }

  ghost predicate ReplyOk(db: Db, r: Reply) {
    match r
    case PromotionReply(a, receiptId, executed) =>
      exists x :: x in db.receipts && x.approvalId == a && x.id == receiptId && (executed ==> x.outcome.Promotion?)
    case DraftReply(a, w, receipt, _) =>
      && a in db.workOrders && db.workOrders[a].id == w
      && exists x :: x in db.receipts && x.approvalId == a && receipt == Some(x.id) && x.outcome == Drafted(w)
  }

  ghost predicate CallsOk(db: Db, calls: map<Tid, Call>) {
    forall t :: t in calls ==> CallOk(db, calls[t])
  }

  ghost predicate RepliesOk(db: Db, replies: seq<Reply>) {
    forall r :: r in replies ==> ReplyOk(db, r)
  }

  ghost predicate SysInv(s: Sys) {
    DbInv(s.db) && CallsOk(s.db, s.calls) && RepliesOk(s.db, s.replies)
  }

  /** What a suspended call knows survives every step of every other call. */
  lemma CallStable(db: Db, db': Db, c: Call)
    requires Grows(db, db') && CallOk(db, c)
    ensures CallOk(db', c)
  {
  }

  lemma CallsKeep(db: Db, db': Db, calls: map<Tid, Call>, calls': map<Tid, Call>, t: Tid)
    requires CallsOk(db, calls) && Grows(db, db')
    requires forall u :: u in calls' && u != t ==> u in calls && calls'[u] == calls[u]
    requires t in calls' ==> CallOk(db', calls'[t])
    ensures CallsOk(db', calls')
  {
    forall u | u in calls' ensures CallOk(db', calls'[u]) {
      if u != t { CallStable(db, db', calls[u]); }
    }
  }

  lemma RepliesKeep(db: Db, db': Db, replies: seq<Reply>)
    requires RepliesOk(db, replies) && Grows(db, db')
    ensures RepliesOk(db', replies)
  {
  }

  lemma RepliesAppend(db: Db, replies: seq<Reply>, r: Reply)
    requires RepliesOk(db, replies) && ReplyOk(db, r)
    ensures RepliesOk(db, replies + [r])
  {
  }

  lemma EventAdded(db: Db, e: Id)
    requires DbInv(db)
    ensures DbInv(db.(events := db.events + {e})) && Grows(db, db.(events := db.events + {e}))
  {
  }

  // ----- each step keeps the invariant: the database, then the calls, then the replies -----

  ghost predicate OnlyCallMoved(s: Sys, s': Sys, t: Tid) {
    forall u :: u in s'.calls && u != t ==> u in s.calls && s'.calls[u] == s.calls[u]
  }

  ghost predicate AtMostOneReply(s: Sys, s': Sys) {
    s'.replies == s.replies ||
    exists r :: s'.replies == s.replies + [r] && ReplyOk(s'.db, r)
  }

  lemma StepKeeps(s: Sys, s': Sys, t: Tid)
    requires CallsOk(s.db, s.calls) && RepliesOk(s.db, s.replies) && Grows(s.db, s'.db)
    requires OnlyCallMoved(s, s', t) && (t in s'.calls ==> CallOk(s'.db, s'.calls[t]))
    requires AtMostOneReply(s, s')
    ensures CallsOk(s'.db, s'.calls) && RepliesOk(s'.db, s'.replies)
  {
    CallsKeep(s.db, s'.db, s.calls, s'.calls, t);
    RepliesKeep(s.db, s'.db, s.replies);
    if s'.replies != s.replies {
      var r :| s'.replies == s.replies + [r] && ReplyOk(s'.db, r);
      RepliesAppend(s'.db, s.replies, r);
    }
  }

  lemma GrowsReflexive(db: Db)
    ensures Grows(db, db)
  {
  }

  lemma StartDb(s: Sys, t: Tid, step: Step)
    requires DbInv(s.db)
    ensures DbInv(Start(s, t, step).db) && Grows(s.db, Start(s, t, step).db)
  {
    GrowsReflexive(s.db);
    hide DbInv, Grows;
    if step.Register? { AddModelKeeps(s.db, step.m); }
    if step.Predict? { EventAdded(s.db, step.eventId); }
  }

  lemma StartCall(s: Sys, t: Tid, step: Step)
    requires OrderInv(s.db.models, s.db.modelOrder) && TableInv(s.db.approvals) && t !in s.calls
    ensures var s' := Start(s, t, step);
            && OnlyCallMoved(s, s', t) && AtMostOneReply(s, s')
            && (t in s'.calls ==> CallOk(s'.db, s'.calls[t]))
  {
    if step.BeginPromotion? {
      var found := ReceiptFor(s.db.receipts, step.approvalId);
      if found.Some? {
        assert ReplyOk(s.db, PromotionReply(step.approvalId, found.value.id, false));
      }
    }
  }

  lemma StartKeeps(s: Sys, t: Tid, step: Step)
    requires SysInv(s) && t !in s.calls
    ensures SysInv(Start(s, t, step)) && Grows(s.db, Start(s, t, step).db)
  {
    StartDb(s, t, step);
    StartCall(s, t, step);
    StepKeeps(s, Start(s, t, step), t);
  }

  lemma CommitDb(s: Sys, t: Tid, step: Step)
    requires DbInv(s.db) && t in s.calls && CallOk(s.db, s.calls[t])
    requires !s.calls[t].Promoting? && !s.calls[t].Drafting?
    ensures DbInv(Advance(s, t, step).db) && Grows(s.db, Advance(s, t, step).db)
  {
    GrowsReflexive(s.db);
    hide DbInv, Grows, ProposeTx, DecideTx, RequestTx, ValidProposal, StatusFor;
    match s.calls[t]
    case Proposing(p) =>
      if ProposeTx(s.db, p).Some? { ProposeKeeps(s.db, p); }
    case Deciding(id, expected, v) =>
      if DecideTx(s.db, id, expected, v).Some? { DecideKeeps(s.db, id, expected, v); }
    case Requesting(m, requester, requesterId) =>
      if step.CommitRequest? && RequestTx(s.db, m, step.approvalId, requester, requesterId).Some? {
        RequestKeeps(s.db, m, step.approvalId, requester, requesterId);
        RequestGrows(s.db, m, step.approvalId, requester, requesterId);
      }
  }

  lemma PromotionDb(s: Sys, t: Tid, c: Call, step: Step)
    requires DbInv(s.db) && c.Promoting? && CallOk(s.db, c)
    ensures var s' := AdvancePromotion(s, t, c, step); DbInv(s'.db) && Grows(s.db, s'.db)
  {
    GrowsReflexive(s.db);
    hide DbInv, Grows;
    if c.at.AliasMoved? && step.CommitPromotion? {
      var target := s.db.models[c.modelId];
      if PromoteTx(s.db, target, c.approvalId, c.at.status, Strip(c.actor), step.receiptId).Some? {
        PromoteKeeps(s.db, target, c.approvalId, c.at.status, Strip(c.actor), step.receiptId);
      }
    }
  }

  lemma PromotionCall(s: Sys, t: Tid, c: Call, step: Step)
    requires OrderInv(s.db.models, s.db.modelOrder) && c.Promoting? && CallOk(s.db, c)
    requires t in s.calls && s.calls[t] == c
    ensures var s' := AdvancePromotion(s, t, c, step);
            && OnlyCallMoved(s, s', t) && AtMostOneReply(s, s')
            && (t in s'.calls ==> CallOk(s'.db, s'.calls[t]))
  {
    hide Authorises, PromoteTx, Strip, ReceiptFor, ReceiptBlocked, ReplyOk;
    var s' := AdvancePromotion(s, t, c, step);
    if c.at.AliasMoved? && step.CommitPromotion? {
      PromotedReply(s.db, s.db.models[c.modelId], c.approvalId, c.at.status, Strip(c.actor), step.receiptId);
    } else if c.at.PromotionBlocked? && step.ResolvePromotion? && s'.replies != s.replies {
      var r := ReceiptFor(s.db.receipts, c.approvalId).value;
      assert ReplyOk(s'.db, PromotionReply(c.approvalId, r.id, false)) by { ReplayedReply(s.db, c.approvalId, r); }
    }
  }

  lemma PromotedReply(db: Db, m: Model, approvalId: Id, status: ApprovalStatus, actor: string, receiptId: Id)
    ensures match PromoteTx(db, m, approvalId, status, actor, receiptId)
            case Some(db') => ReplyOk(db', PromotionReply(approvalId, receiptId, true))
            case None => ReceiptBlocked(db.receipts, receiptId, approvalId)
  {
  }

  lemma ReplayedReply(db: Db, approvalId: Id, r: Receipt)
    requires r in db.receipts && r.approvalId == approvalId
    ensures ReplyOk(db, PromotionReply(approvalId, r.id, false))
  {
  }

  lemma DraftDb(s: Sys, t: Tid, c: Call, step: Step)
    requires DbInv(s.db) && c.Drafting? && CallOk(s.db, c)
    ensures var s' := AdvanceDraft(s, t, c, step); DbInv(s'.db) && Grows(s.db, s'.db)
  {
    GrowsReflexive(s.db);
    hide DbInv, Grows;
    if c.point.DraftAbsent? && step.CommitDraft? {
      var a := c.approval;
      if DraftTx(s.db, a.id, a.Effective().value, step.workOrderId, step.receiptId).Some? {
        DraftKeeps(s.db, a.id, step.workOrderId, step.receiptId);
      }
    }
  }

  lemma DraftCommitCall(s: Sys, t: Tid, c: Call, workOrderId: Id, receiptId: Id)
    requires ReceiptsInv(s.db.approvals, s.db.models, s.db.receipts)
    requires WorkOrdersInv(s.db.approvals, s.db.receipts, s.db.workOrders)
    requires c.Drafting? && c.point.DraftAbsent? && CallOk(s.db, c) && t in s.calls && s.calls[t] == c
    ensures var s' := AdvanceDraft(s, t, c, CommitDraft(workOrderId, receiptId));
            && OnlyCallMoved(s, s', t) && AtMostOneReply(s, s')
            && (t in s'.calls ==> CallOk(s'.db, s'.calls[t]))
  {
    hide WorkOrdersInv, ReceiptsInv, AdvanceDraft, DraftTx, IdTaken, ReplyOk, Draftable;
    var a := c.approval;
    DraftableTexts(a);
    DraftFailsOnlyOnReplay(s.db, a.id, a.Effective().value, workOrderId, receiptId);
    DraftCommitShape(s, t, c, workOrderId, receiptId);
    if DraftTx(s.db, a.id, a.Effective().value, workOrderId, receiptId).Some? {
      DraftedReply(s.db, a.id, a.Effective().value, workOrderId, receiptId);
    }
  }

  lemma DraftCommitShape(s: Sys, t: Tid, c: Call, workOrderId: Id, receiptId: Id)
    requires c.Drafting? && c.point.DraftAbsent? && Draftable(c.approval)
    ensures AdvanceDraft(s, t, c, CommitDraft(workOrderId, receiptId)) ==
            match DraftTx(s.db, c.approval.id, c.approval.Effective().value, workOrderId, receiptId)
            case None => Move(s, t, c.(point := DraftBlocked(workOrderId, receiptId)))
            case Some(db) => Say(End(s, t), DraftReply(c.approval.id, workOrderId, Some(receiptId), true)).(db := db)
  {
  }

  lemma DraftedReply(db: Db, a: Id, p: Payload, workOrderId: Id, receiptId: Id)
    requires "asset_id" in p && p["asset_id"].JString? && "priority" in p && p["priority"].JString?
    requires "recommended_action" in p && p["recommended_action"].JString?
    requires DraftTx(db, a, p, workOrderId, receiptId).Some?
    ensures ReplyOk(DraftTx(db, a, p, workOrderId, receiptId).value, DraftReply(a, workOrderId, Some(receiptId), true))
  {
  }

  lemma DraftCall(s: Sys, t: Tid, c: Call, step: Step)
    requires ReceiptsInv(s.db.approvals, s.db.models, s.db.receipts)
    requires WorkOrdersInv(s.db.approvals, s.db.receipts, s.db.workOrders)
    requires c.Drafting? && CallOk(s.db, c) && t in s.calls && s.calls[t] == c
    ensures var s' := AdvanceDraft(s, t, c, step);
            && OnlyCallMoved(s, s', t) && AtMostOneReply(s, s')
            && (t in s'.calls ==> CallOk(s'.db, s'.calls[t]))
  {
    hide WorkOrdersInv, ReceiptsInv, ValidDraftPayload;
    if c.point.DraftAbsent? && step.CommitDraft? {
      DraftCommitCall(s, t, c, step.workOrderId, step.receiptId);
    } else if c.point.DraftFound? && step.ReplyDraft? {
      WorkOrderIffReceipt(s.db.approvals, s.db.models, s.db.receipts, s.db.workOrders, c.approval.id);
      var r := ReceiptFor(s.db.receipts, c.approval.id).value;
      assert ReplyOk(s.db, DraftReply(c.approval.id, c.point.workOrder.id, Some(r.id), false));
    }
  }

  lemma CommitCall(s: Sys, t: Tid, step: Step)
    requires t in s.calls && CallOk(s.db, s.calls[t])
    requires (!s.calls[t].Promoting? && !s.calls[t].Drafting?) || step.Crash?
    ensures var s' := Advance(s, t, step);
            && OnlyCallMoved(s, s', t) && AtMostOneReply(s, s')
            && (t in s'.calls ==> s' == s)
  {
  }

  lemma InvariantParts(db: Db)
    requires DbInv(db)
    ensures OrderInv(db.models, db.modelOrder)
    ensures ReceiptsInv(db.approvals, db.models, db.receipts)
    ensures WorkOrdersInv(db.approvals, db.receipts, db.workOrders)
  {
  }

  lemma AdvancePromotionKeeps(s: Sys, t: Tid, c: Call, step: Step)
    requires SysInv(s) && t in s.calls && s.calls[t] == c && c.Promoting?
    ensures var s' := AdvancePromotion(s, t, c, step); SysInv(s') && Grows(s.db, s'.db)
  {
    InvariantParts(s.db);
    hide DbInv, Grows, OrderInv, ReceiptsInv, WorkOrdersInv, CallOk, AdvancePromotion, AtMostOneReply;
    PromotionDb(s, t, c, step);
    PromotionCall(s, t, c, step);
    StepKeeps(s, AdvancePromotion(s, t, c, step), t);
  }

  lemma AdvanceDraftKeeps(s: Sys, t: Tid, c: Call, step: Step)
    requires SysInv(s) && t in s.calls && s.calls[t] == c && c.Drafting?
    ensures var s' := AdvanceDraft(s, t, c, step); SysInv(s') && Grows(s.db, s'.db)
  {
    InvariantParts(s.db);
    hide DbInv, Grows, OrderInv, ReceiptsInv, WorkOrdersInv, CallOk, AdvanceDraft, AtMostOneReply;
    DraftDb(s, t, c, step);
    DraftCall(s, t, c, step);
    StepKeeps(s, AdvanceDraft(s, t, c, step), t);
  }

  lemma StopKeeps(s: Sys, t: Tid)
    requires SysInv(s) && t in s.calls
    ensures SysInv(Stop(s, t, s.calls[t])) && Grows(s.db, Stop(s, t, s.calls[t]).db)
  {
    hide DbInv, CallOk, ReplyOk;
  }

  lemma AdvanceKeeps(s: Sys, t: Tid, step: Step)
    requires SysInv(s) && t in s.calls
    ensures SysInv(Advance(s, t, step)) && Grows(s.db, Advance(s, t, step).db)
  {
    hide DbInv, Grows, CallOk, AdvancePromotion, AdvanceDraft, AtMostOneReply, Stop;
    var c := s.calls[t];
    if step.Crash? {
      StopKeeps(s, t);
    } else if c.Promoting? {
      AdvancePromotionKeeps(s, t, c, step);
    } else if c.Drafting? {
      AdvanceDraftKeeps(s, t, c, step);
    } else {
      CommitDb(s, t, step);
      CommitCall(s, t, step);
      StepKeeps(s, Advance(s, t, step), t);
    }
  }

  /** One step of any call, from any state satisfying the invariant. */
  lemma ApplyKeeps(s: Sys, t: Tid, step: Step)
    requires SysInv(s)
    ensures SysInv(Apply(s, t, step)) && Grows(s.db, Apply(s, t, step).db)
  {
    if t in s.calls { AdvanceKeeps(s, t, step); } else { StartKeeps(s, t, step); }
  }

  /** Every interleaving, of any length, with crashes anywhere. */
  lemma {:induction false} RunKeeps(s: Sys, trace: Trace)
    requires SysInv(s)
    ensures SysInv(Run(s, trace)) && Grows(s.db, Run(s, trace).db)
  {
    if trace != [] {
      var n := |trace| - 1;
      RunKeeps(s, trace[..n]);
      ApplyKeeps(Run(s, trace[..n]), trace[n].0, trace[n].1);
      GrowsTransitive(s.db, Run(s, trace[..n]).db, Run(s, trace).db);
    }
  }

  lemma InitInv()
    ensures SysInv(Init)
  {
  }
}
