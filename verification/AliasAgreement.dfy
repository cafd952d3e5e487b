/**
 The champion alias lives outside the database and is written before the transaction. This module
 says when it agrees with the lifecycle table, how it can stop agreeing, and what restores it.
 */
module AliasAgreement {
  import opened Wrappers
  import opened Records
  import opened ApprovalGate
  import opened Promotion
  import opened WorkOrders
  import opened Ledger
  import opened Protocol
  import opened Guarantees

  /** The alias names the version of the champion, or is unset while the name has no champion. */
  ghost predicate Agrees(s: Sys, name: string) {
    match LastTarget(s.db.receipts, name)
    case None => name !in s.alias
    case Some(m) => m in s.db.models && name in s.alias && s.alias[name] == s.db.models[m].version
  }

  /** Call `t` is executing a promotion for a model of this name and may still write. */
  ghost predicate Promotes(s: Sys, t: Tid, name: string) {
    && t in s.calls && s.calls[t].Promoting? && !s.calls[t].at.PromotionBlocked?
    && s.calls[t].modelId in s.db.models && s.db.models[s.calls[t].modelId].name == name
  }

  ghost predicate NoOverlap(s: Sys, name: string) {
    forall t, u :: Promotes(s, t, name) && Promotes(s, u, name) ==> t == u
  }

  /** Between its alias write and its transaction. */
  ghost predicate InWindow(s: Sys, t: Tid, name: string) {
    t in s.calls && s.calls[t].Promoting? && s.calls[t].at.AliasMoved? && s.calls[t].at.model.name == name
  }

  ghost predicate Unexecuted(receipts: seq<Receipt>, approvalId: Id, modelId: Id) {
    forall r :: r in receipts && r.approvalId == approvalId && r.outcome.Promotion? ==> r.outcome.modelId != modelId
  }

  ghost predicate AliasInv(s: Sys, name: string) {
    && (forall t :: Promotes(s, t, name) ==> Unexecuted(s.db.receipts, s.calls[t].approvalId, s.calls[t].modelId))
    && (forall t :: InWindow(s, t, name) ==> name in s.alias && s.alias[name] == s.calls[t].at.model.version)
    && ((forall t :: !InWindow(s, t, name)) && name !in s.interrupted ==> Agrees(s, name))
  }

  lemma Parts(s: Sys)
    requires SysInv(s)
    ensures CallsOk(s.db, s.calls)
    ensures forall m :: m in s.db.models ==> s.db.models[m].id == m
    ensures NamesInv(s.db.models, s.db.receipts)
    ensures ReceiptsInv(s.db.approvals, s.db.models, s.db.receipts)
  {
  }

  lemma WindowPromotes(s: Sys, t: Tid, name: string)
    requires CallsOk(s.db, s.calls) && InWindow(s, t, name)
    ensures Promotes(s, t, name)
  {
  }

  /** Steps that touch neither the alias, nor the receipts, nor any promotion call. */
  lemma QuietStepKeepsAlias(s: Sys, s': Sys, name: string)
    requires AliasInv(s, name) && NamesInv(s.db.models, s.db.receipts)
    requires s'.alias == s.alias && s'.interrupted == s.interrupted && Extended(s.db.models, s'.db.models)
    requires forall r :: r in s'.db.receipts ==> r in s.db.receipts || r.outcome.Drafted?
    requires LastTarget(s'.db.receipts, name) == LastTarget(s.db.receipts, name)
    requires forall t :: t in s'.calls && s'.calls[t].Promoting? ==>
      || (t in s.calls && s.calls[t] == s'.calls[t])
      || (s'.calls[t].at.ReceiptAbsent? && Unexecuted(s'.db.receipts, s'.calls[t].approvalId, s'.calls[t].modelId))
    requires forall t :: InWindow(s, t, name) ==> InWindow(s', t, name)
    ensures AliasInv(s', name)
  {
  }

  lemma StartKeepsAlias(s: Sys, t: Tid, step: Step, name: string)
    requires SysInv(s) && AliasInv(s, name) && t !in s.calls
    ensures AliasInv(Start(s, t, step), name)
  {
    hide SysInv, NamesInv, ReceiptsInv, CallsOk, Start, AliasInv;
    Parts(s);
    StartIsQuiet(s, t, step);
    var s' := Start(s, t, step);
    forall u | InWindow(s, u, name) ensures InWindow(s', u, name) {
    }
    QuietStepKeepsAlias(s, s', name);
  }

  /** A first step leaves alias, receipts and running calls alone; a promotion starts with its approval unexecuted. */
  lemma StartIsQuiet(s: Sys, t: Tid, step: Step)
    requires t !in s.calls
    ensures var s' := Start(s, t, step);
      && s'.alias == s.alias && s'.interrupted == s.interrupted && Extended(s.db.models, s'.db.models)
      && s'.db.receipts == s.db.receipts
      && (forall u :: u in s.calls ==> u in s'.calls && s'.calls[u] == s.calls[u])
      && (forall u :: u in s'.calls && u != t ==> u in s.calls)
      && (t in s'.calls && s'.calls[t].Promoting? ==>
            s'.calls[t].at.ReceiptAbsent? && Unexecuted(s.db.receipts, s'.calls[t].approvalId, s'.calls[t].modelId))
  {
    hide ValidProposal, ValidVerdict, Draftable, HasPending, NonBlank;
  }

  lemma DraftKeepsAlias(s: Sys, t: Tid, c: Call, step: Step, name: string)
    requires NamesInv(s.db.models, s.db.receipts) && AliasInv(s, name)
    requires t in s.calls && s.calls[t] == c && c.Drafting?
    ensures AliasInv(AdvanceDraft(s, t, c, step), name)
  {
    hide AdvanceDraft, AliasInv, NamesInv;
    var s' := AdvanceDraft(s, t, c, step);
    DraftIsQuiet(s, t, c, step);
    if s'.db.receipts != s.db.receipts {
      var r :| s'.db.receipts == s.db.receipts + [r] && r.outcome.Drafted?;
      AppendReceipt(s.db.receipts, r);
    }
    forall u | InWindow(s, u, name) ensures InWindow(s', u, name) {
    }
    QuietStepKeepsAlias(s, s', name);
  }

  lemma DraftIsQuiet(s: Sys, t: Tid, c: Call, step: Step)
    requires t in s.calls && s.calls[t] == c && c.Drafting?
    ensures var s' := AdvanceDraft(s, t, c, step);
      && s'.alias == s.alias && s'.interrupted == s.interrupted && s'.db.models == s.db.models
      && (forall u :: u in s'.calls ==> u in s.calls)
      && (forall u :: u in s.calls && u != t ==> u in s'.calls && s'.calls[u] == s.calls[u])
      && (t in s'.calls ==> s'.calls[t].Drafting?)
      && (s'.db.receipts != s.db.receipts ==> exists r :: s'.db.receipts == s.db.receipts + [r] && r.outcome.Drafted?)
  {
    var s' := AdvanceDraft(s, t, c, step);
    if c.point.DraftAbsent? && step.CommitDraft? && Draftable(c.approval) {
      DraftCommitShape(s, t, c, step.workOrderId, step.receiptId);
      DraftableTexts(c.approval);
      hide AdvanceDraft, Draftable, Draft, IdTaken, ReceiptBlocked;
      if s'.db != s.db {
        assert s'.db.receipts == s.db.receipts + [Receipt(step.receiptId, c.approval.id, Drafted(step.workOrderId))];
      }
    }
  }

  /** A call of another name: at most its own entry, another alias and a receipt of another name change. */
  ghost predicate ForeignStep(s: Sys, s': Sys, t: Tid, name: string) {
    && s'.db.models == s.db.models && OnlyCallMoved(s, s', t)
    && t in s.calls && s.calls[t].Promoting? && !InWindow(s', t, name) && !Promotes(s', t, name)
    && (forall u :: u in s.calls && u != t ==> u in s'.calls)
    && (name in s'.alias <==> name in s.alias) && (name in s.alias ==> s'.alias[name] == s.alias[name])
    && (name in s'.interrupted <==> name in s.interrupted)
    && (s'.db.receipts == s.db.receipts
        || exists r :: s'.db.receipts == s.db.receipts + [r] && ForeignReceipt(s.db.models, r, name))
  }

  ghost predicate ForeignReceipt(models: Models, r: Receipt, name: string) {
    && r.outcome.Promotion? && r.outcome.name != name
    && r.outcome.modelId in models && models[r.outcome.modelId].name == r.outcome.name
  }

  lemma ForeignStepKeepsAlias(s: Sys, s': Sys, t: Tid, name: string)
    requires AliasInv(s, name) && !InWindow(s, t, name) && ForeignStep(s, s', t, name)
    ensures AliasInv(s', name)
  {
    if s'.db.receipts != s.db.receipts {
      var r :| s'.db.receipts == s.db.receipts + [r] && ForeignReceipt(s.db.models, r, name);
      AppendReceipt(s.db.receipts, r);
    }
    forall u | Promotes(s', u, name)
      ensures Unexecuted(s'.db.receipts, s'.calls[u].approvalId, s'.calls[u].modelId)
    {
      assert Promotes(s, u, name);
    }
    forall u | InWindow(s', u, name) ensures name in s'.alias && s'.alias[name] == s'.calls[u].at.model.version {
      assert InWindow(s, u, name);
    }
    if (forall u :: !InWindow(s', u, name)) && name !in s'.interrupted {
      forall u ensures !InWindow(s, u, name) {
        assert InWindow(s, u, name) ==> InWindow(s', u, name);
      }
    }
  }

  /** With a single promoter of the name, the invariant is a statement about that call alone. */
  lemma SoloAlias(s: Sys, t: Tid, name: string)
    requires forall u :: u != t ==> !Promotes(s, u, name) && !InWindow(s, u, name)
    requires Promotes(s, t, name) ==> Unexecuted(s.db.receipts, s.calls[t].approvalId, s.calls[t].modelId)
    requires InWindow(s, t, name) ==> name in s.alias && s.alias[name] == s.calls[t].at.model.version
    requires !InWindow(s, t, name) && name !in s.interrupted ==> Agrees(s, name)
    ensures AliasInv(s, name)
  {
  }

  lemma OthersStayAway(s: Sys, s': Sys, t: Tid, name: string)
    requires CallsOk(s.db, s.calls) && NoOverlap(s, name) && Promotes(s, t, name)
    requires OnlyCallMoved(s, s', t) && s'.db.models == s.db.models
    ensures forall u :: u != t ==> !Promotes(s', u, name) && !InWindow(s', u, name)
    ensures forall u :: u != t ==> !InWindow(s, u, name)
  {
    forall u | u != t ensures !Promotes(s', u, name) && !InWindow(s', u, name) && !InWindow(s, u, name) {
      assert Promotes(s', u, name) ==> Promotes(s, u, name);
      assert InWindow(s', u, name) ==> InWindow(s, u, name);
      if InWindow(s, u, name) { WindowPromotes(s, u, name); }
    }
  }

  /** A promotion step of the name itself, taken while no other call promotes it. */
  lemma OwnStepKeepsAlias(s: Sys, t: Tid, c: Call, step: Step, name: string)
    requires SysInv(s) && AliasInv(s, name) && NoOverlap(s, name) && Promotes(s, t, name) && s.calls[t] == c
    ensures AliasInv(AdvancePromotion(s, t, c, step), name)
  {
    hide SysInv, ReceiptsInv, NamesInv, CallOk, Authorises, AdvancePromotion, Unexecuted;
    Parts(s);
    PromotionMovesOne(s, t, c, step);
    var s' := AdvancePromotion(s, t, c, step);
    OthersStayAway(s, s', t, name);
    assert !InWindow(s, t, name) && name !in s.interrupted ==> Agrees(s, name);
    OwnFacts(s, t, c, step, name);
    SoloAlias(s', t, name);
  }

  lemma PromotionMovesOne(s: Sys, t: Tid, c: Call, step: Step)
    requires t in s.calls && s.calls[t] == c && c.Promoting?
    ensures var s' := AdvancePromotion(s, t, c, step); OnlyCallMoved(s, s', t) && s'.db.models == s.db.models
  {
    hide Authorises, Champions, NamedIds, Strip, ReceiptFor, ReceiptBlocked, Promoted;
  }

  lemma OwnFacts(s: Sys, t: Tid, c: Call, step: Step, name: string)
    requires Promotes(s, t, name) && s.calls[t] == c && CallOk(s.db, c)
    requires Unexecuted(s.db.receipts, c.approvalId, c.modelId)
    requires InWindow(s, t, name) ==> name in s.alias && s.alias[name] == c.at.model.version
    requires !InWindow(s, t, name) && name !in s.interrupted ==> Agrees(s, name)
    ensures var s' := AdvancePromotion(s, t, c, step);
      && (Promotes(s', t, name) ==> Unexecuted(s'.db.receipts, s'.calls[t].approvalId, s'.calls[t].modelId))
      && (InWindow(s', t, name) ==> name in s'.alias && s'.alias[name] == s'.calls[t].at.model.version)
      && (!InWindow(s', t, name) && name !in s'.interrupted ==> Agrees(s', name))
  {
    hide Authorises, PromoteTx, ReceiptBlocked, NonBlank, Strip, Agrees, ReceiptFor;
    var s' := AdvancePromotion(s, t, c, step);
    if c.at.AliasMoved? && step.CommitPromotion? {
      if ReceiptBlocked(s.db.receipts, step.receiptId, c.approvalId) {
        RefusedCommit(s, t, name, step.receiptId);
      } else {
        CommitAgreesIff(s, t, name, step.receiptId);
      }
    }
    if s'.db == s.db && s'.alias == s.alias { SameAgreement(s, s', name); }
  }

  lemma SameAgreement(s: Sys, s': Sys, name: string)
    requires s'.db.receipts == s.db.receipts && s'.db.models == s.db.models && s'.alias == s.alias
    ensures Agrees(s', name) <==> Agrees(s, name)
  {
  }

  lemma OtherStepIsForeign(s: Sys, t: Tid, c: Call, step: Step, name: string)
    requires t in s.calls && s.calls[t] == c && c.Promoting? && CallOk(s.db, c) && !Promotes(s, t, name)
    requires forall m :: m in s.db.models ==> s.db.models[m].id == m
    ensures !InWindow(s, t, name) && ForeignStep(s, AdvancePromotion(s, t, c, step), t, name)
  {
    hide AdvancePromotion, ForeignStep, CallOk;
    if c.at.AliasMoved? && step.CommitPromotion? {
      CommitIsForeign(s, t, c, step.receiptId, name);
    } else {
      MoveIsForeign(s, t, c, step, name);
    }
  }

  lemma MoveIsForeign(s: Sys, t: Tid, c: Call, step: Step, name: string)
    requires t in s.calls && s.calls[t] == c && c.Promoting? && CallOk(s.db, c) && !Promotes(s, t, name)
    requires forall m :: m in s.db.models ==> s.db.models[m].id == m
    requires !(c.at.AliasMoved? && step.CommitPromotion?)
    ensures !InWindow(s, t, name) && ForeignStep(s, AdvancePromotion(s, t, c, step), t, name)
  {
    hide Authorises, PromoteTx, NonBlank, Strip, ReceiptFor, ReceiptBlocked;
  }

  lemma CommitIsForeign(s: Sys, t: Tid, c: Call, receiptId: Id, name: string)
    requires t in s.calls && s.calls[t] == c && c.Promoting? && CallOk(s.db, c) && !Promotes(s, t, name)
    requires c.at.AliasMoved?
    ensures !InWindow(s, t, name) && ForeignStep(s, AdvancePromotion(s, t, c, CommitPromotion(receiptId)), t, name)
  {
    hide Authorises, PromoteTx, NonBlank, Strip, ReceiptFor, ReceiptBlocked, AdvancePromotion;
    CommitShape(s, t, c, receiptId);
    PromotionAppends(s.db, c.at.model, c.approvalId, c.at.status, Strip(c.actor), receiptId);
    var s' := AdvancePromotion(s, t, c, CommitPromotion(receiptId));
    if s'.db.receipts != s.db.receipts {
      var r := s'.db.receipts[|s.db.receipts|];
      assert s'.db.receipts == s.db.receipts + [r] && ForeignReceipt(s.db.models, r, name);
    }
  }

  /** The transaction step of a cleared promotion, spelled out. */
  lemma CommitShape(s: Sys, t: Tid, c: Call, receiptId: Id)
    requires c.Promoting? && c.at.AliasMoved? && CallOk(s.db, c)
    ensures var m := c.at.model;
      AdvancePromotion(s, t, c, CommitPromotion(receiptId)) ==
      match PromoteTx(s.db, m, c.approvalId, c.at.status, Strip(c.actor), receiptId)
      case None => Move(s, t, c.(at := PromotionBlocked(receiptId))).(interrupted := s.interrupted + {m.name})
      case Some(db) =>
        Say(End(s, t), PromotionReply(c.approvalId, receiptId, true))
        .(db := db, interrupted := s.interrupted - {m.name})
  {
    hide PromoteTx, Strip, Authorises, NonBlank;
  }

  lemma PromotionAppends(db: Db, target: Model, approvalId: Id, status: ApprovalStatus, actor: string, receiptId: Id)
    ensures match PromoteTx(db, target, approvalId, status, actor, receiptId)
            case None => ReceiptBlocked(db.receipts, receiptId, approvalId)
            case Some(tx) =>
              && !ReceiptBlocked(db.receipts, receiptId, approvalId)
              && tx.models == db.models && tx.approvals == db.approvals
              && |tx.receipts| == |db.receipts| + 1
              && var r := tx.receipts[|db.receipts|];
              tx.receipts == db.receipts + [r] && r.outcome.Promotion? && r.outcome.name == target.name
              && r.outcome.modelId == target.id && r.id == receiptId && r.approvalId == approvalId
  {
    hide Champions, NamedIds, Promoted, ReceiptBlocked;
  }

  lemma OtherStepKeepsAlias(s: Sys, t: Tid, c: Call, step: Step, name: string)
    requires SysInv(s) && AliasInv(s, name) && !Promotes(s, t, name)
    requires t in s.calls && s.calls[t] == c && c.Promoting?
    ensures AliasInv(AdvancePromotion(s, t, c, step), name)
  {
    hide SysInv, ReceiptsInv, NamesInv, AdvancePromotion, AliasInv, ForeignStep, CallOk;
    Parts(s);
    OtherStepIsForeign(s, t, c, step, name);
    ForeignStepKeepsAlias(s, AdvancePromotion(s, t, c, step), t, name);
  }

  lemma CrashKeepsAlias(s: Sys, t: Tid, name: string)
    requires SysInv(s) && AliasInv(s, name) && t in s.calls
    ensures AliasInv(Stop(s, t, s.calls[t]), name)
  {
    hide DbInv, CallOk, ReplyOk;
    var s' := Stop(s, t, s.calls[t]);
    forall u | Promotes(s', u, name)
      ensures Unexecuted(s'.db.receipts, s'.calls[u].approvalId, s'.calls[u].modelId)
    {
      assert Promotes(s, u, name);
    }
    forall u | InWindow(s', u, name) ensures name in s'.alias && s'.alias[name] == s'.calls[u].at.model.version {
      assert InWindow(s, u, name);
    }
    if (forall u :: !InWindow(s', u, name)) && name !in s'.interrupted {
      forall u ensures !InWindow(s, u, name) {
        assert InWindow(s, u, name) && u != t ==> InWindow(s', u, name);
      }
    }
  }

  lemma CommitLeavesReceipts(s: Sys, t: Tid, step: Step)
    requires t in s.calls && !s.calls[t].Promoting? && !s.calls[t].Drafting?
    requires !step.Crash?
    ensures var s' := Advance(s, t, step);
      && s'.db.receipts == s.db.receipts && s'.db.models == s.db.models
      && s'.alias == s.alias && s'.interrupted == s.interrupted
      && (forall u :: u in s'.calls ==> u in s.calls && s'.calls[u] == s.calls[u])
      && (forall u :: u in s.calls && s.calls[u].Promoting? ==> u in s'.calls)
  {
    hide Transition, Insert, ValidProposal, StatusFor, RequestPayload;
  }

  lemma CommitKeepsAlias(s: Sys, t: Tid, step: Step, name: string)
    requires SysInv(s) && AliasInv(s, name) && t in s.calls
    requires !s.calls[t].Promoting? && !s.calls[t].Drafting? && !step.Crash?
    ensures AliasInv(Advance(s, t, step), name)
  {
    hide SysInv, CallsOk, ReceiptsInv, ReplyOk, Advance;
    Parts(s);
    CommitLeavesReceipts(s, t, step);
    QuietStepKeepsAlias(s, Advance(s, t, step), name);
  }

  lemma ApplyKeepsAlias(s: Sys, t: Tid, step: Step, name: string)
    requires SysInv(s) && AliasInv(s, name) && NoOverlap(s, name)
    ensures AliasInv(Apply(s, t, step), name)
  {
    assert NamesInv(s.db.models, s.db.receipts);
    hide DbInv, CallsOk, RepliesOk, AliasInv, NoOverlap, AdvancePromotion, AdvanceDraft, Stop, Start;
    if t !in s.calls {
      StartKeepsAlias(s, t, step, name);
    } else if step.Crash? {
      CrashKeepsAlias(s, t, name);
    } else if s.calls[t].Promoting? {
      if Promotes(s, t, name) {
        OwnStepKeepsAlias(s, t, s.calls[t], step, name);
      } else {
        OtherStepKeepsAlias(s, t, s.calls[t], step, name);
      }
    } else if s.calls[t].Drafting? {
      DraftKeepsAlias(s, t, s.calls[t], step, name);
    } else {
      CommitKeepsAlias(s, t, step, name);
    }
  }

  ghost predicate NeverOverlapping(trace: Trace, name: string) {
    forall k :: 0 <= k <= |trace| ==> NoOverlap(Run(Init, trace[..k]), name)
  }

  lemma {:induction false} AliasInvReached(trace: Trace, name: string)
    requires NeverOverlapping(trace, name)
    ensures AliasInv(Run(Init, trace), name)
  {
    hide SysInv, AliasInv, Apply, NoOverlap;
    if trace == [] {
      InitAlias(name);
    } else {
      var n := |trace| - 1;
      forall k | 0 <= k <= n ensures NoOverlap(Run(Init, trace[..n][..k]), name) {
        assert trace[..n][..k] == trace[..k];
      }
      AliasInvReached(trace[..n], name);
      ReachedInv(trace[..n]);
      ApplyKeepsAlias(Run(Init, trace[..n]), trace[n].0, trace[n].1, name);
    }
  }

  lemma InitAlias(name: string)
    ensures AliasInv(Init, name)
  {
  }

  /**
   As long as promotions of a name never overlap, the alias agrees with the champion in every state
   that is neither inside some call's window between alias write and transaction, nor left behind by
   a call that stopped in that window; inside the window it already names the version being promoted.
   */
  lemma AliasAgreesOutsideTheWindow(trace: Trace, name: string)
    requires NeverOverlapping(trace, name)
    ensures var s := Run(Init, trace);
      (forall t :: !InWindow(s, t, name)) && name !in s.interrupted ==> Agrees(s, name)
    ensures var s := Run(Init, trace);
      forall t :: InWindow(s, t, name) ==> name in s.alias && s.alias[name] == s.calls[t].at.model.version
  {
    hide NeverOverlapping, Run, Agrees, Promotes;
    AliasInvReached(trace, name);
  }

  /** Without overlap a commit is refused only when the drawn receipt id is already in use. */
  lemma NoOverlapNoConflict(trace: Trace, t: Tid, name: string, receiptId: Id)
    requires NeverOverlapping(trace, name)
    requires InWindow(Run(Init, trace), t, name)
    ensures var s := Run(Init, trace);
      ReceiptBlocked(s.db.receipts, receiptId, s.calls[t].approvalId) <==>
      exists r :: r in s.db.receipts && r.id == receiptId
  {
    AliasInvReached(trace, name);
    ReachedInv(trace);
    hide NeverOverlapping, Run;
    var s := Run(Init, trace);
    WindowUnexecuted(s, t, name);
  }

  lemma WindowUnexecuted(s: Sys, t: Tid, name: string)
    requires SysInv(s) && AliasInv(s, name) && InWindow(s, t, name)
    ensures forall r :: r in s.db.receipts ==> r.approvalId != s.calls[t].approvalId
  {
    hide SysInv, NamesInv, ReplyOk, ValidPayload, ValidDraftPayload;
    Parts(s);
    WindowPromotes(s, t, name);
    var c := s.calls[t];
    assert CallOk(s.db, c) && Unexecuted(s.db.receipts, c.approvalId, c.modelId);
    forall r | r in s.db.receipts ensures r.approvalId != c.approvalId {
      assert Authorised(s.db.approvals, s.db.models, r);
    }
  }

  /** The steps of one promotion call up to its alias write, with nobody else stepping in between. */
  function Approach(s: Sys, t: Tid, modelId: Id, approvalId: Id, actor: string): Sys {
    var s1 := Apply(s, t, BeginPromotion(modelId, approvalId, actor));
    var s2 := Apply(s1, t, LoadModel);
    var s3 := Apply(s2, t, ClearPromotion);
    Apply(s3, t, MoveAlias(Moved))
  }

  function Attempt(s: Sys, t: Tid, modelId: Id, approvalId: Id, actor: string, receiptId: Id): Sys {
    Apply(Approach(s, t, modelId, approvalId, actor), t, CommitPromotion(receiptId))
  }

  lemma ApproachOpensWindow(s: Sys, t: Tid, m: Model, approvalId: Id, actor: string)
    requires t !in s.calls && ModelKnown(s.db, m) && m.version >= 1 && NonBlank(actor)
    requires approvalId in s.db.approvals && Authorises(s.db.approvals[approvalId], m)
    requires ReceiptFor(s.db.receipts, approvalId).None?
    ensures var c := Promoting(m.id, approvalId, actor, AliasMoved(m, s.db.approvals[approvalId].status));
      Approach(s, t, m.id, approvalId, actor) ==
      s.(alias := s.alias[m.name := m.version], calls := s.calls[t := c])
  {
    hide Authorises, NonBlank, ReceiptFor, Apply;
    StartsPromotion(s, t, m.id, approvalId, actor);
    var s1 := Apply(s, t, BeginPromotion(m.id, approvalId, actor));
    var s2 := Apply(s1, t, LoadModel);
    assert s2 == s.(calls := s.calls[t := Promoting(m.id, approvalId, actor, ModelLoaded(m))])
           by { LoadsModel(s1, t, m, approvalId, actor); }
    var status := s.db.approvals[approvalId].status;
    var s3 := Apply(s2, t, ClearPromotion);
    assert s3 == s.(calls := s.calls[t := Promoting(m.id, approvalId, actor, Cleared(m, status))])
           by { ClearsPromotion(s2, t, m, approvalId, actor); }
    MovesAlias(s3, t, m, approvalId, actor, status);
  }

  lemma LoadsModel(s: Sys, t: Tid, m: Model, approvalId: Id, actor: string)
    requires t in s.calls && s.calls[t] == Promoting(m.id, approvalId, actor, ReceiptAbsent) && ModelKnown(s.db, m)
    ensures Apply(s, t, LoadModel) == s.(calls := s.calls[t := Promoting(m.id, approvalId, actor, ModelLoaded(m))])
  {
  }

  lemma ClearsPromotion(s: Sys, t: Tid, m: Model, approvalId: Id, actor: string)
    requires t in s.calls && s.calls[t] == Promoting(m.id, approvalId, actor, ModelLoaded(m))
    requires approvalId in s.db.approvals && Authorises(s.db.approvals[approvalId], m)
    ensures Apply(s, t, ClearPromotion) ==
            s.(calls := s.calls[t := Promoting(m.id, approvalId, actor, Cleared(m, s.db.approvals[approvalId].status))])
  {
  }

  lemma MovesAlias(s: Sys, t: Tid, m: Model, approvalId: Id, actor: string, status: ApprovalStatus)
    requires t in s.calls && s.calls[t] == Promoting(m.id, approvalId, actor, Cleared(m, status)) && m.version >= 1
    ensures Apply(s, t, MoveAlias(Moved)) ==
            s.(alias := s.alias[m.name := m.version],
                calls := s.calls[t := Promoting(m.id, approvalId, actor, AliasMoved(m, status))])
  {
  }

  lemma StartsPromotion(s: Sys, t: Tid, modelId: Id, approvalId: Id, actor: string)
    requires t !in s.calls && NonBlank(actor) && ReceiptFor(s.db.receipts, approvalId).None?
    ensures Apply(s, t, BeginPromotion(modelId, approvalId, actor)) ==
            s.(calls := s.calls[t := Promoting(modelId, approvalId, actor, ReceiptAbsent)])
  {
  }

  /**
   Whatever state crashes and overlaps have left behind, one undisturbed promotion of any model of the
   name, under an authorising approval not executed before, makes alias and champion agree again.
   */
  lemma AttemptRestoresAgreement(s: Sys, t: Tid, m: Model, approvalId: Id, actor: string, receiptId: Id)
    requires t !in s.calls && ModelKnown(s.db, m) && m.version >= 1 && NonBlank(actor)
    requires approvalId in s.db.approvals && Authorises(s.db.approvals[approvalId], m)
    requires !ReceiptBlocked(s.db.receipts, receiptId, approvalId)
    ensures var s' := Attempt(s, t, m.id, approvalId, actor, receiptId);
      && Agrees(s', m.name) && m.name !in s'.interrupted && s'.calls == s.calls
      && LastTarget(s'.db.receipts, m.name) == Some(m.id)
  {
    hide Authorises, NonBlank, Approach, Apply;
    Unreceipted(s.db.receipts, receiptId, approvalId);
    ApproachOpensWindow(s, t, m, approvalId, actor);
    var ready := Approach(s, t, m.id, approvalId, actor);
    CommitInstalls(ready, t, m.name, receiptId);
    assert ready.calls - {t} == s.calls;
  }

  /** What an undisturbed promotion of a known model needs to go through. */
  ghost predicate Executes(s: Sys, m: Model, approvalId: Id, actor: string) {
    && NonBlank(actor) && m.version >= 1
    && approvalId in s.db.approvals && Authorises(s.db.approvals[approvalId], m)
    && ReceiptFor(s.db.receipts, approvalId).None?
  }

  /**
   The exact effect of an undisturbed promotion: when it goes through, its model is the name's last target and alias
   and champion agree; otherwise - an approval already executed included - nothing but the replies changes, and
   agreement is whatever it was.
   */
  lemma AttemptEffect(s: Sys, t: Tid, m: Model, approvalId: Id, actor: string, receiptId: Id)
    requires t !in s.calls && ModelKnown(s.db, m) && forall r :: r in s.db.receipts ==> r.id != receiptId
    ensures var s' := Attempt(s, t, m.id, approvalId, actor, receiptId);
      if Executes(s, m, approvalId, actor) then
        && Agrees(s', m.name) && m.name !in s'.interrupted && s'.calls == s.calls
        && LastTarget(s'.db.receipts, m.name) == Some(m.id)
        && s'.db.models == s.db.models && s'.db.approvals == s.db.approvals
        && (exists r :: s'.db.receipts == s.db.receipts + [r] && r.id == receiptId && r.approvalId == approvalId)
      else
        && s'.db == s.db && s'.alias == s.alias && s'.interrupted == s.interrupted && s'.calls == s.calls
        && (Agrees(s', m.name) <==> Agrees(s, m.name))
  {
    hide Attempt, Authorises, NonBlank, Agrees;
    if Executes(s, m, approvalId, actor) {
      AttemptRestoresAgreement(s, t, m, approvalId, actor, receiptId);
      AttemptAppends(s, t, m, approvalId, actor, receiptId);
    } else {
      AttemptRefused(s, t, m, approvalId, actor, receiptId);
      SameAgreement(s, Attempt(s, t, m.id, approvalId, actor, receiptId), m.name);
    }
  }

  lemma AttemptAppends(s: Sys, t: Tid, m: Model, approvalId: Id, actor: string, receiptId: Id)
    requires t !in s.calls && ModelKnown(s.db, m) && Executes(s, m, approvalId, actor)
    requires forall r :: r in s.db.receipts ==> r.id != receiptId
    ensures var s' := Attempt(s, t, m.id, approvalId, actor, receiptId);
      && s'.db.models == s.db.models && s'.db.approvals == s.db.approvals
      && exists r :: s'.db.receipts == s.db.receipts + [r] && r.id == receiptId && r.approvalId == approvalId
  {
    hide Authorises, NonBlank, Approach, Apply;
    ApproachOpensWindow(s, t, m, approvalId, actor);
    var ready := Approach(s, t, m.id, approvalId, actor);
    assert CallOk(ready.db, ready.calls[t]);
    CommitInstalls(ready, t, m.name, receiptId);
  }

  lemma AttemptRefused(s: Sys, t: Tid, m: Model, approvalId: Id, actor: string, receiptId: Id)
    requires t !in s.calls && ModelKnown(s.db, m) && !Executes(s, m, approvalId, actor)
    ensures var s' := Attempt(s, t, m.id, approvalId, actor, receiptId);
      s'.db == s.db && s'.alias == s.alias && s'.interrupted == s.interrupted && s'.calls == s.calls
  {
    hide Apply, Authorises, NonBlank, ReceiptFor;
    var s1 := Apply(s, t, BeginPromotion(m.id, approvalId, actor));
    if !NonBlank(actor) || ReceiptFor(s.db.receipts, approvalId).Some? {
      PromotionNotStarted(s, t, m.id, approvalId, actor);
      Ended(s1, t, LoadModel);
      Ended(s1, t, ClearPromotion);
      Ended(s1, t, MoveAlias(Moved));
      Ended(s1, t, CommitPromotion(receiptId));
    } else {
      StartsPromotion(s, t, m.id, approvalId, actor);
      var s2 := Apply(s1, t, LoadModel);
      LoadsModel(s1, t, m, approvalId, actor);
      var s3 := Apply(s2, t, ClearPromotion);
      assert s.calls - {t} == s.calls;
      if approvalId in s.db.approvals && Authorises(s.db.approvals[approvalId], m) {
        ClearsPromotion(s2, t, m, approvalId, actor);
        AliasRefused(s3, t, m, approvalId, actor, s.db.approvals[approvalId].status);
        Ended(Apply(s3, t, MoveAlias(Moved)), t, CommitPromotion(receiptId));
      } else {
        ClearanceRefused(s2, t, m, approvalId, actor);
        Ended(s3, t, MoveAlias(Moved));
        Ended(s3, t, CommitPromotion(receiptId));
      }
    }
  }

  lemma PromotionNotStarted(s: Sys, t: Tid, modelId: Id, approvalId: Id, actor: string)
    requires t !in s.calls && (!NonBlank(actor) || ReceiptFor(s.db.receipts, approvalId).Some?)
    ensures var s' := Apply(s, t, BeginPromotion(modelId, approvalId, actor)); s' == s.(replies := s'.replies)
  {
    hide NonBlank, ReceiptFor;
  }

  lemma ClearanceRefused(s: Sys, t: Tid, m: Model, approvalId: Id, actor: string)
    requires t in s.calls && s.calls[t] == Promoting(m.id, approvalId, actor, ModelLoaded(m))
    requires approvalId !in s.db.approvals || !Authorises(s.db.approvals[approvalId], m)
    ensures Apply(s, t, ClearPromotion) == s.(calls := s.calls - {t})
  {
    hide Authorises;
  }

  lemma AliasRefused(s: Sys, t: Tid, m: Model, approvalId: Id, actor: string, status: ApprovalStatus)
    requires t in s.calls && s.calls[t] == Promoting(m.id, approvalId, actor, Cleared(m, status)) && m.version < 1
    ensures Apply(s, t, MoveAlias(Moved)) == s.(calls := s.calls - {t})
  {
  }

  /** Executing an approval again, however often, changes nothing but the replies. */
  lemma RepeatChangesNothing(s: Sys, t: Tid, m: Model, approvalId: Id, actor: string, receiptId: Id)
    requires t !in s.calls && ModelKnown(s.db, m) && ReceiptFor(s.db.receipts, approvalId).Some?
    ensures var s' := Attempt(s, t, m.id, approvalId, actor, receiptId);
      && s' == s.(replies := s'.replies)
      && (Agrees(s', m.name) <==> Agrees(s, m.name))
  {
    hide Attempt, Agrees, ReceiptFor;
    AttemptRefused(s, t, m, approvalId, actor, receiptId);
    SameAgreement(s, Attempt(s, t, m.id, approvalId, actor, receiptId), m.name);
  }

  /**
   An archived model comes back exactly when an undisturbed promotion of it goes through: with a live actor, a
   registry version, and an approval that authorises it and has no receipt.
   */
  lemma ArchivedComesBackIff(s: Sys, t: Tid, m: Model, approvalId: Id, actor: string, receiptId: Id)
    requires SysInv(s) && t !in s.calls && ModelKnown(s.db, m)
    requires m.id in s.db.lifecycle && s.db.lifecycle[m.id].Archived?
    requires forall r :: r in s.db.receipts ==> r.id != receiptId
    ensures var s' := Attempt(s, t, m.id, approvalId, actor, receiptId);
      && m.id in s'.db.lifecycle
      && (s'.db.lifecycle[m.id].Champion? <==> Executes(s, m, approvalId, actor))
  {
    hide SysInv, Attempt, Executes, Agrees;
    AttemptEffect(s, t, m, approvalId, actor, receiptId);
    AttemptKeeps(s, t, m.id, approvalId, actor, receiptId);
    if Executes(s, m, approvalId, actor) {
      LastTargetIsChampion(Attempt(s, t, m.id, approvalId, actor, receiptId), m);
    }
  }

  lemma LastTargetIsChampion(s: Sys, m: Model)
    requires SysInv(s) && ModelKnown(s.db, m) && LastTarget(s.db.receipts, m.name) == Some(m.id)
    ensures m.id in s.db.lifecycle && s.db.lifecycle[m.id].Champion?
  {
  }

  lemma AttemptKeeps(s: Sys, t: Tid, modelId: Id, approvalId: Id, actor: string, receiptId: Id)
    requires SysInv(s)
    ensures SysInv(Attempt(s, t, modelId, approvalId, actor, receiptId))
  {
    hide SysInv, Apply;
    var s1 := Apply(s, t, BeginPromotion(modelId, approvalId, actor));
    ApplyKeeps(s, t, BeginPromotion(modelId, approvalId, actor));
    ApplyKeeps(s1, t, LoadModel);
    var s2 := Apply(s1, t, LoadModel);
    ApplyKeeps(s2, t, ClearPromotion);
    ApplyKeeps(Apply(s2, t, ClearPromotion), t, MoveAlias(Moved));
    ApplyKeeps(Approach(s, t, modelId, approvalId, actor), t, CommitPromotion(receiptId));
  }

  lemma Unreceipted(receipts: seq<Receipt>, receiptId: Id, approvalId: Id)
    requires !ReceiptBlocked(receipts, receiptId, approvalId)
    ensures ReceiptFor(receipts, approvalId).None?
  {
  }

  /** A commit inside the window installs its model as the name's last target. */
  lemma CommitInstalls(s: Sys, t: Tid, name: string, receiptId: Id)
    requires InWindow(s, t, name) && CallOk(s.db, s.calls[t])
    requires !ReceiptBlocked(s.db.receipts, receiptId, s.calls[t].approvalId)
    ensures var s' := Apply(s, t, CommitPromotion(receiptId));
      && s'.alias == s.alias && name !in s'.interrupted && s'.calls == s.calls - {t}
      && s'.db.models == s.db.models
      && LastTarget(s'.db.receipts, name) == Some(s.calls[t].modelId)
      && s'.db.approvals == s.db.approvals
      && exists r :: s'.db.receipts == s.db.receipts + [r] && r.id == receiptId && r.approvalId == s.calls[t].approvalId
  {
    hide Authorises, NonBlank, Strip, Champions, NamedIds;
    var c := s.calls[t];
    var archived := Champions(NamedIds(s.db.modelOrder, s.db.models, name), s.db.lifecycle, c.modelId);
    var r := PromotionReceipt(receiptId, c.approvalId, c.at.model, c.at.status, archived);
    assert Apply(s, t, CommitPromotion(receiptId)).db.receipts == s.db.receipts + [r];
    AppendReceipt(s.db.receipts, r);
  }

  /**
   The exact condition at a commit: alias and champion agree afterwards if and only if, just before the transaction,
   the alias still names the version this call promotes. The caller can read it back.
   */
  lemma CommitAgreesIff(s: Sys, t: Tid, name: string, receiptId: Id)
    requires InWindow(s, t, name) && CallOk(s.db, s.calls[t])
    requires !ReceiptBlocked(s.db.receipts, receiptId, s.calls[t].approvalId)
    ensures var s' := Apply(s, t, CommitPromotion(receiptId));
      && (Agrees(s', name) <==> name in s.alias && s.alias[name] == s.calls[t].at.model.version)
      && s'.calls == s.calls - {t} && name !in s'.interrupted
  {
    hide Apply, Authorises, NonBlank;
    CommitInstalls(s, t, name, receiptId);
  }

  /** A refused commit leaves database and alias, hence agreement, as they were. */
  lemma RefusedCommit(s: Sys, t: Tid, name: string, receiptId: Id)
    requires InWindow(s, t, name) && CallOk(s.db, s.calls[t])
    requires ReceiptBlocked(s.db.receipts, receiptId, s.calls[t].approvalId)
    ensures var s' := Apply(s, t, CommitPromotion(receiptId));
      s'.db == s.db && s'.alias == s.alias && name in s'.interrupted && !InWindow(s', t, name)
  {
    hide Authorises, NonBlank, Strip, Champions, NamedIds, ReceiptBlocked;
  }

  ghost predicate Commits(s: Sys, t: Tid, step: Step, name: string) {
    InWindow(s, t, name) && step.CommitPromotion?
        && !ReceiptBlocked(s.db.receipts, step.receiptId, s.calls[t].approvalId)
  }

  ghost predicate Writes(s: Sys, t: Tid, step: Step, name: string) {
    && t in s.calls && s.calls[t].Promoting? && s.calls[t].at.Cleared? && s.calls[t].at.model.name == name
    && s.calls[t].at.model.version >= 1 && step.MoveAlias? && !step.result.FailedBefore?
  }

  /**
   The exact condition at every step of every call, overlapping or not: a commit agrees iff the alias names its
   version, an alias write agrees iff it names the current champion's version, and no other step changes agreement.
   */
  lemma AgreementStep(s: Sys, t: Tid, step: Step, name: string)
    requires SysInv(s)
    ensures var s' := Apply(s, t, step);
      Agrees(s', name) <==>
      if Commits(s, t, step, name) then name in s.alias && s.alias[name] == s.calls[t].at.model.version
      else if Writes(s, t, step, name) then
        var champion := LastTarget(s.db.receipts, name);
        champion.Some? && champion.value in s.db.models
        && s.db.models[champion.value].version == s.calls[t].at.model.version
      else Agrees(s, name)
  {
    hide SysInv, CallOk, NamesInv, ReceiptsInv, Agrees, ReceiptBlocked, AdvancePromotion, AdvanceDraft, Stop, Start;
    Parts(s);
    if t !in s.calls {
      StartIsQuiet(s, t, step);
      QuietAgreement(s, Apply(s, t, step), name);
    } else if step.Crash? {
      StopIsQuiet(s, t);
      QuietAgreement(s, Apply(s, t, step), name);
    } else if s.calls[t].Drafting? {
      DraftIsQuiet(s, t, s.calls[t], step);
      var s' := Apply(s, t, step);
      if s'.db.receipts != s.db.receipts {
        var r :| s'.db.receipts == s.db.receipts + [r] && r.outcome.Drafted?;
        AppendReceipt(s.db.receipts, r);
      }
      QuietAgreement(s, s', name);
    } else if !s.calls[t].Promoting? {
      hide Apply, Advance;
      CommitLeavesReceipts(s, t, step);
      assert Apply(s, t, step) == Advance(s, t, step) by { Unfold(s, t, step); }
      QuietAgreement(s, Apply(s, t, step), name);
    } else {
      PromotionAgreement(s, t, s.calls[t], step, name);
    }
  }

  lemma Unfold(s: Sys, t: Tid, step: Step)
    requires t in s.calls
    ensures Apply(s, t, step) == Advance(s, t, step)
  {
    hide Advance;
  }

  lemma StopIsQuiet(s: Sys, t: Tid)
    requires t in s.calls
    ensures Stop(s, t, s.calls[t]).db == s.db && Stop(s, t, s.calls[t]).alias == s.alias
  {
  }

  lemma QuietAgreement(s: Sys, s': Sys, name: string)
    requires s'.alias == s.alias && Extended(s.db.models, s'.db.models) && NamesInv(s.db.models, s.db.receipts)
    requires LastTarget(s'.db.receipts, name) == LastTarget(s.db.receipts, name)
    ensures Agrees(s', name) <==> Agrees(s, name)
  {
    LastTargetIsTargeted(s.db.receipts, name);
  }

  lemma PromotionAgreement(s: Sys, t: Tid, c: Call, step: Step, name: string)
    requires t in s.calls && s.calls[t] == c && c.Promoting? && CallOk(s.db, c) && NamesInv(s.db.models, s.db.receipts)
    requires forall m :: m in s.db.models ==> s.db.models[m].id == m
    requires !step.Crash?
    ensures var s' := Apply(s, t, step);
      Agrees(s', name) <==>
      if Commits(s, t, step, name) then name in s.alias && s.alias[name] == c.at.model.version
      else if Writes(s, t, step, name) then
        var champion := LastTarget(s.db.receipts, name);
        champion.Some? && champion.value in s.db.models && s.db.models[champion.value].version == c.at.model.version
      else Agrees(s, name)
  {
    if Commits(s, t, step, name) {
      CommitAgreesIff(s, t, name, step.receiptId);
    } else if Writes(s, t, step, name) {
      WriteEffect(s, t, c, step);
    } else {
      OtherPromotionStep(s, t, c, step, name);
      hide Apply, CallOk;
      QuietOrForeign(s, Apply(s, t, step), name);
    }
  }

  lemma WriteEffect(s: Sys, t: Tid, c: Call, step: Step)
    requires t in s.calls && s.calls[t] == c && c.Promoting? && c.at.Cleared? && step.MoveAlias?
    requires c.at.model.version >= 1 && !step.result.FailedBefore?
    ensures var s' := Apply(s, t, step); s'.db == s.db && s'.alias == s.alias[c.at.model.name := c.at.model.version]
  {
  }

  /** A promotion step that neither commits nor writes for the name leaves its alias and its last target alone. */
  lemma OtherPromotionStep(s: Sys, t: Tid, c: Call, step: Step, name: string)
    requires t in s.calls && s.calls[t] == c && c.Promoting? && CallOk(s.db, c) && !step.Crash?
    requires forall m :: m in s.db.models ==> s.db.models[m].id == m
    requires !Commits(s, t, step, name) && !Writes(s, t, step, name)
    ensures var s' := Apply(s, t, step);
      && s'.db.models == s.db.models
      && (name in s'.alias <==> name in s.alias) && (name in s.alias ==> s'.alias[name] == s.alias[name])
      && LastTarget(s'.db.receipts, name) == LastTarget(s.db.receipts, name)
  {
    hide Authorises, NonBlank, Strip, ReceiptBlocked, ReceiptFor, LastTarget, PromoteTx, AdvancePromotion;
    assert Apply(s, t, step) == AdvancePromotion(s, t, c, step);
    if c.at.AliasMoved? && step.CommitPromotion? {
      CommitShape(s, t, c, step.receiptId);
      PromotionAppends(s.db, c.at.model, c.approvalId, c.at.status, Strip(c.actor), step.receiptId);
      var s' := AdvancePromotion(s, t, c, step);
      if s'.db.receipts != s.db.receipts {
        AppendReceipt(s.db.receipts, s'.db.receipts[|s.db.receipts|]);
      }
    } else {
      MoveLeavesReceipts(s, t, c, step, name);
    }
  }

  lemma MoveLeavesReceipts(s: Sys, t: Tid, c: Call, step: Step, name: string)
    requires t in s.calls && s.calls[t] == c && c.Promoting?
    requires !(c.at.AliasMoved? && step.CommitPromotion?) && !Writes(s, t, step, name)
    ensures var s' := AdvancePromotion(s, t, c, step);
      && s'.db == s.db
      && (name in s'.alias <==> name in s.alias) && (name in s.alias ==> s'.alias[name] == s.alias[name])
  {
    hide Authorises, PromoteTx, NonBlank, Strip, ReceiptFor, ReceiptBlocked;
  }

  lemma QuietOrForeign(s: Sys, s': Sys, name: string)
    requires s'.db.models == s.db.models
    requires (name in s'.alias <==> name in s.alias) && (name in s.alias ==> s'.alias[name] == s.alias[name])
    requires LastTarget(s'.db.receipts, name) == LastTarget(s.db.receipts, name)
    ensures Agrees(s', name) <==> Agrees(s, name)
  {
  }

  /** The latest step of a run that committed a promotion of the name or wrote its alias, judged by its condition. */
  ghost predicate Settled(trace: Trace, name: string) {
    if trace == [] then true
    else
      var s, t, step := Run(Init, trace[..|trace| - 1]), trace[|trace| - 1].0, trace[|trace| - 1].1;
      if Commits(s, t, step, name) then name in s.alias && s.alias[name] == s.calls[t].at.model.version
      else if Writes(s, t, step, name) then
        var champion := LastTarget(s.db.receipts, name);
        champion.Some? && champion.value in s.db.models
        && s.db.models[champion.value].version == s.calls[t].at.model.version
      else Settled(trace[..|trace| - 1], name)
  }

  /** Over whole runs with any overlap: alias and champion agree iff the latest deciding step met its condition. */
  lemma {:induction false} AgreesIffSettled(trace: Trace, name: string)
    ensures Agrees(Run(Init, trace), name) <==> Settled(trace, name)
  {
    hide SysInv, Agrees, Apply, Commits, Writes;
    if trace == [] {
      InitAgrees(name);
    } else {
      var n := |trace| - 1;
      AgreesIffSettled(trace[..n], name);
      ReachedInv(trace[..n]);
      AgreementStep(Run(Init, trace[..n]), trace[n].0, trace[n].1, name);
    }
  }

  lemma InitAgrees(name: string)
    ensures Agrees(Init, name)
  {
  }

  /** Of two overlapping calls, the last to commit decides: agreement holds iff the alias names that one's version. */
  lemma LastCommitDecides(s: Sys, t: Tid, u: Tid, name: string, receiptT: Id, receiptU: Id)
    requires SysInv(s) && t != u && InWindow(s, t, name) && InWindow(s, u, name)
    requires s.calls[t].approvalId != s.calls[u].approvalId && receiptT != receiptU
    requires !ReceiptBlocked(s.db.receipts, receiptT, s.calls[t].approvalId)
    requires !ReceiptBlocked(s.db.receipts, receiptU, s.calls[u].approvalId)
    ensures var s' := Apply(Apply(s, t, CommitPromotion(receiptT)), u, CommitPromotion(receiptU));
      && (Agrees(s', name) <==> name in s.alias && s.alias[name] == s.calls[u].at.model.version)
      && name !in s'.interrupted && s'.calls == s.calls - {t} - {u}
  {
    hide SysInv, CallOk, Advance, Authorises, Agrees;
    Parts(s);
    ApplyKeeps(s, t, CommitPromotion(receiptT));
    CommitInstalls(s, t, name, receiptT);
    var mid := Apply(s, t, CommitPromotion(receiptT));
    Parts(mid);
    assert InWindow(mid, u, name);
    CommitAgreesIff(mid, u, name, receiptU);
  }

  /**
   Overlap is what breaks agreement: with two calls in their windows, the one whose version the alias
   names committing first leaves no call open, nothing interrupted, and the wrong champion.
   */
  lemma OverlapDiverges(s: Sys, t: Tid, u: Tid, name: string, receiptT: Id, receiptU: Id)
    requires SysInv(s) && InWindow(s, t, name) && InWindow(s, u, name)
    requires s.calls[t].at.model.version != s.calls[u].at.model.version
    requires name in s.alias && s.alias[name] == s.calls[t].at.model.version
    requires s.calls[t].approvalId != s.calls[u].approvalId && receiptT != receiptU
    requires !ReceiptBlocked(s.db.receipts, receiptT, s.calls[t].approvalId)
    requires !ReceiptBlocked(s.db.receipts, receiptU, s.calls[u].approvalId)
    ensures var s' := Apply(Apply(s, t, CommitPromotion(receiptT)), u, CommitPromotion(receiptU));
      && !Agrees(s', name) && name !in s'.interrupted && s'.calls == s.calls - {t} - {u}
  {
    hide SysInv, Apply, Agrees;
    LastCommitDecides(s, t, u, name, receiptT, receiptU);
  }
}
