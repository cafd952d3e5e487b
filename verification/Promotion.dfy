/**
 The champion/challenger overlay. A promotion is validated against its approval, and one
 transaction then retires the old champion, installs the new one and writes the receipt.
 */
module Promotion {
  import opened Wrappers
  import opened Records
  import opened ApprovalGate

  type Lifecycle = map<Id, Stage>
  type Models = map<Id, Model>

  // ----- validation of an approval against the model it is executed for -----

  predicate ValidPayload(p: Option<Payload>, m: Model) {
    && p.Some? && |p.value| > 0
    && "registered_model_id" in p.value && p.value["registered_model_id"] == JString(m.id)
    && ("name" in p.value ==> p.value["name"] == JString(m.name))
    && ("version" in p.value ==> p.value["version"] == JString(Decimal(m.version)))
  }

  predicate Authorises(a: Approval, m: Model) {
    && a.action == ModelPromotion && a.entityType == ENTITY_REGISTERED_MODEL && a.entityId == m.id
    && a.Executable()
    && ValidPayload(a.Effective(), m)
  }

  /** The payload a promotion request proposes for its own model. */
  function RequestPayload(m: Model): (p: Payload)
    ensures ValidPayload(Some(p), m)
  {
    map["registered_model_id" := JString(m.id), "name" := JString(m.name),
        "version" := JString(Decimal(m.version)), "to_alias" := JString("champion")]
  }

  // ----- the transaction -----

  /** `list_by_name`: the ids of one name in creation order. */
  function NamedIds(order: seq<Id>, models: Models, name: string): seq<Id> {
    if order == [] then []
    else
      var first := order[0];
      (if first in models && models[first].name == name then [first] else [])
      + NamedIds(order[1..], models, name)
  }

  /** The siblings the promotion of `target` archives, in the order it meets them. */
  function Champions(ids: seq<Id>, lifecycle: Lifecycle, target: Id): seq<Id> {
    if ids == [] then []
    else
      (if ids[0] != target && ids[0] in lifecycle && lifecycle[ids[0]].Champion? then [ids[0]] else [])
      + Champions(ids[1..], lifecycle, target)
  }

  function Retire(lifecycle: Lifecycle, retired: seq<Id>): Lifecycle {
    map m | m in lifecycle :: if m in retired then Archived else lifecycle[m]
  }

  function Promoted(lifecycle: Lifecycle, retired: seq<Id>, target: Id): Lifecycle {
    Retire(lifecycle, retired)[target := Champion]
  }

  predicate ReceiptBlocked(receipts: seq<Receipt>, id: Id, approvalId: Id) {
    exists r :: r in receipts && (r.id == id || r.approvalId == approvalId)
  }

  function PromotionReceipt(id: Id, approvalId: Id, m: Model, status: ApprovalStatus, archived: seq<Id>): Receipt {
    Receipt(id, approvalId, Outcome.Promotion(m.id, m.name, m.version, status, archived))
  }

  function PromoteTx(db: Db, target: Model, approvalId: Id, status: ApprovalStatus, actor: string, receiptId: Id)
    : Option<Db>
  {
    var archived := Champions(NamedIds(db.modelOrder, db.models, target.name), db.lifecycle, target.id);
    if ReceiptBlocked(db.receipts, receiptId, approvalId) then None
    else
      Some(db.(lifecycle := Promoted(db.lifecycle, archived, target.id),
               receipts := db.receipts + [PromotionReceipt(receiptId, approvalId, target, status, archived)],
               audit := db.audit + [ChampionPromoted(approvalId, target.id, archived, actor)]))
  }

  // ----- the lifecycle table as a replay of the receipt log -----

  predicate IsPromotionOf(r: Receipt, name: string) {
    r.outcome.Promotion? && r.outcome.name == name
  }

  /** The model the latest promotion receipt of a name installed. */
  function LastTarget(receipts: seq<Receipt>, name: string): Option<Id> {
    if receipts == [] then None
    else
      var last := receipts[|receipts| - 1];
      if IsPromotionOf(last, name) then Some(last.outcome.modelId)
      else LastTarget(receipts[..|receipts| - 1], name)
  }

  predicate Targeted(receipts: seq<Receipt>, m: Id) {
    exists r :: r in receipts && r.outcome.Promotion? && r.outcome.modelId == m
  }

  /** The stage the receipts alone dictate: none when no promotion ever named the model. */
  function ReplayedStage(receipts: seq<Receipt>, m: Model): Option<Stage> {
    if LastTarget(receipts, m.name) == Some(m.id) then Some(Champion)
    else if Targeted(receipts, m.id) then Some(Archived)
    else None
  }

  ghost predicate OrderInv(models: Models, order: seq<Id>) {
    && Distinct(order)
    && (forall m :: m in models <==> m in order)
    && (forall m :: m in models ==> models[m].id == m)
  }

  ghost predicate StageInv(models: Models, lifecycle: Lifecycle, receipts: seq<Receipt>) {
    && lifecycle.Keys <= models.Keys
    && (forall m :: m in models ==>
          match ReplayedStage(receipts, models[m])
          case Some(stage) => m in lifecycle && lifecycle[m] == stage
          case None => m in lifecycle ==> lifecycle[m].Challenger?)
  }

  function Superseded(earlier: seq<Receipt>, name: string, target: Id): seq<Id> {
    match LastTarget(earlier, name)
    case Some(p) => if p == target then [] else [p]
    case None => []
  }

  /** Each receipt archives exactly the target of the previous receipt of its name. */
  ghost predicate ArchivedInv(receipts: seq<Receipt>) {
    forall i :: 0 <= i < |receipts| && receipts[i].outcome.Promotion? ==>
      var o := receipts[i].outcome;
      o.archived == Superseded(receipts[..i], o.name, o.modelId)
  }

  ghost predicate NamesInv(models: Models, receipts: seq<Receipt>) {
    forall r :: r in receipts && r.outcome.Promotion? ==>
      && r.outcome.modelId in models
      && models[r.outcome.modelId].name == r.outcome.name
      && models[r.outcome.modelId].version == r.outcome.version
  }

  lemma {:induction false} LastTargetIsTargeted(receipts: seq<Receipt>, name: string)
    ensures var t := LastTarget(receipts, name);
            t.Some? ==> exists r :: r in receipts && IsPromotionOf(r, name) && r.outcome.modelId == t.value
    ensures LastTarget(receipts, name).None? <==> forall r :: r in receipts ==> !IsPromotionOf(r, name)
  {
    if receipts != [] {
      var last := receipts[|receipts| - 1];
      assert last in receipts;
      if !IsPromotionOf(last, name) {
        LastTargetIsTargeted(receipts[..|receipts| - 1], name);
        assert forall r :: r in receipts ==> r == last || r in receipts[..|receipts| - 1];
      }
    }
  }

  lemma AppendReceipt(receipts: seq<Receipt>, r: Receipt)
    ensures forall name :: LastTarget(receipts + [r], name) ==
                           if IsPromotionOf(r, name) then Some(r.outcome.modelId) else LastTarget(receipts, name)
    ensures forall m :: Targeted(receipts + [r], m) <==>
                        Targeted(receipts, m) || (r.outcome.Promotion? && r.outcome.modelId == m)
  {
  }

  lemma {:induction false} NamedIdsMembers(order: seq<Id>, models: Models, name: string)
    requires Distinct(order)
    ensures forall m :: m in NamedIds(order, models, name) <==> m in order && m in models && models[m].name == name
    ensures Distinct(NamedIds(order, models, name))
  {
    if order != [] {
      var rest := NamedIds(order[1..], models, name);
      assert forall i :: 0 <= i < |order[1..]| ==> order[1..][i] == order[i + 1];
      NamedIdsMembers(order[1..], models, name);
      assert order[0] !in rest;
    }
  }

  /** Over distinct ids with a single champion, the retiring loop finds that champion and nothing else. */
  lemma {:induction false} ChampionsAre(ids: seq<Id>, lifecycle: Lifecycle, target: Id, champion: Option<Id>)
    requires Distinct(ids)
    requires forall m :: m in ids ==> ((m in lifecycle && lifecycle[m].Champion?) <==> champion == Some(m))
    ensures Champions(ids, lifecycle, target) ==
            if champion.Some? && champion.value in ids && champion.value != target then [champion.value] else []
  {
    if ids != [] {
      assert forall i :: 1 <= i < |ids| ==> ids[1..][i - 1] == ids[i];
      ChampionsAre(ids[1..], lifecycle, target, champion);
      assert ids[0] !in ids[1..];
    }
  }

  /** With the table a replay of the log, a promotion archives exactly the log's last target. */
  lemma ArchivedIsSuperseded(db: Db, target: Model)
    requires OrderInv(db.models, db.modelOrder) && StageInv(db.models, db.lifecycle, db.receipts)
    requires NamesInv(db.models, db.receipts)
    ensures Champions(NamedIds(db.modelOrder, db.models, target.name), db.lifecycle, target.id) ==
            Superseded(db.receipts, target.name, target.id)
  {
    var ids := NamedIds(db.modelOrder, db.models, target.name);
    var last := LastTarget(db.receipts, target.name);
    NamedIdsMembers(db.modelOrder, db.models, target.name);
    LastTargetIsTargeted(db.receipts, target.name);
    forall m | m in ids ensures (m in db.lifecycle && db.lifecycle[m].Champion?) <==> last == Some(m) {
      assert m in db.models && db.models[m].id == m;
    }
    ChampionsAre(ids, db.lifecycle, target.id, last);
  }

  /** The transaction keeps the lifecycle table a replay of the receipt log. */
  lemma PromoteKeepsReplay(db: Db, target: Model, approvalId: Id, status: ApprovalStatus, actor: string, receiptId: Id)
    requires OrderInv(db.models, db.modelOrder) && StageInv(db.models, db.lifecycle, db.receipts)
    requires NamesInv(db.models, db.receipts) && ArchivedInv(db.receipts)
    requires target.id in db.models && db.models[target.id] == target
    requires PromoteTx(db, target, approvalId, status, actor, receiptId).Some?
    ensures var db' := PromoteTx(db, target, approvalId, status, actor, receiptId).value;
            && StageInv(db'.models, db'.lifecycle, db'.receipts)
            && NamesInv(db'.models, db'.receipts) && ArchivedInv(db'.receipts)
  {
    var db' := PromoteTx(db, target, approvalId, status, actor, receiptId).value;
    ArchivedIsSuperseded(db, target);
    var archived := Superseded(db.receipts, target.name, target.id);
    var r := PromotionReceipt(receiptId, approvalId, target, status, archived);
    assert db'.receipts == db.receipts + [r];
    ArchivedAppend(db.receipts, r);
    assert OrderInv(db.models, db.modelOrder) ==> forall m :: m in db.models ==> db.models[m].id == m;
    PromotedStages(db.models, db.lifecycle, db.receipts, target, r);
  }

  lemma PromotedStages(models: Models, lifecycle: Lifecycle, receipts: seq<Receipt>, target: Model, r: Receipt)
    requires StageInv(models, lifecycle, receipts) && NamesInv(models, receipts)
    requires target.id in models && models[target.id] == target
    requires forall m :: m in models ==> models[m].id == m
    requires IsPromotionOf(r, target.name) && r.outcome.modelId == target.id
    ensures StageInv(models, Promoted(lifecycle, Superseded(receipts, target.name, target.id), target.id),
            receipts + [r])
  {
    var retired := Superseded(receipts, target.name, target.id);
    var lifecycle' := Promoted(lifecycle, retired, target.id);
    AppendReceipt(receipts, r);
    LastTargetIsTargeted(receipts, target.name);
    forall m | m in models ensures
      match ReplayedStage(receipts + [r], models[m])
      case Some(stage) => m in lifecycle' && lifecycle'[m] == stage
      case None => m in lifecycle' ==> lifecycle'[m].Challenger?
    {
      if m in retired {
        assert LastTarget(receipts, target.name) == Some(m) && Targeted(receipts, m);
      }
    }
  }

  lemma ArchivedAppend(receipts: seq<Receipt>, r: Receipt)
    requires ArchivedInv(receipts)
    requires r.outcome.Promotion? ==>
      r.outcome.archived == Superseded(receipts, r.outcome.name, r.outcome.modelId)
    ensures ArchivedInv(receipts + [r])
  {
    var log := receipts + [r];
    assert log[..|receipts|] == receipts;
    forall i | 0 <= i < |log| && log[i].outcome.Promotion?
      ensures log[i].outcome.archived == Superseded(log[..i], log[i].outcome.name, log[i].outcome.modelId)
    {
      if i < |receipts| {
        assert log[i] == receipts[i] && log[..i] == receipts[..i];
      }
    }
  }

  /** A receipt of another kind leaves the replay as it was. */
  lemma OtherReceiptKeepsReplay(models: Models, lifecycle: Lifecycle, receipts: seq<Receipt>, r: Receipt)
    requires StageInv(models, lifecycle, receipts) && NamesInv(models, receipts) && ArchivedInv(receipts)
    requires !r.outcome.Promotion?
    ensures StageInv(models, lifecycle, receipts + [r])
    ensures NamesInv(models, receipts + [r]) && ArchivedInv(receipts + [r])
  {
    AppendReceipt(receipts, r);
    ArchivedAppend(receipts, r);
  }

  /** A replayed table shows one champion per promoted name and none for the others. */
  lemma ReplayGivesOneChampion(models: Models, lifecycle: Lifecycle, receipts: seq<Receipt>, name: string)
    requires StageInv(models, lifecycle, receipts) && NamesInv(models, receipts)
    requires forall m :: m in models ==> models[m].id == m
    ensures var champions := set m | m in models && models[m].name == name && m in lifecycle && lifecycle[m].Champion?;
            match LastTarget(receipts, name)
            case Some(m) => champions == {m}
            case None => champions == {}
  {
    LastTargetIsTargeted(receipts, name);
  }

  // ----- requesting a promotion -----

  predicate Requestable(lifecycle: Lifecycle, m: Id) {
    m in lifecycle ==> lifecycle[m].Challenger?
  }

  function RequestProposal(m: Model, approvalId: Id, requester: Requester, requesterId: Option<string>): Proposal {
    Proposal(approvalId, ModelPromotion, ENTITY_REGISTERED_MODEL, m.id, requester, requesterId, Some(RequestPayload(m)))
  }

  /** Ensure the challenger row and propose the approval; a refusal of either part rolls both back. */
  function RequestTx(db: Db, m: Model, approvalId: Id, requester: Requester, requesterId: Option<string>): Option<Db> {
    var p := RequestProposal(m, approvalId, requester, requesterId);
    if !Requestable(db.lifecycle, m.id) || !ValidProposal(p) then None
    else
      match Insert(db.approvals, NewRow(p))
      case None => None
      case Some(t) =>
        var ensured := if m.id in db.lifecycle then [] else [ChallengerEnsured(m.id)];
        Some(db.(approvals := t,
                 lifecycle := if m.id in db.lifecycle then db.lifecycle else db.lifecycle[m.id := Challenger],
                 audit := db.audit + ensured + [Proposed(approvalId)]))
  }

  /** Every overlay row was asked for: some promotion approval names its model. */
  ghost predicate RequestedInv(approvals: Approvals, lifecycle: Lifecycle) {
    forall m :: m in lifecycle ==>
      exists a :: a in approvals && SameTarget(approvals[a], ModelPromotion, ENTITY_REGISTERED_MODEL, m)
  }
}
