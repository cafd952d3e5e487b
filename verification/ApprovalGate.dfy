/** The human approval gate: a proposal becomes a pending row, one compare-and-swap decides it. */
module ApprovalGate {
  import opened Wrappers
  import opened Records

  type Approvals = map<Id, Approval>

  datatype Proposal = Proposal(
    id: Id,
    action: Action,
    entityType: string,
    entityId: Id,
    requester: Requester,
    requesterId: Option<string>,
    payload: Option<Payload>)

  datatype Decision = Approve | Reject | Modify | UnknownDecision(text: string)

  datatype Verdict = Verdict(decision: Decision, payload: Option<Payload>, reason: Option<string>, actor: string)

  const ID_MAX_LEN := 64
  const REASON_MAX_LEN := 2048

  predicate ValidProposal(p: Proposal) {
    && !p.action.UnknownAction?
    && !p.requester.UnknownRequester?
    && NonBlank(p.entityType) && NonBlank(p.entityId)
    && |p.entityType| <= ID_MAX_LEN && |p.entityId| <= ID_MAX_LEN
    && (p.requesterId.Some? ==> |p.requesterId.value| <= ID_MAX_LEN)
  }

  predicate ValidVerdict(v: Verdict) {
    && NonBlank(v.actor) && |v.actor| <= ID_MAX_LEN
    && !v.decision.UnknownDecision?
    && (v.decision.Reject? || v.decision.Modify? ==> v.reason.Some? && NonBlank(v.reason.value))
    && (v.decision.Modify? ==> v.payload.Some? && |v.payload.value| > 0)
    && (v.reason.Some? ==> |v.reason.value| <= REASON_MAX_LEN)
  }

  function StatusFor(d: Decision): ApprovalStatus
    requires !d.UnknownDecision?
  {
    match d
    case Approve => Approved
    case Reject => Rejected
    case Modify => Modified
  }

  function NewRow(p: Proposal): Approval {
    Approval(p.id, p.action, p.entityType, p.entityId, Pending, p.payload, None,
             p.requester, p.requesterId, None, None, 1)
  }

  predicate SameTarget(a: Approval, action: Action, entityType: string, entityId: Id) {
    a.action == action && a.entityType == entityType && a.entityId == entityId
  }

  predicate HasPending(t: Approvals, action: Action, entityType: string, entityId: Id) {
    exists id :: id in t && t[id].status.Pending? && SameTarget(t[id], action, entityType, entityId)
  }

  /** Insert under the primary key and the partial unique index over pending rows. */
  function Insert(t: Approvals, a: Approval): Option<Approvals> {
    if a.id in t || HasPending(t, a.action, a.entityType, a.entityId) then None
    else Some(t[a.id := a])
  }

  /** The guarded UPDATE: it matches only the expected version of a row that is still pending. */
  function Transition(t: Approvals, id: Id, expected: nat, v: Verdict): Option<Approvals>
    requires !v.decision.UnknownDecision?
  {
    if id in t && t[id].version == expected && t[id].status.Pending? then
      Some(t[id := t[id].(status := StatusFor(v.decision), decision := v.payload,
                          decidedBy := Some(v.actor), reason := v.reason, version := t[id].version + 1)])
    else None
  }

  // ----- what every reachable approval table satisfies -----

  ghost predicate RowOk(a: Approval) {
    && (a.status.Pending? <==> a.version == 1)
    && (!a.status.Pending? ==> a.version == 2 && a.decidedBy.Some?)
    && (a.status.Modified? ==> a.decision.Some? && |a.decision.value| > 0)
    && (a.status.Pending? ==> a.decision.None? && a.decidedBy.None?)
  }

  ghost predicate TableInv(t: Approvals) {
    && (forall id :: id in t ==> t[id].id == id && RowOk(t[id]))
    && (forall i, j | i in t && j in t && t[i].status.Pending? && t[j].status.Pending? ::
          SameTarget(t[i], t[j].action, t[j].entityType, t[j].entityId) ==> i == j)
  }

  ghost predicate SameRequest(a: Approval, b: Approval) {
    b == a.(status := b.status, decision := b.decision, decidedBy := b.decidedBy,
            reason := b.reason, version := b.version)
  }

  /** Rows are never deleted, the request never changes, and a decided row never changes at all. */
  ghost predicate Frozen(t: Approvals, t': Approvals) {
    forall id :: id in t ==>
      id in t' && SameRequest(t[id], t'[id]) && (!t[id].status.Pending? ==> t'[id] == t[id])
  }

  lemma InsertKeeps(t: Approvals, a: Approval)
    requires TableInv(t) && a.status.Pending? && RowOk(a) && Insert(t, a).Some?
    ensures TableInv(Insert(t, a).value) && Frozen(t, Insert(t, a).value)
  {
  }

  lemma TransitionKeeps(t: Approvals, id: Id, expected: nat, v: Verdict)
    requires TableInv(t) && ValidVerdict(v) && Transition(t, id, expected, v).Some?
    ensures TableInv(Transition(t, id, expected, v).value)
    ensures Frozen(t, Transition(t, id, expected, v).value)
    ensures t[id].status.Pending? && expected == 1
  {
  }

  /**
   A decision records its verdict: what executors will use is the human's payload after a modification and the
   proposed one after an approval; a rejection is not executable.
   */
  lemma TransitionRecordsVerdict(t: Approvals, id: Id, expected: nat, v: Verdict)
    requires ValidVerdict(v) && Transition(t, id, expected, v).Some?
    ensures var before, after := t[id], Transition(t, id, expected, v).value[id];
      && (after.Executable() <==> v.decision.Approve? || v.decision.Modify?)
      && (v.decision.Modify? ==> after.Effective() == v.payload && v.payload.Some?)
      && (v.decision.Approve? ==> after.Effective() == before.proposed)
      && after.decidedBy == Some(v.actor) && after.reason == v.reason && SameRequest(before, after)
    ensures forall other :: other in t && other != id ==> Transition(t, id, expected, v).value[other] == t[other]
  {
  }

  /** Whichever decider commits first, every later transition of that row finds nothing to update. */
  lemma SecondTransitionFails(t: Approvals, id: Id, e1: nat, v1: Verdict, t': Approvals, e2: nat, v2: Verdict)
    requires ValidVerdict(v1) && ValidVerdict(v2)
    requires Transition(t, id, e1, v1).Some? && Frozen(Transition(t, id, e1, v1).value, t')
    ensures Transition(t', id, e2, v2) == None
  {
  }

  // ----- the decision trail -----

  function DecisionCount(audit: seq<AuditEvent>, id: Id): nat {
    if audit == [] then 0
    else
      var last := audit[|audit| - 1];
      DecisionCount(audit[..|audit| - 1], id) + (if last.Decided? && last.approvalId == id then 1 else 0)
  }

  lemma CountAppend(audit: seq<AuditEvent>, e: AuditEvent, id: Id)
    ensures DecisionCount(audit + [e], id) ==
            DecisionCount(audit, id) + (if e.Decided? && e.approvalId == id then 1 else 0)
  {
  }

  /** Decision events and decided rows correspond one to one, with the same status and decider. */
  ghost predicate DecisionTrail(t: Approvals, audit: seq<AuditEvent>) {
    && (forall id :: DecisionCount(audit, id) == if id in t && !t[id].status.Pending? then 1 else 0)
    && (forall e :: e in audit && e.Decided? ==>
          e.approvalId in t && t[e.approvalId].status == e.status && t[e.approvalId].decidedBy == Some(e.actor))
  }

  lemma InsertTrail(t: Approvals, a: Approval, audit: seq<AuditEvent>)
    requires DecisionTrail(t, audit) && a.status.Pending? && Insert(t, a).Some?
    ensures DecisionTrail(Insert(t, a).value, audit + [Proposed(a.id)])
  {
  }

  lemma TransitionTrail(t: Approvals, id: Id, expected: nat, v: Verdict, audit: seq<AuditEvent>)
    requires DecisionTrail(t, audit) && ValidVerdict(v) && Transition(t, id, expected, v).Some?
    ensures DecisionTrail(Transition(t, id, expected, v).value,
                          audit + [Decided(id, StatusFor(v.decision), v.actor)])
  {
    var e := Decided(id, StatusFor(v.decision), v.actor);
    forall x { CountAppend(audit, e, x); }
    forall x | x in audit && x.Decided? ensures x.approvalId != id {
      EventCounted(audit, x);
    }
  }

  lemma {:induction false} EventCounted(audit: seq<AuditEvent>, e: AuditEvent)
    requires e in audit && e.Decided?
    ensures DecisionCount(audit, e.approvalId) >= 1
  {
    if audit[|audit| - 1] != e {
      EventCounted(audit[..|audit| - 1], e);
    }
  }

}
