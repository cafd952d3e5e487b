/**
 From experiment to champion: the experiment machine and the approval-gated machine over one database, joined by the
 transaction that registers a model. Models enter the lifecycle only through it.
 */
module Pipeline {
  import opened Wrappers
  import opened Records
  import opened ApprovalGate
  import opened Promotion
  import opened WorkOrders
  import opened Ledger
  import E = Experiments
  import P = Protocol
  import A = AliasAgreement
  import D = Divergence
  import R = RunOutcomes

  /** `origin`: the registration row behind each registered model. */
  datatype Joint = Joint(w: E.World, s: P.Sys, origin: map<Id, E.Registered>)

  datatype Turn =
    | Research(t: nat, step: E.Step)
    | Gated(u: nat, call: P.Step)
    | Publish(t: nat, id: Id, version: nat)

  const START := Joint(E.EMPTY, P.Init, map[])

  ghost predicate ReadyToRegister(w: E.World, t: nat) {
    t in w.calls && w.calls[t].Registering? && w.calls[t].point.Unregistered?
  }

  /** The registering transaction writes one row that both sides see; a taken id rolls it back. */
  ghost function DoPublish(j: Joint, t: nat, id: Id, version: nat): Joint {
    if !ReadyToRegister(j.w, t) then j
    else if id in j.s.db.models then j.(w := E.Apply(j.w, t, E.CommitRegistration(false)))
    else
      var call := j.w.calls[t];
      Joint(E.Apply(j.w, t, E.CommitRegistration(true)),
            j.s.(db := AddModel(j.s.db, Model(id, call.name, version))),
            j.origin[id := E.Registered(call.modelRun, call.row.experiment, call.name)])
  }

  /** Neither machine registers on its own. */
  ghost function Apply(j: Joint, turn: Turn): Joint {
    match turn
    case Research(t, step) => if step == E.CommitRegistration(true) then j else j.(w := E.Apply(j.w, t, step))
    case Gated(u, call) => if call.Register? then j else j.(s := P.Apply(j.s, u, call))
    case Publish(t, id, version) => DoPublish(j, t, id, version)
  }

  ghost function Run(trace: seq<Turn>): Joint {
    if trace == [] then START else Apply(Run(trace[..|trace| - 1]), trace[|trace| - 1])
  }

  ghost predicate Linked(registered: seq<E.Registered>, models: map<Id, Model>, origin: map<Id, E.Registered>) {
    && origin.Keys == models.Keys
    && forall id :: id in models ==> origin[id] in registered && origin[id].name == models[id].name
  }

  ghost predicate JointInv(j: Joint) {
    E.Inv(j.w) && P.SysInv(j.s) && Linked(j.w.registered, j.s.db.models, j.origin)
  }

  lemma {:induction false} FreshLabel(used: set<nat>) returns (t: nat)
    ensures forall u :: u in used ==> u < t
  {
    if used == {} {
      t := 0;
    } else {
      var x :| x in used;
      var rest := FreshLabel(used - {x});
      t := if x < rest then rest else x + 1;
      forall u | u in used ensures u < t {
        assert u == x || u in used - {x};
      }
    }
  }

  lemma AddingKeeps(s: P.Sys, m: Model)
    requires P.SysInv(s)
    ensures P.SysInv(s.(db := AddModel(s.db, m)))
  {
    hide P.SysInv, AddModel;
    var t := FreshLabel(s.calls.Keys);
    P.StartKeeps(s, t, P.Register(m));
  }

  lemma MoreRegistered(before: seq<E.Registered>, after: seq<E.Registered>, models: map<Id, Model>,
                       origin: map<Id, E.Registered>)
    requires Linked(before, models, origin) && before <= after
    ensures Linked(after, models, origin)
  {
    forall id | id in models ensures origin[id] in after {
      var i :| 0 <= i < |before| && before[i] == origin[id];
      assert after[i] == origin[id];
    }
  }

  lemma ResearchKeeps(j: Joint, t: nat, step: E.Step)
    requires JointInv(j)
    ensures JointInv(j.(w := E.Apply(j.w, t, step)))
  {
    hide E.Inv, P.SysInv, E.Apply, Linked;
    E.ApplyKeeps(j.w, t, step);
    MoreRegistered(j.w.registered, E.Apply(j.w, t, step).registered, j.s.db.models, j.origin);
  }

  /** Only the registering transaction adds a model. */
  lemma ModelsStay(s: P.Sys, t: nat, step: P.Step)
    requires !step.Register?
    ensures P.Apply(s, t, step).db.models == s.db.models
  {
    if t !in s.calls {
      StartAddsNone(s, t, step);
    } else if step.Crash? {
      A.StopIsQuiet(s, t);
    } else if s.calls[t].Promoting? {
      A.PromotionMovesOne(s, t, s.calls[t], step);
    } else if s.calls[t].Drafting? {
      A.DraftIsQuiet(s, t, s.calls[t], step);
    } else {
      A.CommitLeavesReceipts(s, t, step);
    }
    hide P.Start, P.AdvancePromotion, P.AdvanceDraft, P.Stop;
  }

  lemma StartAddsNone(s: P.Sys, t: nat, step: P.Step)
    requires !step.Register?
    ensures P.Start(s, t, step).db.models == s.db.models
  {
  }

  lemma GatedKeeps(j: Joint, t: nat, step: P.Step)
    requires JointInv(j) && !step.Register?
    ensures JointInv(j.(s := P.Apply(j.s, t, step)))
  {
    hide E.Inv, P.SysInv, P.Apply, Linked;
    P.ApplyKeeps(j.s, t, step);
    ModelsStay(j.s, t, step);
  }

  lemma PublishKeeps(j: Joint, t: nat, id: Id, version: nat)
    requires JointInv(j)
    ensures JointInv(DoPublish(j, t, id, version))
  {
    hide E.Inv, P.SysInv, E.Apply;
    if ReadyToRegister(j.w, t) {
      if id in j.s.db.models {
        ResearchKeeps(j, t, E.CommitRegistration(false));
      } else {
        var call := j.w.calls[t];
        var row := E.Registered(call.modelRun, call.row.experiment, call.name);
        E.ApplyKeeps(j.w, t, E.CommitRegistration(true));
        RegistrationAppends(j.w, t);
        AddingKeeps(j.s, Model(id, call.name, version));
        var after := j.w.registered + [row];
        MoreRegistered(j.w.registered, after, j.s.db.models, j.origin);
        assert after[|j.w.registered|] == row;
      }
    }
  }

  lemma RegistrationAppends(w: E.World, t: nat)
    requires ReadyToRegister(w, t)
    ensures E.Apply(w, t, E.CommitRegistration(true)).registered ==
            w.registered + [E.Registered(w.calls[t].modelRun, w.calls[t].row.experiment, w.calls[t].name)]
  {
  }

  lemma {:induction false} RunKeeps(trace: seq<Turn>)
    ensures JointInv(Run(trace))
  {
    hide JointInv, E.Apply, P.Apply, DoPublish;
    if trace == [] {
      StartKeeps();
    } else {
      var j, turn := Run(trace[..|trace| - 1]), trace[|trace| - 1];
      RunKeeps(trace[..|trace| - 1]);
      match turn
      case Research(t, step) => ResearchKeeps(j, t, step);
      case Gated(u, call) => if !call.Register? { GatedKeeps(j, u, call); }
      case Publish(t, id, version) => PublishKeeps(j, t, id, version);
    }
  }

  lemma StartKeeps()
    ensures JointInv(START)
  {
    hide E.Inv, P.SysInv;
    P.InitInv();
    E.ReachedInv([]);
    assert E.Reached([]) == E.EMPTY;
  }

  /**
   End to end, over every interleaving of both machines: a champion is a registered model whose run is the recommended
   run of a succeeded experiment, and some approved or modified promotion approval of this very model has a promotion
   receipt; the payload that was executed names the champion.
   */
  lemma ChampionsAreRecommendedAndApproved(trace: seq<Turn>, m: Id)
    requires var db := Run(trace).s.db; m in db.lifecycle && db.lifecycle[m].Champion?
    ensures var j := Run(trace);
      && m in j.s.db.models && m in j.origin && j.origin[m].name == j.s.db.models[m].name
      && E.Sound(j.origin[m], j.w.experiments, j.w.modelRuns)
      && exists r ::
        && r in j.s.db.receipts && r.outcome.Promotion? && r.outcome.modelId == m
        && r.approvalId in j.s.db.approvals && Authorises(j.s.db.approvals[r.approvalId], j.s.db.models[m])
        && var approval := j.s.db.approvals[r.approvalId];
        && approval.action == ModelPromotion && approval.entityType == "registered_model" && approval.entityId == m
        && (approval.status == Approved || approval.status == Modified)
        && var payload := if approval.status == Modified then approval.decision else approval.proposed;
        && payload.Some?
        && "registered_model_id" in payload.value && payload.value["registered_model_id"] == JString(m)
        && ("name" in payload.value ==> payload.value["name"] == JString(j.s.db.models[m].name))
        && ("version" in payload.value ==>
              payload.value["version"] == JString(Decimal(j.s.db.models[m].version)))
  {
    hide *;
    RunKeeps(trace);
    var j := Run(trace);
    JointDb(j);
    var r := ChampionHasReceipt(j.s.db, m);
    OriginIsSound(j, m);
    ClearanceColumns(j.s.db.approvals[r.approvalId], j.s.db.models[m]);
  }

  lemma JointDb(j: Joint)
    requires JointInv(j)
    ensures DbInv(j.s.db)
  {
    hide E.Inv, DbInv, Linked;
  }

  lemma ClearanceColumns(a: Approval, m: Model)
    requires Authorises(a, m)
    ensures a.action == ModelPromotion && a.entityType == "registered_model" && a.entityId == m.id
    ensures a.status == Approved || a.status == Modified
    ensures var payload := if a.status == Modified then a.decision else a.proposed;
      && payload.Some?
      && "registered_model_id" in payload.value && payload.value["registered_model_id"] == JString(m.id)
      && ("name" in payload.value ==> payload.value["name"] == JString(m.name))
      && ("version" in payload.value ==> payload.value["version"] == JString(Decimal(m.version)))
  {
  }

  lemma OriginIsSound(j: Joint, m: Id)
    requires JointInv(j) && m in j.s.db.models
    ensures m in j.origin && j.origin[m].name == j.s.db.models[m].name
    ensures E.Sound(j.origin[m], j.w.experiments, j.w.modelRuns)
  {
    hide P.SysInv, E.CallsInv, E.AuditInv;
    assert j.origin[m] in j.w.registered;
  }

  lemma ReplayParts(db: Db)
    requires DbInv(db)
    ensures OrderInv(db.models, db.modelOrder) && StageInv(db.models, db.lifecycle, db.receipts)
    ensures ReceiptsInv(db.approvals, db.models, db.receipts)
  {
  }

  lemma ChampionHasReceipt(db: Db, m: Id) returns (r: Receipt)
    requires DbInv(db) && m in db.lifecycle && db.lifecycle[m].Champion?
    ensures m in db.models && db.models[m].id == m
    ensures r in db.receipts && r.outcome.Promotion? && r.outcome.modelId == m
            && r.approvalId in db.approvals && Authorises(db.approvals[r.approvalId], db.models[m])
  {
    hide DbInv, Authorises, TableInv, DecisionTrail, WorkOrdersInv, TrailInv, RequestedInv, ArchivedInv, Draftable,
         LastTarget;
    ReplayParts(db);
    var name := db.models[m].name;
    LastTargetIsTargeted(db.receipts, name);
    r :| r in db.receipts && IsPromotionOf(r, name) && r.outcome.modelId == m;
    assert Authorised(db.approvals, db.models, r);
  }

  // ----- such a champion exists -----

  ghost predicate Reachable(j: Joint) {
    exists trace :: Run(trace) == j
  }

  lemma ReachableTurn(j: Joint, turn: Turn)
    requires Reachable(j)
    ensures Reachable(Apply(j, turn))
  {
    hide Apply;
    var trace :| Run(trace) == j;
    assert (trace + [turn])[..|trace|] == trace;
    assert Run(trace + [turn]) == Apply(j, turn);
  }

  lemma {:induction false} ResearchRuns(trace: seq<E.Turn>)
    requires forall turn :: turn in trace ==> !turn.step.CommitRegistration?
    ensures Reachable(START.(w := E.Reached(trace)))
  {
    hide E.Apply, Reachable;
    if trace == [] {
      StartIsReachable();
      assert START.(w := E.Reached([])) == START;
    } else {
      var n := |trace| - 1;
      assert forall turn :: turn in trace[..n] ==> turn in trace;
      ResearchRuns(trace[..n]);
      ReachableTurn(START.(w := E.Reached(trace[..n])), Research(trace[n].t, trace[n].step));
    }
  }

  lemma StartIsReachable()
    ensures Reachable(START)
  {
    assert Run([]) == START;
  }

  lemma GatedStep(j: Joint, t: nat, step: P.Step)
    requires Reachable(j) && !step.Register?
    ensures Reachable(j.(s := P.Apply(j.s, t, step)))
  {
    hide P.Apply;
    ReachableTurn(j, Gated(t, step));
  }

  lemma GrantRuns(j: Joint, m: Id, approvalId: Id, actor: string)
    requires Reachable(j)
    ensures Reachable(j.(s := D.Grant(j.s, 0, m, approvalId, actor)))
  {
    hide P.Apply, Reachable;
    var v := Verdict(Approve, None, None, actor);
    GatedStep(j, 0, P.BeginRequest(m, Agent, None));
    var j1 := j.(s := P.Apply(j.s, 0, P.BeginRequest(m, Agent, None)));
    GatedStep(j1, 0, P.CommitRequest(approvalId));
    var j2 := j.(s := D.Request(j.s, 0, m, approvalId));
    GatedStep(j2, 0, P.BeginDecide(approvalId, v, None));
    GatedStep(j2.(s := P.Apply(j2.s, 0, P.BeginDecide(approvalId, v, None))), 0, P.CommitDecide);
  }

  lemma AttemptRuns(j: Joint, m: Id, approvalId: Id, actor: string, receiptId: Id)
    requires Reachable(j)
    ensures Reachable(j.(s := A.Attempt(j.s, 0, m, approvalId, actor, receiptId)))
  {
    hide P.Apply, Reachable;
    GatedStep(j, 0, P.BeginPromotion(m, approvalId, actor));
    var j1 := j.(s := P.Apply(j.s, 0, P.BeginPromotion(m, approvalId, actor)));
    GatedStep(j1, 0, P.LoadModel);
    var j2 := j1.(s := P.Apply(j1.s, 0, P.LoadModel));
    GatedStep(j2, 0, P.ClearPromotion);
    var j3 := j2.(s := P.Apply(j2.s, 0, P.ClearPromotion));
    GatedStep(j3, 0, P.MoveAlias(P.Moved));
    GatedStep(j.(s := A.Approach(j.s, 0, m, approvalId, actor)), 0, P.CommitPromotion(receiptId));
  }

  const FOREST := Model("m1", "rf", 1)

  /** An eligible run, registered, with its model now known to the lifecycle. */
  lemma RegisteredIsReached() returns (j: Joint)
    ensures Reachable(j) && j.s == P.Init.(db := AddModel(P.Init.db, FOREST))
  {
    hide Run, Reachable, E.Apply, E.Reached;
    var trace := R.EligibleRunIsReached();
    ResearchRuns(trace);
    var w := E.Reached(trace);
    var j0 := START.(w := w);
    R.ApproachEffect(w, 0, "row", None);
    ReachableTurn(j0, Research(0, E.ReadRow("row", None)));
    var w1 := E.Apply(w, 0, E.ReadRow("row", None));
    ReachableTurn(j0.(w := w1), Research(0, E.CheckEligible));
    var w2 := E.Apply(w1, 0, E.CheckEligible);
    ReachableTurn(j0.(w := w2), Research(0, E.LookForRegistration));
    var j1 := j0.(w := R.Approach(w, 0, "row", None));
    ReachableTurn(j1, Publish(0, "m1", 1));
    j := Apply(j1, Publish(0, "m1", 1));
  }

  lemma ForestLiterals()
    ensures NonBlank("eve") && ValidProposal(RequestProposal(FOREST, "a1", Agent, None))
  {
    assert !IsSpace("eve"[0]) && !IsSpace(ENTITY_REGISTERED_MODEL[0]) && !IsSpace(FOREST.id[0]);
  }

  /** A reachable joint state with a champion. */
  lemma ChampionIsReached() returns (j: Joint)
    ensures Reachable(j) && FOREST.id in j.s.db.lifecycle && j.s.db.lifecycle[FOREST.id].Champion?
  {
    hide Run, Reachable, P.Apply, D.Grant, A.Attempt, P.SysInv, Authorises, NonBlank;
    var j0 := RegisteredIsReached();
    ForestLiterals();
    GrantRuns(j0, FOREST.id, "a1", "eve");
    D.GrantAuthorises(j0.s, 0, FOREST, "a1", "eve");
    var j1 := j0.(s := D.Grant(j0.s, 0, FOREST.id, "a1", "eve"));
    AttemptRuns(j1, FOREST.id, "a1", "eve", "r1");
    A.AttemptEffect(j1.s, 0, FOREST, "a1", "eve", "r1");
    j := j1.(s := A.Attempt(j1.s, 0, FOREST.id, "a1", "eve", "r1"));
    ReachedInv(j);
    A.LastTargetIsChampion(j.s, FOREST);
  }

  lemma ReachedInv(j: Joint)
    requires Reachable(j)
    ensures JointInv(j)
  {
    hide JointInv;
    var trace :| Run(trace) == j;
    RunKeeps(trace);
  }
}
