/**
 Experiment runs and the registration of their results, side by side. A run writes its model rows one by one and
 any of those writes, the final commit and the failure mark may themselves fail; calls may crash between steps.
 */
module Experiments {
  import opened Wrappers
  import opened Records

  type Tid = nat

  datatype Status = Queued | Running | Succeeded | Failed

  /** `recommendation`: the columns `recommended_model` and `recommended_run_id`, which are only written together. */
  datatype Experiment = Experiment(status: Status, recommendation: Option<Pick>)

  datatype Pick = Pick(model: string, run: string)

  datatype ModelRun = ModelRun(experiment: Id, run: string, model: string)

  datatype Registered = Registered(modelRun: Id, experiment: Id, name: string)

  datatype Event = Created(e: Id) | RunStarted(e: Id) | RunSucceeded(e: Id) | RunFailed(e: Id)
      | ModelRegistered(modelRun: Id)

  datatype Point =
    | Entered
    | Tracking(next: nat)
    | Logged(next: nat)
    | Packaging
    | Committing
    | Failing

  /**
   `local` is the detached row the call works on; `runs` and `persisted` are its `run_ids` and
   `persisted_run_names`; `models` are the trained models' names in training order.
   */
  datatype Call =
    | Training(e: Id, local: Experiment, models: seq<string>, best: Option<string>, runs: map<string, string>,
               persisted: set<string>, at: Point)
    | Registering(modelRun: Id, row: ModelRun, name: string, point: RegisterPoint)

  datatype RegisterPoint = RowRead | EligibleRun | Unregistered

  datatype World = World(
    experiments: map<Id, Experiment>,
    modelRuns: map<Id, ModelRun>,
    registered: seq<Registered>,
    audit: seq<Event>,
    calls: map<Tid, Call>)

  /** A row write may also commit and then raise (the read-back fails): the caller takes it for lost. */
  datatype RowWrite = Written | WrittenButRaised | NotWritten

  datatype Step =
    | Create(e: Id)
    | Enter(e: Id)
    | Train(result: Option<Trained>)
    | Log(run: Option<string>)
    | Persist(id: Id, write: RowWrite)
    | Choose
    | Package(done: bool)
    | Commit(done: bool)
    | MarkFailed(done: bool)
    | ReadRow(modelRun: Id, name: Option<string>)
    | CheckEligible
    | LookForRegistration
    | CommitRegistration(done: bool)
    | Crash

  /** What training and comparison yield: the models' names (keys of a dict) and the recommended one, if any. */
  datatype Trained = Trained(models: seq<string>, best: Option<string>)

  function Move(w: World, t: Tid, call: Call): World { w.(calls := w.calls[t := call]) }

  function End(w: World, t: Tid): World { w.(calls := w.calls - {t}) }

  // ----- the run -----

  function DoCreate(w: World, e: Id): World {
    if e in w.experiments then w
    else w.(experiments := w.experiments[e := Experiment(Queued, None)], audit := w.audit + [Created(e)])
  }

  /** The row-locked transaction that only a queued experiment passes. */
  function DoEnter(w: World, t: Tid, e: Id): World {
    if e !in w.experiments || !w.experiments[e].status.Queued? then w
    else
      var row := w.experiments[e].(status := Running);
      Move(w.(experiments := w.experiments[e := row], audit := w.audit + [RunStarted(e)]), t,
           Training(e, row, [], None, map[], {}, Entered))
  }

  ghost function DoTrain(w: World, t: Tid, call: Call, result: Option<Trained>): World
    requires call.Training?
  {
    match result
    case None => Move(w, t, call.(at := Failing))
    case Some(r) =>
      if !Distinct(r.models) then w
      else Move(w, t, call.(models := r.models, best := r.best, at := Tracking(0)))
  }

  function DoLog(w: World, t: Tid, call: Call, i: nat, run: Option<string>): World
    requires call.Training?
  {
    if i >= |call.models| then w
    else
      match run
      case None => Move(w, t, call.(at := Failing))
      case Some(id) => Move(w, t, call.(runs := call.runs[call.models[i] := id], at := Logged(i)))
  }

  function DoPersist(w: World, t: Tid, call: Call, i: nat, id: Id, write: RowWrite): World
    requires call.Training?
  {
    if i >= |call.models| || call.models[i] !in call.runs then w
    else
      var name := call.models[i];
      var lost := write.NotWritten? || id in w.modelRuns;
      var rows := if lost then w.modelRuns else w.modelRuns[id := ModelRun(call.e, call.runs[name], name)];
      var noted := if lost || write.WrittenButRaised? then call.persisted else call.persisted + {name};
      Move(w.(modelRuns := rows), t, call.(persisted := noted, at := Tracking(i + 1)))
  }

  function DoChoose(w: World, t: Tid, call: Call, i: nat): World
    requires call.Training?
  {
    if i < |call.models| then w
    else if call.best.None? || call.best.value !in call.models || call.best.value !in call.persisted then
      Move(w, t, call.(at := Failing))
    else Move(w, t, call.(at := Packaging))
  }

  function DoPackage(w: World, t: Tid, call: Call, done: bool): World
    requires call.Training?
  {
    if !done || call.best.None? || call.best.value !in call.runs then Move(w, t, call.(at := Failing))
    else
      var row := Experiment(Succeeded, Some(Pick(call.best.value, call.runs[call.best.value])));
      Move(w, t, call.(local := row, at := Committing))
  }

  function DoCommit(w: World, t: Tid, call: Call, done: bool): World
    requires call.Training?
  {
    if !done then Move(w, t, call.(at := Failing))
    else End(w.(experiments := w.experiments[call.e := call.local], audit := w.audit + [RunSucceeded(call.e)]), t)
  }

  function DoMarkFailed(w: World, t: Tid, call: Call, done: bool): World
    requires call.Training?
  {
    if !done then End(w, t)
    else
      End(w.(experiments := w.experiments[call.e := call.local.(status := Failed)],
          audit := w.audit + [RunFailed(call.e)]), t)
  }

  // ----- the registration -----

  function DoReadRow(w: World, t: Tid, id: Id, name: Option<string>): World {
    if id !in w.modelRuns then w
    else
      var row := w.modelRuns[id];
      Move(w, t, Registering(id, row, if name.Some? && name.value != "" then name.value else row.model, RowRead))
  }

  predicate Eligible(experiments: map<Id, Experiment>, row: ModelRun) {
    && row.experiment in experiments
    && experiments[row.experiment] == Experiment(Succeeded, Some(Pick(row.model, row.run)))
  }

  function DoCheckEligible(w: World, t: Tid, call: Call): World
    requires call.Registering?
  {
    if Eligible(w.experiments, call.row) then Move(w, t, call.(point := EligibleRun)) else End(w, t)
  }

  function DoLookForRegistration(w: World, t: Tid, call: Call): World
    requires call.Registering?
  {
    if exists r :: r in w.registered && r.modelRun == call.modelRun then End(w, t)
    else Move(w, t, call.(point := Unregistered))
  }

  /** `done` also stands for the package check and the registry call that precede the transaction. */
  function DoCommitRegistration(w: World, t: Tid, call: Call, done: bool): World
    requires call.Registering?
  {
    if !done then End(w, t)
    else
      End(w.(registered := w.registered + [Registered(call.modelRun, call.row.experiment, call.name)],
             audit := w.audit + [ModelRegistered(call.modelRun)]), t)
  }

  // ----- the machine -----

  ghost function Apply(w: World, t: Tid, s: Step): World {
    match s
    case Create(e) => DoCreate(w, e)
    case Enter(e) => if t in w.calls then w else DoEnter(w, t, e)
    case ReadRow(id, name) => if t in w.calls then w else DoReadRow(w, t, id, name)
    case Crash => End(w, t)
    case _ => if t in w.calls then Continue(w, t, w.calls[t], s) else w
  }

  ghost function Continue(w: World, t: Tid, call: Call, s: Step): World {
    match call
    case Training(_, _, _, _, _, _, at) =>
      (match (at, s)
       case (Entered, Train(result)) => DoTrain(w, t, call, result)
       case (Tracking(i), Log(run)) => DoLog(w, t, call, i, run)
       case (Logged(i), Persist(id, write)) => DoPersist(w, t, call, i, id, write)
       case (Tracking(i), Choose) => DoChoose(w, t, call, i)
       case (Packaging, Package(done)) => DoPackage(w, t, call, done)
       case (Committing, Commit(done)) => DoCommit(w, t, call, done)
       case (Failing, MarkFailed(done)) => DoMarkFailed(w, t, call, done)
       case _ => w)
    case Registering(_, _, _, point) =>
      match (point, s)
      case (RowRead, CheckEligible) => DoCheckEligible(w, t, call)
      case (EligibleRun, LookForRegistration) => DoLookForRegistration(w, t, call)
      case (Unregistered, CommitRegistration(done)) => DoCommitRegistration(w, t, call, done)
      case _ => w
  }

  datatype Turn = Turn(t: Tid, step: Step)

  ghost function Run(w: World, trace: seq<Turn>): World {
    if trace == [] then w
    else
      var last := trace[|trace| - 1];
      Apply(Run(w, trace[..|trace| - 1]), last.t, last.step)
  }

  const EMPTY := World(map[], map[], [], [], map[])

  // ----- what every reachable world satisfies -----

  function Count(audit: seq<Event>, v: Event): nat {
    if audit == [] then 0 else Count(audit[..|audit| - 1], v) + (if audit[|audit| - 1] == v then 1 else 0)
  }

  ghost predicate HasRun(modelRuns: map<Id, ModelRun>, row: ModelRun) {
    exists id :: id in modelRuns && modelRuns[id] == row
  }

  function Flag(b: bool): nat { if b then 1 else 0 }

  /** The audit trail tells each experiment's status. */
  ghost predicate AuditInv(experiments: map<Id, Experiment>, audit: seq<Event>) {
    forall e :: Told(experiments, audit, e)
  }

  ghost predicate Told(experiments: map<Id, Experiment>, audit: seq<Event>, e: Id) {
    && Count(audit, RunStarted(e)) == Flag(e in experiments && !experiments[e].status.Queued?)
    && Count(audit, RunSucceeded(e)) == Flag(e in experiments && experiments[e].status.Succeeded?)
    && Count(audit, RunFailed(e)) == Flag(e in experiments && experiments[e].status.Failed?)
  }

  ghost predicate SucceededInv(experiments: map<Id, Experiment>, modelRuns: map<Id, ModelRun>) {
    forall e :: e in experiments && experiments[e].status.Succeeded? ==> Backed(experiments[e], e, modelRuns)
  }

  ghost predicate Backed(row: Experiment, e: Id, modelRuns: map<Id, ModelRun>) {
    row.recommendation.Some?
        && HasRun(modelRuns, ModelRun(e, row.recommendation.value.run, row.recommendation.value.model))
  }

  /** The registered row's model run is the recommended run of a succeeded experiment. */
  ghost predicate Sound(r: Registered, experiments: map<Id, Experiment>, modelRuns: map<Id, ModelRun>) {
    && r.modelRun in modelRuns
    && modelRuns[r.modelRun].experiment == r.experiment
    && Eligible(experiments, modelRuns[r.modelRun])
  }

  ghost predicate RegisteredInv(w: World) {
    forall r :: r in w.registered ==> Sound(r, w.experiments, w.modelRuns)
  }

  ghost predicate CallInv(call: Call, experiments: map<Id, Experiment>, modelRuns: map<Id, ModelRun>) {
    match call
    case Training(e, local, models, best, runs, persisted, at) =>
      && e in experiments && experiments[e].status.Running?
      && Distinct(models)
      && (forall n :: n in persisted ==> n in runs && HasRun(modelRuns, ModelRun(e, runs[n], n)))
      && (at.Tracking? ==> forall n :: n in persisted ==> n in models[..Min(at.next, |models|)])
      && (at.Logged? ==> at.next < |models| && forall n :: n in persisted ==> n in models[..at.next])
      && (at.Entered? ==> persisted == {})
      && (at.Packaging? ==> best.Some? && best.value in persisted)
      && (at.Committing? ==> local.status.Succeeded? && Backed(local, e, modelRuns))
    case Registering(id, row, _, point) =>
      && id in modelRuns && modelRuns[id] == row
      && (!point.RowRead? ==> Eligible(experiments, row))
  }

  function Min(a: nat, b: nat): nat { if a <= b then a else b }

  ghost predicate CallsInv(w: World) {
    && (forall t :: t in w.calls ==> CallInv(w.calls[t], w.experiments, w.modelRuns))
    && (forall t, u :: t in w.calls && u in w.calls && t != u && w.calls[t].Training? && w.calls[u].Training?
          ==> w.calls[t].e != w.calls[u].e)
  }

  ghost predicate Inv(w: World) {
    && AuditInv(w.experiments, w.audit)
    && SucceededInv(w.experiments, w.modelRuns)
    && RegisteredInv(w)
    && CallsInv(w)
  }

  predicate Terminal(s: Status) { s.Succeeded? || s.Failed? }

  /** History is append-only and terminal rows are frozen. */
  ghost predicate Grows(w: World, w': World) {
    && (forall e :: e in w.experiments ==> e in w'.experiments)
    && (forall e :: e in w.experiments && Terminal(w.experiments[e].status) ==> w'.experiments[e] == w.experiments[e])
    && (forall e :: e in w.experiments && w'.experiments[e].status.Queued? ==> w.experiments[e].status.Queued?)
    && (forall id :: id in w.modelRuns ==> id in w'.modelRuns && w'.modelRuns[id] == w.modelRuns[id])
    && w.registered <= w'.registered && w.audit <= w'.audit
  }

  // ----- one step -----

  /** What the rows of a step owe to everyone else: settled rows other than the call's own running one stay put. */
  ghost predicate Frames(w: World, w': World, own: set<Id>) {
    && (forall e :: e in w.experiments && !w.experiments[e].status.Queued? && e !in own ==>
          e in w'.experiments && w'.experiments[e] == w.experiments[e])
    && (forall e :: e in own ==> e in w.experiments && w.experiments[e].status.Running?)
    && (forall id :: id in w.modelRuns ==> id in w'.modelRuns && w'.modelRuns[id] == w.modelRuns[id])
  }

  function Own(w: World, t: Tid): set<Id> {
    if t in w.calls && w.calls[t].Training? then {w.calls[t].e} else {}
  }

  lemma HasRunStable(modelRuns: map<Id, ModelRun>, modelRuns': map<Id, ModelRun>, row: ModelRun)
    requires HasRun(modelRuns, row)
    requires forall id :: id in modelRuns ==> id in modelRuns' && modelRuns'[id] == modelRuns[id]
    ensures HasRun(modelRuns', row)
  {
  }

  lemma CallStable(call: Call, w: World, w': World, own: set<Id>)
    requires CallInv(call, w.experiments, w.modelRuns) && Frames(w, w', own)
    requires call.Training? ==> call.e !in own
    ensures CallInv(call, w'.experiments, w'.modelRuns)
  {
  }

  /** A step of one call leaves the others' assumptions true. */
  lemma OthersKeep(w: World, w': World, t: Tid)
    requires CallsInv(w) && Frames(w, w', Own(w, t))
    requires t in w'.calls ==> CallInv(w'.calls[t], w'.experiments, w'.modelRuns)
    requires t in w'.calls && w'.calls[t].Training? ==>
               (t in w.calls && w.calls[t].Training? && w'.calls[t].e == w.calls[t].e)
               || forall u :: u in w.calls && w.calls[u].Training? ==> w.calls[u].e != w'.calls[t].e
    requires forall u :: u in w'.calls && u != t ==> u in w.calls && w'.calls[u] == w.calls[u]
    ensures CallsInv(w')
  {
    hide CallInv, Frames;
    forall u | u in w'.calls ensures CallInv(w'.calls[u], w'.experiments, w'.modelRuns) {
      if u != t { CallStable(w.calls[u], w, w', Own(w, t)); }
    }
  }

  /** Succeeded experiments and registered rows stay backed while rows are only added and settled rows stay put. */
  lemma BackingKeeps(w: World, w': World, own: set<Id>)
    requires SucceededInv(w.experiments, w.modelRuns) && RegisteredInv(w) && Frames(w, w', own)
    requires forall e :: e in w'.experiments && w'.experiments[e].status.Succeeded? ==>
               (e in w.experiments && w.experiments[e].status.Succeeded?) || Backed(w'.experiments[e], e, w'.modelRuns)
    requires forall r :: r in w'.registered ==> r in w.registered || Sound(r, w'.experiments, w'.modelRuns)
    ensures SucceededInv(w'.experiments, w'.modelRuns) && RegisteredInv(w')
  {
  }

  lemma CountOne(audit: seq<Event>, more: Event, v: Event)
    ensures Count(audit + [more], v) == Count(audit, v) + (if more == v then 1 else 0)
  {
  }

  /** Changing one row's status together with its audit event. */
  lemma AuditKeeps(experiments: map<Id, Experiment>, audit: seq<Event>, e: Id, row: Experiment, v: Event)
    requires AuditInv(experiments, audit)
    requires match row.status
      case Queued => e !in experiments && v == Created(e)
      case Running => e in experiments && experiments[e].status.Queued? && v == RunStarted(e)
      case Succeeded => e in experiments && experiments[e].status.Running? && v == RunSucceeded(e)
      case Failed => e in experiments && experiments[e].status.Running? && v == RunFailed(e)
    ensures AuditInv(experiments[e := row], audit + [v])
  {
    var changed := experiments[e := row];
    forall x ensures Told(changed, audit + [v], x) {
      assert Told(experiments, audit, x);
      CountOne(audit, v, RunStarted(x));
      CountOne(audit, v, RunSucceeded(x));
      CountOne(audit, v, RunFailed(x));
    }
  }

  lemma CreateKeeps(w: World, t: Tid, e: Id)
    requires Inv(w)
    ensures Inv(DoCreate(w, e)) && Grows(w, DoCreate(w, e))
  {
    hide AuditInv, CallInv, Sound, Backed, Frames;
    var w' := DoCreate(w, e);
    if e !in w.experiments {
      AuditKeeps(w.experiments, w.audit, e, Experiment(Queued, None), Created(e));
      assert Frames(w, w', {}) by { FrameAll(w, w'); }
      forall u | u in w.calls ensures CallInv(w.calls[u], w'.experiments, w'.modelRuns) {
        CallStable(w.calls[u], w, w', {});
      }
      BackingKeeps(w, w', {});
    }
  }

  lemma FrameAll(w: World, w': World)
    requires forall e :: e in w.experiments && !w.experiments[e].status.Queued? ==>
               e in w'.experiments && w'.experiments[e] == w.experiments[e]
    requires w'.modelRuns == w.modelRuns
    ensures Frames(w, w', {})
  {
  }

  lemma EnterKeeps(w: World, t: Tid, e: Id)
    requires Inv(w) && t !in w.calls
    ensures Inv(DoEnter(w, t, e)) && Grows(w, DoEnter(w, t, e))
  {
    var w' := DoEnter(w, t, e);
    if e in w.experiments && w.experiments[e].status.Queued? {
      forall u | u in w.calls && w.calls[u].Training? ensures w.calls[u].e != e {
        assert CallInv(w.calls[u], w.experiments, w.modelRuns);
      }
      assert CallInv(w'.calls[t], w'.experiments, w'.modelRuns);
      hide AuditInv, Sound, Backed, CallInv, Frames;
      AuditKeeps(w.experiments, w.audit, e, w'.experiments[e], RunStarted(e));
      FrameAll(w, w');
      BackingKeeps(w, w', {});
      OthersKeep(w, w', t);
    }
  }

  lemma FrameSame(w: World, w': World, t: Tid)
    requires CallsInv(w) && w'.experiments == w.experiments
    requires forall id :: id in w.modelRuns ==> id in w'.modelRuns && w'.modelRuns[id] == w.modelRuns[id]
    ensures Frames(w, w', Own(w, t))
  {
  }

  /** A step that only moves its own training call on. */
  lemma MoveKeeps(w: World, t: Tid, call: Call)
    requires Inv(w) && t in w.calls && w.calls[t].Training? && call.Training? && call.e == w.calls[t].e
    requires CallInv(call, w.experiments, w.modelRuns)
    ensures Inv(Move(w, t, call)) && Grows(w, Move(w, t, call))
  {
  }

  lemma TrainKeeps(w: World, t: Tid, result: Option<Trained>)
    requires Inv(w) && t in w.calls && w.calls[t].Training? && w.calls[t].at.Entered?
    ensures Inv(DoTrain(w, t, w.calls[t], result)) && Grows(w, DoTrain(w, t, w.calls[t], result))
  {
  }

  lemma LogKeeps(w: World, t: Tid, i: nat, run: Option<string>)
    requires Inv(w) && t in w.calls && w.calls[t].Training? && w.calls[t].at == Tracking(i)
    ensures Inv(DoLog(w, t, w.calls[t], i, run)) && Grows(w, DoLog(w, t, w.calls[t], i, run))
  {
    var call := w.calls[t];
    assert CallsInv(w) && CallInv(call, w.experiments, w.modelRuns);
    hide Inv, CallsInv, Grows, Distinct, HasRun;
    GrowsRefl(w);
    if i < |call.models| {
      NotEarlier(call.models, i);
      match run
      case None => MoveKeeps(w, t, call.(at := Failing));
      case Some(id) => MoveKeeps(w, t, call.(runs := call.runs[call.models[i] := id], at := Logged(i)));
    }
  }

  lemma NotEarlier(models: seq<string>, i: nat)
    requires Distinct(models) && i < |models|
    ensures models[i] !in models[..i]
  {
  }

  lemma PersistCall(call: Call, i: nat, id: Id, write: RowWrite, w: World)
    requires call.Training? && call.at == Logged(i) && CallInv(call, w.experiments, w.modelRuns)
    requires call.models[i] in call.runs
    ensures var w' := DoPersist(w, 0, call, i, id, write);
      CallInv(w'.calls[0], w'.experiments, w'.modelRuns)
  {
    var w' := DoPersist(w, 0, call, i, id, write);
    var name := call.models[i];
    forall n | n in call.persisted ensures HasRun(w'.modelRuns, ModelRun(call.e, call.runs[n], n)) {
      HasRunStable(w.modelRuns, w'.modelRuns, ModelRun(call.e, call.runs[n], n));
    }
    assert id in w'.modelRuns && w'.modelRuns[id] == ModelRun(call.e, call.runs[name], name)
           ==> HasRun(w'.modelRuns, ModelRun(call.e, call.runs[name], name));
    assert call.models[..i + 1] == call.models[..i] + [name];
  }

  lemma PersistKeeps(w: World, t: Tid, i: nat, id: Id, write: RowWrite)
    requires Inv(w) && t in w.calls && w.calls[t].Training? && w.calls[t].at == Logged(i)
    ensures Inv(DoPersist(w, t, w.calls[t], i, id, write)) && Grows(w, DoPersist(w, t, w.calls[t], i, id, write))
  {
    hide AuditInv, HasRun, Distinct, CallInv, Sound, Backed;
    var call := w.calls[t];
    var w' := DoPersist(w, t, call, i, id, write);
    assert CallInv(call, w.experiments, w.modelRuns);
    FrameSame(w, w', t);
    BackingKeeps(w, w', Own(w, t));
    if i < |call.models| && call.models[i] in call.runs { PersistCall(call, i, id, write, w); }
    OthersKeep(w, w', t);
  }

  lemma ChooseKeeps(w: World, t: Tid, i: nat)
    requires Inv(w) && t in w.calls && w.calls[t].Training? && w.calls[t].at == Tracking(i)
    ensures Inv(DoChoose(w, t, w.calls[t], i)) && Grows(w, DoChoose(w, t, w.calls[t], i))
  {
    var call := w.calls[t];
    assert CallsInv(w) && CallInv(call, w.experiments, w.modelRuns);
    hide Inv, CallsInv, Grows, Distinct, HasRun;
    GrowsRefl(w);
    if i >= |call.models| {
      if call.best.None? || call.best.value !in call.models || call.best.value !in call.persisted {
        MoveKeeps(w, t, call.(at := Failing));
      } else {
        MoveKeeps(w, t, call.(at := Packaging));
      }
    }
  }

  lemma PackageKeeps(w: World, t: Tid, done: bool)
    requires Inv(w) && t in w.calls && w.calls[t].Training? && w.calls[t].at.Packaging?
    ensures Inv(DoPackage(w, t, w.calls[t], done)) && Grows(w, DoPackage(w, t, w.calls[t], done))
  {
  }

  lemma FrameOwn(w: World, w': World, t: Tid)
    requires CallsInv(w) && t in w.calls && w.calls[t].Training? && w'.modelRuns == w.modelRuns
    requires forall e :: e in w.experiments && e != w.calls[t].e ==>
               e in w'.experiments && w'.experiments[e] == w.experiments[e]
    ensures Frames(w, w', Own(w, t)) && w.calls[t].e in w.experiments && w.experiments[w.calls[t].e].status.Running?
  {
  }

  lemma CommitKeeps(w: World, t: Tid, done: bool)
    requires Inv(w) && t in w.calls && w.calls[t].Training? && w.calls[t].at.Committing?
    ensures Inv(DoCommit(w, t, w.calls[t], done)) && Grows(w, DoCommit(w, t, w.calls[t], done))
  {
    hide AuditInv, Sound, HasRun, Distinct, Frames;
    var call := w.calls[t];
    var w' := DoCommit(w, t, call, done);
    assert CallInv(call, w.experiments, w.modelRuns);
    FrameOwn(w, w', t);
    if done { AuditKeeps(w.experiments, w.audit, call.e, call.local, RunSucceeded(call.e)); }
    BackingKeeps(w, w', Own(w, t));
    OthersKeep(w, w', t);
  }

  lemma MarkFailedKeeps(w: World, t: Tid, done: bool)
    requires Inv(w) && t in w.calls && w.calls[t].Training? && w.calls[t].at.Failing?
    ensures Inv(DoMarkFailed(w, t, w.calls[t], done)) && Grows(w, DoMarkFailed(w, t, w.calls[t], done))
  {
    hide AuditInv, Sound, HasRun, Distinct, Frames, Backed;
    var call := w.calls[t];
    var w' := DoMarkFailed(w, t, call, done);
    FrameOwn(w, w', t);
    if done { AuditKeeps(w.experiments, w.audit, call.e, call.local.(status := Failed), RunFailed(call.e)); }
    BackingKeeps(w, w', Own(w, t));
    OthersKeep(w, w', t);
  }

  lemma RegistrationKeeps(w: World, t: Tid, call: Call, w': World)
    requires Inv(w) && (t in w.calls ==> w.calls[t].Registering?)
    requires w' == Move(w, t, call) || w' == End(w, t)
    requires w' == Move(w, t, call) ==> call.Registering? && CallInv(call, w.experiments, w.modelRuns)
    ensures Inv(w') && Grows(w, w')
  {
  }

  lemma CommitRegistrationKeeps(w: World, t: Tid)
    requires Inv(w) && t in w.calls && w.calls[t].Registering? && w.calls[t].point.Unregistered?
    ensures var w' := DoCommitRegistration(w, t, w.calls[t], true); Inv(w') && Grows(w, w')
  {
    hide Backed, HasRun;
    var call := w.calls[t];
    var w' := DoCommitRegistration(w, t, call, true);
    assert CallInv(call, w.experiments, w.modelRuns);
    FrameSame(w, w', t);
    BackingKeeps(w, w', {});
    RegisteredAudit(w.experiments, w.audit, call.modelRun);
    hide AuditInv, CallInv, Frames;
    OthersKeep(w, w', t);
  }

  lemma RegisteredAudit(experiments: map<Id, Experiment>, audit: seq<Event>, modelRun: Id)
    requires AuditInv(experiments, audit)
    ensures AuditInv(experiments, audit + [ModelRegistered(modelRun)])
  {
    forall x ensures Told(experiments, audit + [ModelRegistered(modelRun)], x) {
      assert Told(experiments, audit, x);
      CountOne(audit, ModelRegistered(modelRun), RunStarted(x));
      CountOne(audit, ModelRegistered(modelRun), RunSucceeded(x));
      CountOne(audit, ModelRegistered(modelRun), RunFailed(x));
    }
  }

  lemma CrashKeeps(w: World, t: Tid)
    requires Inv(w)
    ensures Inv(End(w, t)) && Grows(w, End(w, t))
  {
  }

  lemma TrainingKeeps(w: World, t: Tid, s: Step)
    requires Inv(w) && t in w.calls && w.calls[t].Training?
    ensures Inv(Continue(w, t, w.calls[t], s)) && Grows(w, Continue(w, t, w.calls[t], s))
  {
    hide Inv, Grows, DoTrain, DoLog, DoPersist, DoChoose, DoPackage, DoCommit, DoMarkFailed;
    GrowsRefl(w);
    match (w.calls[t].at, s)
    case (Entered, Train(result)) => TrainKeeps(w, t, result);
    case (Tracking(i), Log(run)) => LogKeeps(w, t, i, run);
    case (Logged(i), Persist(id, write)) => PersistKeeps(w, t, i, id, write);
    case (Tracking(i), Choose) => ChooseKeeps(w, t, i);
    case (Packaging, Package(done)) => PackageKeeps(w, t, done);
    case (Committing, Commit(done)) => CommitKeeps(w, t, done);
    case (Failing, MarkFailed(done)) => MarkFailedKeeps(w, t, done);
    case _ =>
  }

  lemma RegisteringKeeps(w: World, t: Tid, s: Step)
    requires Inv(w) && t in w.calls && w.calls[t].Registering?
    ensures Inv(Continue(w, t, w.calls[t], s)) && Grows(w, Continue(w, t, w.calls[t], s))
  {
    var call := w.calls[t];
    assert CallsInv(w) && CallInv(call, w.experiments, w.modelRuns);
    hide Inv, CallsInv, Grows;
    GrowsRefl(w);
    match (call.point, s)
    case (RowRead, CheckEligible) => RegistrationKeeps(w, t, call.(point := EligibleRun), DoCheckEligible(w, t, call));
    case (EligibleRun, LookForRegistration) =>
      RegistrationKeeps(w, t, call.(point := Unregistered), DoLookForRegistration(w, t, call));
    case (Unregistered, CommitRegistration(done)) =>
      if done { CommitRegistrationKeeps(w, t); } else { RegistrationKeeps(w, t, call, End(w, t)); }
    case _ =>
  }

  lemma ContinueKeeps(w: World, t: Tid, s: Step)
    requires Inv(w) && t in w.calls
    ensures Inv(Continue(w, t, w.calls[t], s)) && Grows(w, Continue(w, t, w.calls[t], s))
  {
    hide Inv, Grows, Continue;
    if w.calls[t].Training? { TrainingKeeps(w, t, s); } else { RegisteringKeeps(w, t, s); }
  }

  lemma GrowsRefl(w: World)
    ensures Grows(w, w)
  {
  }

  lemma ApplyKeeps(w: World, t: Tid, s: Step)
    requires Inv(w)
    ensures Inv(Apply(w, t, s)) && Grows(w, Apply(w, t, s))
  {
    hide Inv, Grows, DoCreate, DoEnter, Continue, End;
    GrowsRefl(w);
    match s
    case Create(e) => CreateKeeps(w, t, e);
    case Enter(e) => if t !in w.calls { EnterKeeps(w, t, e); }
    case ReadRow(id, name) =>
      if t !in w.calls && id in w.modelRuns {
        RegistrationKeeps(w, t, DoReadRow(w, t, id, name).calls[t], DoReadRow(w, t, id, name));
      }
    case Crash => CrashKeeps(w, t);
    case _ => if t in w.calls { ContinueKeeps(w, t, s); }
  }

  // ----- whole runs -----

  lemma {:induction false} RunKeeps(w: World, trace: seq<Turn>)
    requires Inv(w)
    ensures Inv(Run(w, trace)) && Grows(w, Run(w, trace))
  {
    hide Inv, Apply;
    if trace == [] {
      GrowsRefl(w);
    } else {
      var last := trace[|trace| - 1];
      var before := Run(w, trace[..|trace| - 1]);
      RunKeeps(w, trace[..|trace| - 1]);
      ApplyKeeps(before, last.t, last.step);
    }
  }

  ghost function Reached(trace: seq<Turn>): World { Run(EMPTY, trace) }

  lemma ReachedInv(trace: seq<Turn>)
    ensures Inv(Reached(trace))
  {
    assert Inv(EMPTY) by {
      forall e ensures Told(EMPTY.experiments, EMPTY.audit, e) { }
    }
    RunKeeps(EMPTY, trace);
  }

  lemma {:induction false} RunSplits(w: World, first: seq<Turn>, more: seq<Turn>)
    ensures Run(w, first + more) == Run(Run(w, first), more)
  {
    hide Apply;
    if more == [] {
      assert first + more == first;
    } else {
      RunSplits(w, first, more[..|more| - 1]);
      assert (first + more)[..|first + more| - 1] == first + more[..|more| - 1];
    }
  }

  /** However many callers race, an experiment enters running at most once, and its terminal events tell its status. */
  lemma EntersRunningAtMostOnce(trace: seq<Turn>, e: Id)
    ensures var w := Reached(trace);
      && Count(w.audit, RunStarted(e)) <= 1
      && (Count(w.audit, RunSucceeded(e)) == 1 <==> e in w.experiments && w.experiments[e].status.Succeeded?)
      && (Count(w.audit, RunFailed(e)) == 1 <==> e in w.experiments && w.experiments[e].status.Failed?)
      && Count(w.audit, RunSucceeded(e)) + Count(w.audit, RunFailed(e)) <= Count(w.audit, RunStarted(e))
  {
    ReachedInv(trace);
    assert Told(Reached(trace).experiments, Reached(trace).audit, e);
  }

  /** A succeeded or failed experiment keeps its row, recommendation included, whatever happens next. */
  lemma TerminalRowsAreForever(trace: seq<Turn>, more: seq<Turn>, e: Id)
    requires e in Reached(trace).experiments && Terminal(Reached(trace).experiments[e].status)
    ensures e in Reached(trace + more).experiments
    ensures Reached(trace + more).experiments[e] == Reached(trace).experiments[e]
  {
    ReachedInv(trace);
    RunSplits(EMPTY, trace, more);
    RunKeeps(Reached(trace), more);
  }

  /** Whatever subset of row writes failed, a succeeded experiment's recommendation has its model-run row. */
  lemma SucceededHasItsRun(trace: seq<Turn>, e: Id)
    requires e in Reached(trace).experiments && Reached(trace).experiments[e].status.Succeeded?
    ensures var w := Reached(trace);
      && w.experiments[e].recommendation.Some?
      && exists id :: id in w.modelRuns && w.modelRuns[id] ==
                      ModelRun(e, w.experiments[e].recommendation.value.run,
                          w.experiments[e].recommendation.value.model)
  {
    ReachedInv(trace);
  }

  /** Every registered model points, now and ever after, to the recommended run of a succeeded experiment. */
  lemma RegisteredModelsStaySound(trace: seq<Turn>, more: seq<Turn>, r: Registered)
    requires r in Reached(trace).registered
    ensures r in Reached(trace + more).registered
    ensures Sound(r, Reached(trace).experiments, Reached(trace).modelRuns)
    ensures Sound(r, Reached(trace + more).experiments, Reached(trace + more).modelRuns)
  {
    ReachedInv(trace);
    ReachedInv(trace + more);
    RunSplits(EMPTY, trace, more);
    RunKeeps(Reached(trace), more);
    var before, after := Reached(trace).registered, Reached(trace + more).registered;
    var i :| 0 <= i < |before| && before[i] == r;
    assert after[i] == r;
  }

  /** Two calls can never both be training one experiment, and the one that is finds it running. */
  lemma OneTrainerPerExperiment(trace: seq<Turn>, t: Tid, u: Tid)
    requires var calls := Reached(trace).calls;
      t in calls && u in calls && calls[t].Training? && calls[u].Training? && calls[t].e == calls[u].e
    ensures t == u
    ensures var w := Reached(trace); w.calls[t].e in w.experiments && w.experiments[w.calls[t].e].status.Running?
  {
    ReachedInv(trace);
    var w := Reached(trace);
    assert CallInv(w.calls[t], w.experiments, w.modelRuns);
  }

  /** When the final commit fails after the fields were set, the failure mark stores them with the failed status. */
  lemma FailedCommitKeepsRecommendation(trace: seq<Turn>, t: Tid) returns (longer: seq<Turn>)
    requires t in Reached(trace).calls && Reached(trace).calls[t].Training? && Reached(trace).calls[t].at.Packaging?
    ensures var call := Reached(trace).calls[t];
      && call.best.Some? && call.best.value in call.runs && call.e in Reached(longer).experiments
      && Reached(longer).experiments[call.e] == Experiment(Failed,
         Some(Pick(call.best.value, call.runs[call.best.value])))
  {
    var w := Reached(trace);
    ReachedInv(trace);
    assert CallInv(w.calls[t], w.experiments, w.modelRuns);
    hide Inv, CallInv, Run, Apply;
    longer := trace + [Turn(t, Package(true))];
    RunOn(EMPTY, trace, Turn(t, Package(true)));
    Acts(w, t, Package(true));
    var w1 := Reached(longer);
    RunOn(EMPTY, longer, Turn(t, Commit(false)));
    longer := longer + [Turn(t, Commit(false))];
    Acts(w1, t, Commit(false));
    var w2 := Reached(longer);
    RunOn(EMPTY, longer, Turn(t, MarkFailed(true)));
    longer := longer + [Turn(t, MarkFailed(true))];
    Acts(w2, t, MarkFailed(true));
  }

  lemma EntryIsReached(enter: seq<Turn>)
    requires enter == [Turn(0, Create("e")), Turn(0, Enter("e"))]
    ensures var w := Reached(enter);
      && w.calls.Keys == {0} && w.calls[0].Training? && w.calls[0].at.Entered? && w.calls[0].e == "e"
      && w.calls[0].runs == map[] && w.modelRuns == map[] && w.registered == []
  {
    var first := [Turn(0, Create("e"))];
    assert [] + [Turn(0, Create("e"))] == first && first + [Turn(0, Enter("e"))] == enter;
    RunOn(EMPTY, [], Turn(0, Create("e")));
    RunOn(EMPTY, first, Turn(0, Enter("e")));
  }

  /** Such a run exists: one model, tracked and persisted, then recommended. */
  lemma PackagingIsReached() returns (trace: seq<Turn>)
    ensures 0 in Reached(trace).calls && Reached(trace).calls[0].Training? && Reached(trace).calls[0].at.Packaging?
    ensures var w := Reached(trace);
      && w.calls.Keys == {0} && w.registered == []
      && w.modelRuns == map["row" := ModelRun("e", "run", "rf")]
      && w.calls[0].e == "e" && w.calls[0].best == Some("rf") && w.calls[0].runs == map["rf" := "run"]
    ensures forall turn :: turn in trace ==> !turn.step.CommitRegistration?
  {
    hide Run, Apply;
    var enter := [Turn(0, Create("e")), Turn(0, Enter("e"))];
    EntryIsReached(enter);
    var w1 := Reached(enter);
    trace := enter + [Turn(0, Train(Some(Trained(["rf"], Some("rf")))))];
    RunOn(EMPTY, enter, Turn(0, Train(Some(Trained(["rf"], Some("rf"))))));
    Acts(w1, 0, Train(Some(Trained(["rf"], Some("rf")))));
    var w2 := Reached(trace);
    RunOn(EMPTY, trace, Turn(0, Log(Some("run"))));
    trace := trace + [Turn(0, Log(Some("run")))];
    Acts(w2, 0, Log(Some("run")));
    var w3 := Reached(trace);
    RunOn(EMPTY, trace, Turn(0, Persist("row", Written)));
    trace := trace + [Turn(0, Persist("row", Written))];
    Acts(w3, 0, Persist("row", Written));
    var w4 := Reached(trace);
    RunOn(EMPTY, trace, Turn(0, Choose));
    trace := trace + [Turn(0, Choose)];
    Acts(w4, 0, Choose);
  }

  /** What a step of a training call comes to, per point it is at. */
  lemma Acts(w: World, t: Tid, s: Step)
    requires t in w.calls && w.calls[t].Training?
    ensures var call := w.calls[t];
      && (call.at.Entered? && s.Train? ==> Apply(w, t, s) == DoTrain(w, t, call, s.result))
      && (call.at.Tracking? && s.Log? ==> Apply(w, t, s) == DoLog(w, t, call, call.at.next, s.run))
      && (call.at.Logged? && s.Persist? ==> Apply(w, t, s) == DoPersist(w, t, call, call.at.next, s.id, s.write))
      && (call.at.Tracking? && s.Choose? ==> Apply(w, t, s) == DoChoose(w, t, call, call.at.next))
      && (call.at.Packaging? && s.Package? ==> Apply(w, t, s) == DoPackage(w, t, call, s.done))
      && (call.at.Committing? && s.Commit? ==> Apply(w, t, s) == DoCommit(w, t, call, s.done))
      && (call.at.Failing? && s.MarkFailed? ==> Apply(w, t, s) == DoMarkFailed(w, t, call, s.done))
  {
  }

  // ----- the run as the service executes it -----

  /** How the collaborators answer during one run. */
  datatype Script = Script(training: Option<Trained>, logs: seq<Option<string>>, rows: seq<(Id, RowWrite)>,
                           packaged: bool, committed: bool, marked: bool)

  /** Enough answers for every model, and distinct model names. */
  ghost predicate Covers(script: Script) {
    script.training.Some? ==>
      var n := |script.training.value.models|;
      Distinct(script.training.value.models) && |script.logs| >= n && |script.rows| >= n
  }

  /**
   The row of the model in place `i` went in and was read back: the write reported success, and its id was drawn
   neither by a row already stored nor by an earlier write of this run that got through.
   */
  ghost predicate RowKept(rows: seq<(Id, RowWrite)>, used: set<Id>, i: nat)
    requires i < |rows|
  {
    && rows[i].1 == Written
    && rows[i].0 !in used
    && forall j :: 0 <= j < i && rows[j].1 != NotWritten ==> rows[j].0 != rows[i].0
  }

  /** The tables hold the rows in use before plus those of the first `i` writes that got through. */
  ghost predicate RowsStored(stored: set<Id>, used: set<Id>, rows: seq<(Id, RowWrite)>, i: nat)
    requires i <= |rows|
  {
    forall id :: id in stored <==> id in used || exists j :: 0 <= j < i && rows[j].1 != NotWritten && rows[j].0 == id
  }

  /** The first `i` models are logged under their runs, and persisted exactly when their row was kept. */
  ghost predicate Noted(models: seq<string>, logs: seq<Option<string>>, rows: seq<(Id, RowWrite)>, used: set<Id>,
                        runs: map<string, string>, persisted: set<string>, i: nat)
    requires i <= |models| && i <= |logs| && i <= |rows|
  {
    && (forall k :: 0 <= k < i ==> logs[k].Some? && models[k] in runs && runs[models[k]] == logs[k].value)
    && (forall k :: 0 <= k < i ==> (models[k] in persisted <==> RowKept(rows, used, k)))
    && (forall n :: n in persisted ==> n in models[..i])
  }

  /** The collaborators' answers let the run succeed with the model in place `i`; other models' rows are free. */
  ghost predicate Wins(script: Script, used: set<Id>, i: nat) {
    && script.training.Some? && i < |script.training.value.models|
    && script.training.value.best == Some(script.training.value.models[i])
    && |script.training.value.models| <= |script.logs| && |script.training.value.models| <= |script.rows|
    && (forall k :: 0 <= k < |script.training.value.models| ==> script.logs[k].Some?)
    && RowKept(script.rows, used, i)
    && script.packaged && script.committed
  }

  lemma NotedOn(models: seq<string>, logs: seq<Option<string>>, rows: seq<(Id, RowWrite)>, used: set<Id>,
                stored: set<Id>, runs: map<string, string>, persisted: set<string>, persisted': set<string>, i: nat)
    requires i < |models| && i < |logs| && i < |rows| && Distinct(models) && logs[i].Some?
    requires Noted(models, logs, rows, used, runs, persisted, i) && RowsStored(stored, used, rows, i)
    requires persisted' == if rows[i].1 == Written && rows[i].0 !in stored then persisted + {models[i]} else persisted
    ensures Noted(models, logs, rows, used, runs[models[i] := logs[i].value], persisted', i + 1)
    ensures RowsStored(if rows[i].1 != NotWritten then stored + {rows[i].0} else stored, used, rows, i + 1)
  {
    assert models[i] !in models[..i];
    assert models[..i + 1] == models[..i] + [models[i]];
  }

  lemma NothingStored(models: seq<string>, logs: seq<Option<string>>, rows: seq<(Id, RowWrite)>, used: set<Id>)
    ensures RowsStored(used, used, rows, 0) && Noted(models, logs, rows, used, map[], {}, 0)
  {
  }

  /** Without training, or with a model that could not be logged, nothing wins. */
  lemma NobodyWins(script: Script, used: set<Id>, k: nat)
    requires script.training.Some? ==>
      k < |script.training.value.models| && k < |script.logs| && script.logs[k].None?
    ensures forall i: nat :: !Wins(script, used, i)
  {
  }

  /** What the loop noted decides whether the recommended model wins. */
  lemma Decides(script: Script, used: set<Id>, runs: map<string, string>, persisted: set<string>)
    requires Covers(script) && script.training.Some?
    requires Noted(script.training.value.models, script.logs, script.rows, used, runs, persisted,
                   |script.training.value.models|)
    ensures var models, best := script.training.value.models, script.training.value.best;
      best.Some? && best.value in models && best.value in persisted && script.packaged && script.committed
      <==> exists i: nat :: Wins(script, used, i)
    ensures forall i: nat :: Wins(script, used, i) ==>
              var best := script.training.value.models[i];
              script.training.value.best == Some(best) && best in runs && runs[best] == script.logs[i].value
    ensures forall n :: n in persisted ==> n in runs
  {
    hide RowKept;
    var models, best := script.training.value.models, script.training.value.best;
    if best.Some? && best.value in models && best.value in persisted && script.packaged && script.committed {
      var i: nat :| i < |models| && models[i] == best.value;
      assert Wins(script, used, i);
    }
  }

  lemma RunOn(w: World, trace: seq<Turn>, turn: Turn)
    ensures Run(w, trace + [turn]) == Apply(Run(w, trace), turn.t, turn.step)
  {
  }

  lemma Enters(w: World, e: Id)
    requires w.calls == map[]
    ensures Run(w, [Turn(0, Enter(e))]) == DoEnter(w, 0, e)
  {
  }

  class ExperimentService {
    var experiments: map<Id, Experiment>
    var modelRuns: map<Id, ModelRun>
    var registered: seq<Registered>
    var audit: seq<Event>

    ghost function Snapshot(calls: map<Tid, Call>): World
      reads this
    {
      World(experiments, modelRuns, registered, audit, calls)
    }

    /**
     A run from start to end, uninterrupted. Its effect on the tables is that of a sequence of steps of one call,
     so everything proved of interleaved runs holds of it; a queued experiment always leaves that state.
     */
    method Execute(e: Id, script: Script) returns (entered: bool, ghost trace: seq<Turn>)
      requires Covers(script)
      modifies this
      ensures Snapshot(map[]) == Run(old(Snapshot(map[])), trace)
      ensures entered <==> e in old(experiments) && old(experiments[e]).status.Queued?
      ensures !entered ==> Snapshot(map[]) == old(Snapshot(map[]))
      ensures entered ==> e in experiments && !experiments[e].status.Queued?
      ensures entered ==>
                (experiments[e].status.Succeeded? <==> exists i: nat :: Wins(script, old(modelRuns.Keys), i))
      ensures entered ==> forall i: nat :: Wins(script, old(modelRuns.Keys), i) ==>
                experiments[e].recommendation == Some(Pick(script.training.value.models[i], script.logs[i].value))
      ensures entered && !experiments[e].status.Succeeded? ==>
                experiments[e].status == if script.marked then Failed else Running
    {
      hide Run, Apply, Continue, Covers, Wins;
      ghost var w := Snapshot(map[]);
      trace := [Turn(0, Enter(e))];
      Enters(w, e);
      if e !in experiments || experiments[e].status != Queued {
        return false, trace;
      }
      entered := true;
      var local := experiments[e].(status := Running);
      experiments := experiments[e := local];
      audit := audit + [RunStarted(e)];
      ghost var steps;
      var finished, row;
      finished, row, steps := RunTraining(e, local, script, w, trace);
      trace := steps;
      if !finished { trace := MarkRowFailed(e, row, script.marked, w, steps); }
    }

    /** Best effort: the failure mark may be lost as well. */
    method MarkRowFailed(e: Id, row: Experiment, marked: bool, ghost w: World, ghost done: seq<Turn>)
      returns (ghost trace: seq<Turn>)
      requires Raised(w, done, e, row) && e in experiments
      modifies this
      ensures Snapshot(map[]) == Run(w, trace)
      ensures experiments == if marked then old(experiments)[e := row.(status := Failed)] else old(experiments)
    {
      hide Run, Apply, Continue;
      ghost var before := Run(w, done);
      Acts(before, 0, MarkFailed(marked));
      RunOn(w, done, Turn(0, MarkFailed(marked)));
      trace := done + [Turn(0, MarkFailed(marked))];
      if marked {
        experiments := experiments[e := row.(status := Failed)];
        audit := audit + [RunFailed(e)];
      }
      assert before.calls - {0} == map[];
    }

    /** Trains, tracks and records every model, then commits the recommendation; false when anything raised. */
    method RunTraining(e: Id, row: Experiment, script: Script, ghost w: World, ghost done: seq<Turn>)
      returns (finished: bool, local: Experiment, ghost trace: seq<Turn>)
      requires Covers(script)
      requires Run(w, done) == Snapshot(map[0 := Training(e, row, [], None, map[], {}, Entered)])
      requires e in experiments && experiments[e].status.Running?
      modifies this
      ensures finished ==> Run(w, trace) == Snapshot(map[])
      ensures !finished ==> Raised(w, trace, e, local)
      ensures e in experiments && (experiments[e].status.Succeeded? || experiments[e].status.Running?)
      ensures finished <==> experiments[e].status.Succeeded?
      ensures finished <==> exists i: nat :: Wins(script, old(modelRuns.Keys), i)
      ensures forall i: nat :: Wins(script, old(modelRuns.Keys), i) ==>
                experiments[e].recommendation == Some(Pick(script.training.value.models[i], script.logs[i].value))
    {
      hide Run, Apply, Continue, DoLog, DoPersist, DoChoose, DoPackage, DoCommit, RowsStored, Noted, Wins;
      local, trace := row, done + [Turn(0, Train(script.training))];
      Acts(Run(w, done), 0, Train(script.training));
      RunOn(w, done, Turn(0, Train(script.training)));
      if script.training == None {
        NobodyWins(script, modelRuns.Keys, 0);
        return false, local, trace;
      }
      var models, best := script.training.value.models, script.training.value.best;
      var runs: map<string, string>, persisted: set<string> := map[], {};
      ghost var used := modelRuns.Keys;
      NothingStored(models, script.logs, script.rows, used);
      for i := 0 to |models|
        invariant Run(w, trace) == Snapshot(map[0 := Training(e, row, models, best, runs, persisted, Tracking(i))])
        invariant e in experiments && experiments[e].status.Running?
        invariant Noted(models, script.logs, script.rows, used, runs, persisted, i)
        invariant RowsStored(modelRuns.Keys, used, script.rows, i)
      {
        ghost var stored, before, saved := modelRuns.Keys, runs, persisted;
        var tracked;
        tracked, runs, persisted, trace :=
          TrackModel(e, row, models, best, i, script.logs[i], script.rows[i].0, script.rows[i].1, runs, persisted, w,
              trace);
        if !tracked {
          NobodyWins(script, used, i);
          return false, local, trace;
        }
        assert modelRuns.Keys == if script.rows[i].1 != NotWritten then stored + {script.rows[i].0} else stored;
        NotedOn(models, script.logs, script.rows, used, stored, before, saved, persisted, i);
      }
      Decides(script, used, runs, persisted);
      finished, local, trace := Conclude(e, row, models, best, runs, persisted, script.packaged, script.committed, w,
          trace);
    }

    /** The call sits at the failure mark with the given detached row. */
    ghost predicate Raised(w: World, trace: seq<Turn>, e: Id, local: Experiment)
      reads this
    {
      exists models, best, runs, persisted ::
        Run(w, trace) == Snapshot(map[0 := Training(e, local, models, best, runs, persisted, Failing)])
    }

    /** One model: log it, then store its row; only a failed log ends the run. */
    method TrackModel(e: Id, row: Experiment, models: seq<string>, best: Option<string>, i: nat,
                      answer: Option<string>, id: Id, write: RowWrite,
                      runs: map<string, string>, persisted: set<string>, ghost w: World, ghost done: seq<Turn>)
      returns (tracked: bool, runs': map<string, string>, persisted': set<string>, ghost trace: seq<Turn>)
      requires i < |models|
      requires Run(w, done) == Snapshot(map[0 := Training(e, row, models, best, runs, persisted, Tracking(i))])
      modifies this`modelRuns
      ensures tracked <==> answer.Some?
      ensures tracked ==>
                Run(w, trace) == Snapshot(map[0 := Training(e, row, models, best, runs', persisted', Tracking(i + 1))])
      ensures !tracked ==> Raised(w, trace, e, row)
      ensures tracked ==>
                && runs' == runs[models[i] := answer.value]
                && persisted' == (if write == Written && id !in old(modelRuns)
                                  then persisted + {models[i]} else persisted)
                && modelRuns == if write != NotWritten && id !in old(modelRuns)
                                then old(modelRuns)[id := ModelRun(e, answer.value, models[i])] else old(modelRuns)
    {
      hide Run, Apply, Continue;
      runs', persisted', trace := runs, persisted, done + [Turn(0, Log(answer))];
      Acts(Run(w, done), 0, Log(answer));
      RunOn(w, done, Turn(0, Log(answer)));
      if answer == None { return false, runs', persisted', trace; }
      runs' := runs[models[i] := answer.value];
      persisted', trace := StoreRow(e, row, models, best, i, id, write, runs', persisted, w, trace);
      tracked := true;
    }

    /** The row write; an exception is noted and the loop goes on. */
    method StoreRow(e: Id, row: Experiment, models: seq<string>, best: Option<string>, i: nat, id: Id, write: RowWrite,
                    runs: map<string, string>, persisted: set<string>, ghost w: World, ghost done: seq<Turn>)
      returns (persisted': set<string>, ghost trace: seq<Turn>)
      requires i < |models| && models[i] in runs
      requires Run(w, done) == Snapshot(map[0 := Training(e, row, models, best, runs, persisted, Logged(i))])
      modifies this`modelRuns
      ensures Run(w, trace) == Snapshot(map[0 := Training(e, row, models, best, runs, persisted', Tracking(i + 1))])
      ensures persisted' == if write == Written && id !in old(modelRuns) then persisted + {models[i]} else persisted
      ensures modelRuns == if write != NotWritten && id !in old(modelRuns)
                           then old(modelRuns)[id := ModelRun(e, runs[models[i]], models[i])] else old(modelRuns)
    {
      hide Run, Apply, Continue;
      persisted', trace := persisted, done + [Turn(0, Persist(id, write))];
      Acts(Run(w, done), 0, Persist(id, write));
      RunOn(w, done, Turn(0, Persist(id, write)));
      if !write.NotWritten? && id !in modelRuns {
        modelRuns := modelRuns[id := ModelRun(e, runs[models[i]], models[i])];
        if write.Written? { persisted' := persisted + {models[i]}; }
      }
    }

    /** The eligibility checks, the package, and the committing transaction. */
    method Conclude(e: Id, row: Experiment, models: seq<string>, best: Option<string>,
                    runs: map<string, string>, persisted: set<string>, packaged: bool, committed: bool,
                    ghost w: World, ghost done: seq<Turn>)
      returns (finished: bool, local: Experiment, ghost trace: seq<Turn>)
      requires forall n :: n in persisted ==> n in runs
      requires Run(w, done) == Snapshot(map[0 := Training(e, row, models, best, runs, persisted, Tracking(|models|))])
      requires e in experiments && experiments[e].status.Running?
      modifies this
      ensures finished ==> Run(w, trace) == Snapshot(map[])
      ensures !finished ==> Raised(w, trace, e, local)
      ensures finished <==> best.Some? && best.value in models && best.value in persisted && packaged && committed
      ensures experiments == if finished
                             then old(experiments)[e := Experiment(Succeeded, Some(Pick(best.value, runs[best.value])))]
                             else old(experiments)
    {
      hide Run, Apply, Continue, Covers;
      local, trace := row, done + [Turn(0, Choose)];
      Acts(Run(w, done), 0, Choose);
      RunOn(w, done, Turn(0, Choose));
      if best == None || best.value !in models || best.value !in persisted { return false, local, trace; }
      finished, local, trace := PackageAndCommit(e, row, models, best.value, runs, persisted, packaged, committed, w,
          trace);
    }

    /** Saves the package, fills in the recommendation and commits it with its audit event. */
    method PackageAndCommit(e: Id, row: Experiment, models: seq<string>, best: string,
                            runs: map<string, string>, persisted: set<string>, packaged: bool, committed: bool,
                            ghost w: World, ghost done: seq<Turn>)
      returns (finished: bool, local: Experiment, ghost trace: seq<Turn>)
      requires best in runs
      requires Run(w, done) == Snapshot(map[0 := Training(e, row, models, Some(best), runs, persisted, Packaging)])
      requires e in experiments && experiments[e].status.Running?
      modifies this
      ensures finished ==> Run(w, trace) == Snapshot(map[])
      ensures !finished ==> Raised(w, trace, e, local)
      ensures finished <==> packaged && committed
      ensures experiments == if finished then old(experiments)[e := Experiment(Succeeded, Some(Pick(best, runs[best])))]
                             else old(experiments)
    {
      hide Run, Apply, Continue;
      local, trace := row, done + [Turn(0, Package(packaged))];
      Acts(Run(w, done), 0, Package(packaged));
      RunOn(w, done, Turn(0, Package(packaged)));
      if !packaged { return false, local, trace; }
      local := Experiment(Succeeded, Some(Pick(best, runs[best])));
      ghost var before := Run(w, trace);
      Acts(before, 0, Commit(committed));
      RunOn(w, trace, Turn(0, Commit(committed)));
      trace := trace + [Turn(0, Commit(committed))];
      if !committed { return false, local, trace; }
      experiments := experiments[e := local];
      audit := audit + [RunSucceeded(e)];
      assert before.calls - {0} == map[];
      finished := true;
    }
  }
}
