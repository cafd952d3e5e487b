/**
 Candidate registration and demo deployment over the external model registry and the database, called one at a
 time. A call may stop after any external write or lose its transaction, and may be retried under any id.
 */
module CandidateRegistry {
  import opened Wrappers
  import opened Records

  /** A model run as registration sees it; eligibility and package validity are decided elsewhere and fixed. */
  datatype RunRow = RunRow(mlflowRun: string, modelName: string, eligible: bool, packageValid: bool)

  type Catalog = map<Id, RunRow>

  datatype Row = Row(id: Id, name: string, version: nat, modelRun: Id, candidate: bool, status: Deployment,
      deployed: bool)

  datatype Deployment = Candidate | DemoDeployed

  /**
   `rows`: the registered models in creation order. `versions[name][v - 1]` is the run behind version v in the
   external registry; `candidate` is its candidate alias.
   */
  datatype State = State(rows: seq<Row>, versions: map<string, seq<string>>, candidate: map<string, nat>)

  /** How far the external registry call got before it raised, if it did. */
  datatype Reach = NotStarted | ModelMade | VersionMade | AliasMade | Complete

  datatype Op =
    | Register(modelRun: Id, name: Option<string>, reach: Reach, newId: Id, committed: bool)
    | DeployDemo(id: Id, done: bool)

  datatype Reply =
    | Registered(row: Row)
    | RunNotFound
    | NotEligible
    | Conflict
    | PackageInvalid
    | RegistryFailed
    | Lost
    | ModelNotFound
    | DemoDeployedReply(row: Row)

  // ----- the external registry -----

  predicate NameChar(c: char) {
    'a' <= c <= 'z' || 'A' <= c <= 'Z' || '0' <= c <= '9' || c == '.' || c == '_' || c == '-'
  }

  predicate ValidName(name: string) {
    0 < |name| <= 255 && forall c :: c in name ==> NameChar(c)
  }

  /** The highest version whose run is the given one. */
  function VersionOf(runs: seq<string>, run: string): Option<nat> {
    if runs == [] then None
    else if runs[|runs| - 1] == run then Some(|runs|)
    else VersionOf(runs[..|runs| - 1], run)
  }

  function VersionsOf(s: State, name: string): seq<string> {
    if name in s.versions then s.versions[name] else []
  }

  /** Creates the version unless one of this run exists, then moves the candidate alias. */
  function RegisterRun(s: State, name: string, run: string, reach: Reach): (State, Option<nat>) {
    if !ValidName(name) || !NonBlank(run) || reach.NotStarted? then (s, None)
    else
      var runs := VersionsOf(s, name);
      var made := s.(versions := s.versions[name := runs]);
      if reach.ModelMade? then (made, None)
      else
        var found := VersionOf(runs, run);
        var version := if found.Some? then found.value else |runs| + 1;
        var versioned := if found.Some? then made else made.(versions := made.versions[name := runs + [run]]);
        if reach.VersionMade? then (versioned, None)
        else
          var aliased := versioned.(candidate := versioned.candidate[name := version]);
          (aliased, if reach.AliasMade? then None else Some(version))
  }

  // ----- the database transactions -----

  function Each(rows: seq<Row>, f: Row -> Row): (r: seq<Row>)
    ensures |r| == |rows| && forall i :: 0 <= i < |rows| ==> r[i] == f(rows[i])
  {
    if rows == [] then [] else Each(rows[..|rows| - 1], f) + [f(rows[|rows| - 1])]
  }

  function Uncandidate(name: string): Row -> Row {
    (r: Row) => if r.name == name && r.candidate then r.(candidate := false) else r
  }

  function Redeploy(id: Id, name: string): Row -> Row {
    (r: Row) =>
      if r.id == id then r.(status := DemoDeployed, deployed := true)
      else if r.name == name then r.(status := Candidate, deployed := false)
      else r
  }

  function Ids(rows: seq<Row>): set<Id> { set r | r in rows :: r.id }

  function FindBy(rows: seq<Row>, keep: Row -> bool): Option<Row> {
    if rows == [] then None else if keep(rows[0]) then Some(rows[0]) else FindBy(rows[1..], keep)
  }

  function WithId(id: Id): Row -> bool { (r: Row) => r.id == id }

  function NamedRun(modelRun: Id, name: string): Row -> bool { (r: Row) => r.modelRun == modelRun && r.name == name }

  function NameFor(name: Option<string>, run: RunRow): string {
    if name.Some? && name.value != "" then name.value else run.modelName
  }

  function DoRegister(s: State, catalog: Catalog, op: Op): (State, Reply)
    requires op.Register?
  {
    if op.modelRun !in catalog then (s, RunNotFound)
    else
      var run := catalog[op.modelRun];
      var name := NameFor(op.name, run);
      if !run.eligible then (s, NotEligible)
      else if exists r :: r in s.rows && r.modelRun == op.modelRun then
        match FindBy(s.rows, NamedRun(op.modelRun, name))
        case Some(row) => (s, Registered(row))
        case None => (s, Conflict)
      else if !run.packageValid then (s, PackageInvalid)
      else
        var (s1, version) := RegisterRun(s, name, run.mlflowRun, op.reach);
        if version.None? then (s1, RegistryFailed)
        else if !op.committed || op.newId in Ids(s1.rows) then (s1, Lost)
        else
          var row := Row(op.newId, name, version.value, op.modelRun, true, Candidate, false);
          (s1.(rows := Each(s1.rows, Uncandidate(name)) + [row]), Registered(row))
  }

  function DoDeploy(s: State, op: Op): (State, Reply)
    requires op.DeployDemo?
  {
    match FindBy(s.rows, WithId(op.id))
    case None => (s, ModelNotFound)
    case Some(row) =>
      if !op.done then (s, Lost)
      else
        (s.(rows := Each(s.rows, Redeploy(op.id, row.name))),
            DemoDeployedReply(row.(status := DemoDeployed, deployed := true)))
  }

  function Apply(s: State, catalog: Catalog, op: Op): (State, Reply) {
    if op.Register? then DoRegister(s, catalog, op) else DoDeploy(s, op)
  }

  function Run(s: State, catalog: Catalog, ops: seq<Op>): State {
    if ops == [] then s else Apply(Run(s, catalog, ops[..|ops| - 1]), catalog, ops[|ops| - 1]).0
  }

  // ----- what every reachable state satisfies -----

  ghost predicate OneVersionPerRun(versions: map<string, seq<string>>) {
    forall name, i, j :: name in versions && 0 <= i < j < |versions[name]| ==> versions[name][i] != versions[name][j]
  }

  ghost predicate CarriesItsVersion(row: Row, versions: map<string, seq<string>>, catalog: Catalog) {
    && row.modelRun in catalog && row.name in versions
    && 1 <= row.version <= |versions[row.name]|
    && versions[row.name][row.version - 1] == catalog[row.modelRun].mlflowRun
  }

  /**
   Two different rows never share an id or a model run; of one name they are never both candidate or both deployed.
   */
  ghost predicate Apart(r: Row, q: Row) {
    && r.id != q.id && r.modelRun != q.modelRun
    && (r.name == q.name ==> !(r.candidate && q.candidate) && !(r.deployed && q.deployed))
  }

  ghost predicate RowsInv(rows: seq<Row>) {
    && (forall i, j :: 0 <= i < j < |rows| ==> Apart(rows[i], rows[j]))
    && (forall r :: r in rows ==> (r.deployed <==> r.status.DemoDeployed?))
  }

  ghost predicate Inv(s: State, catalog: Catalog) {
    && OneVersionPerRun(s.versions)
    && (forall r :: r in s.rows ==> CarriesItsVersion(r, s.versions, catalog))
    && RowsInv(s.rows)
  }

  lemma {:induction false} VersionOfIs(runs: seq<string>, run: string)
    ensures VersionOf(runs, run).None? <==> run !in runs
    ensures var v := VersionOf(runs, run); v.Some? ==> 1 <= v.value <= |runs| && runs[v.value - 1] == run
  {
    if runs != [] {
      VersionOfIs(runs[..|runs| - 1], run);
      assert runs == runs[..|runs| - 1] + [runs[|runs| - 1]];
    }
  }

  lemma {:induction false} FindByIs(rows: seq<Row>, keep: Row -> bool)
    ensures FindBy(rows, keep).None? <==> forall r :: r in rows ==> !keep(r)
    ensures FindBy(rows, keep).Some? ==> FindBy(rows, keep).value in rows && keep(FindBy(rows, keep).value)
  {
    if rows != [] { FindByIs(rows[1..], keep); }
  }

  /** However far the registry call gets, versions are only appended, and a run gets a version at most once per name. */
  lemma RegisterRunKeepsVersions(s: State, name: string, run: string, reach: Reach)
    requires OneVersionPerRun(s.versions)
    ensures var (s', v) := RegisterRun(s, name, run, reach);
      && OneVersionPerRun(s'.versions) && s'.rows == s.rows
      && (forall n :: n in s.versions ==> n in s'.versions && s.versions[n] <= s'.versions[n])
      && (forall n :: n != name ==> VersionsOf(s', n) == VersionsOf(s, n))
      && (v.Some? ==> name in s'.versions && 1 <= v.value <= |s'.versions[name]|
                      && s'.versions[name][v.value - 1] == run
                      && s'.candidate == s.candidate[name := v.value])
      && (run in VersionsOf(s, name) ==> VersionsOf(s', name) == VersionsOf(s, name))
      && (v.Some? && run !in VersionsOf(s, name) ==> VersionsOf(s', name) == VersionsOf(s, name) + [run])
  {
    VersionOfIs(VersionsOf(s, name), run);
  }

  lemma VersionsGrow(row: Row, versions: map<string, seq<string>>, versions': map<string, seq<string>>,
                     catalog: Catalog)
    requires CarriesItsVersion(row, versions, catalog)
    requires forall n :: n in versions ==> n in versions' && versions[n] <= versions'[n]
    ensures CarriesItsVersion(row, versions', catalog)
  {
  }

  lemma InsertKeepsRows(rows: seq<Row>, row: Row)
    requires RowsInv(rows) && row.id !in Ids(rows) && row.status.Candidate? && !row.deployed
    requires forall r :: r in rows ==> r.modelRun != row.modelRun
    ensures RowsInv(Each(rows, Uncandidate(row.name)) + [row])
  {
    hide Each;
    var rows' := Each(rows, Uncandidate(row.name));
    forall i, j | 0 <= i < j < |rows| ensures Apart(rows'[i], rows'[j]) {
      assert Apart(rows[i], rows[j]);
    }
    forall i | 0 <= i < |rows| ensures Apart(rows'[i], row) {
      assert rows[i] in rows && rows[i].id in Ids(rows);
    }
    forall r | r in rows' ensures r.deployed <==> r.status.DemoDeployed? {
      var i :| 0 <= i < |rows'| && rows'[i] == r;
      assert rows[i] in rows;
    }
  }

  /** Only the target row has the target's id. */
  lemma TargetIsUnique(rows: seq<Row>, target: Row)
    requires RowsInv(rows) && target in rows
    ensures forall r :: r in rows && r.id == target.id ==> r == target
  {
  }

  lemma RedeployApart(r: Row, q: Row, target: Row)
    requires Apart(r, q) && (r.id == target.id ==> r == target) && (q.id == target.id ==> q == target)
    ensures Apart(Redeploy(target.id, target.name)(r), Redeploy(target.id, target.name)(q))
  {
  }

  lemma DeployKeepsRows(rows: seq<Row>, target: Row)
    requires RowsInv(rows) && target in rows
    ensures RowsInv(Each(rows, Redeploy(target.id, target.name)))
  {
    TargetIsUnique(rows, target);
    hide Each, Apart;
    var rows' := Each(rows, Redeploy(target.id, target.name));
    forall i, j | 0 <= i < j < |rows| ensures Apart(rows'[i], rows'[j]) {
      assert rows[i] in rows && rows[j] in rows;
      RedeployApart(rows[i], rows[j], target);
    }
    forall r | r in rows' ensures r.deployed <==> r.status.DemoDeployed? {
      var i :| 0 <= i < |rows'| && rows'[i] == r;
      assert rows[i] in rows;
    }
  }

  lemma RegisterKeeps(s: State, catalog: Catalog, op: Op)
    requires Inv(s, catalog) && op.Register?
    ensures Inv(DoRegister(s, catalog, op).0, catalog)
  {
    hide RowsInv, OneVersionPerRun, CarriesItsVersion;
    var (s', reply) := DoRegister(s, catalog, op);
    if op.modelRun in catalog && (s' != s) {
      var run := catalog[op.modelRun];
      var name := NameFor(op.name, run);
      var (s1, version) := RegisterRun(s, name, run.mlflowRun, op.reach);
      RegisterRunKeepsVersions(s, name, run.mlflowRun, op.reach);
      hide RegisterRun;
      forall r | r in s.rows ensures CarriesItsVersion(r, s1.versions, catalog) {
        VersionsGrow(r, s.versions, s1.versions, catalog);
      }
      if reply.Registered? {
        InsertKeepsRows(s.rows, reply.row);
        NewRowsCarryVersions(s.rows, name, s1.versions, catalog);
        NewRowCarriesVersion(reply.row, s1.versions, catalog);
      }
    }
  }

  lemma NewRowCarriesVersion(row: Row, versions: map<string, seq<string>>, catalog: Catalog)
    requires row.modelRun in catalog && row.name in versions && 1 <= row.version <= |versions[row.name]|
    requires versions[row.name][row.version - 1] == catalog[row.modelRun].mlflowRun
    ensures CarriesItsVersion(row, versions, catalog)
  {
  }

  lemma NewRowsCarryVersions(rows: seq<Row>, name: string, versions: map<string, seq<string>>, catalog: Catalog)
    requires forall r :: r in rows ==> CarriesItsVersion(r, versions, catalog)
    ensures forall r :: r in Each(rows, Uncandidate(name)) ==> CarriesItsVersion(r, versions, catalog)
  {
    var rows' := Each(rows, Uncandidate(name));
    forall r | r in rows' ensures CarriesItsVersion(r, versions, catalog) {
      var i :| 0 <= i < |rows'| && rows'[i] == r;
      assert CarriesItsVersion(rows[i], versions, catalog);
    }
  }

  lemma RedeployedRowsCarryVersions(rows: seq<Row>, target: Row, versions: map<string, seq<string>>, catalog: Catalog)
    requires forall r :: r in rows ==> CarriesItsVersion(r, versions, catalog)
    ensures forall r :: r in Each(rows, Redeploy(target.id, target.name)) ==> CarriesItsVersion(r, versions, catalog)
  {
    hide Each;
    var rows' := Each(rows, Redeploy(target.id, target.name));
    forall r | r in rows' ensures CarriesItsVersion(r, versions, catalog) {
      var i :| 0 <= i < |rows'| && rows'[i] == r;
      assert CarriesItsVersion(rows[i], versions, catalog);
    }
  }

  lemma DeployKeeps(s: State, catalog: Catalog, op: Op)
    requires Inv(s, catalog) && op.DeployDemo?
    ensures Inv(DoDeploy(s, op).0, catalog)
  {
    hide Each;
    FindByIs(s.rows, WithId(op.id));
    var (s', reply) := DoDeploy(s, op);
    if reply.DemoDeployedReply? {
      var row := FindBy(s.rows, WithId(op.id)).value;
      DeployKeepsRows(s.rows, row);
      hide RowsInv, OneVersionPerRun;
      RedeployedRowsCarryVersions(s.rows, row, s.versions, catalog);
    }
  }

  lemma {:induction false} RunKeeps(s: State, catalog: Catalog, ops: seq<Op>)
    requires Inv(s, catalog)
    ensures Inv(Run(s, catalog, ops), catalog)
  {
    hide Inv, Apply;
    if ops != [] {
      RunKeeps(s, catalog, ops[..|ops| - 1]);
      ApplyKeeps(Run(s, catalog, ops[..|ops| - 1]), catalog, ops[|ops| - 1]);
    }
  }

  lemma ApplyKeeps(s: State, catalog: Catalog, op: Op)
    requires Inv(s, catalog)
    ensures Inv(Apply(s, catalog, op).0, catalog)
  {
    hide Inv, DoRegister, DoDeploy;
    if op.Register? { RegisterKeeps(s, catalog, op); } else { DeployKeeps(s, catalog, op); }
  }

  const EMPTY := State([], map[], map[])

  ghost function Reached(catalog: Catalog, ops: seq<Op>): State { Run(EMPTY, catalog, ops) }

  lemma ReachedInv(catalog: Catalog, ops: seq<Op>)
    ensures Inv(Reached(catalog, ops), catalog)
  {
    hide Run;
    RunKeeps(EMPTY, catalog, ops);
  }

  // ----- the guarantees -----

  /** After any crashes and retries, a run has at most one version per name, and each row carries its run's version. */
  lemma OneVersionPerNameAndRun(catalog: Catalog, ops: seq<Op>)
    ensures var s := Reached(catalog, ops);
      && (forall name, i, j :: name in s.versions && 0 <= i < j < |s.versions[name]| ==>
            s.versions[name][i] != s.versions[name][j])
      && (forall r :: r in s.rows ==>
            r.modelRun in catalog && VersionOf(VersionsOf(s, r.name), catalog[r.modelRun].mlflowRun) == Some(r.version))
  {
    ReachedInv(catalog, ops);
    var s := Reached(catalog, ops);
    forall r | r in s.rows
      ensures r.modelRun in catalog
              && VersionOf(VersionsOf(s, r.name), catalog[r.modelRun].mlflowRun) == Some(r.version)
    {
      assert CarriesItsVersion(r, s.versions, catalog);
      VersionOfIs(VersionsOf(s, r.name), catalog[r.modelRun].mlflowRun);
    }
  }

  /** Per name at most one row is the candidate and at most one is deployed; per model run there is at most one row. */
  lemma OneCandidateOneDeployment(catalog: Catalog, ops: seq<Op>, r: Row, q: Row)
    requires r in Reached(catalog, ops).rows && q in Reached(catalog, ops).rows
    ensures r.deployed <==> r.status.DemoDeployed?
    ensures r.modelRun == q.modelRun || r.id == q.id ==> r == q
    ensures r.name == q.name && r.candidate && q.candidate ==> r == q
    ensures r.name == q.name && r.deployed && q.deployed ==> r == q
  {
    ReachedInv(catalog, ops);
    var rows := Reached(catalog, ops).rows;
    var i :| 0 <= i < |rows| && rows[i] == r;
    var j :| 0 <= j < |rows| && rows[j] == q;
    assert i < j ==> Apart(rows[i], rows[j]);
    assert j < i ==> Apart(rows[j], rows[i]);
  }

  /** What a redeployment does to the rows: the target of its name alone is deployed, and nothing else changes. */
  ghost predicate Redeployed(rows: seq<Row>, rows': seq<Row>, target: Row) {
    && |rows'| == |rows|
    && (forall r :: r in rows' && r.name == target.name ==>
          (r.deployed <==> r.id == target.id) && (r.status.DemoDeployed? <==> r.id == target.id))
    && (forall i :: 0 <= i < |rows| && rows[i].name != target.name ==> rows'[i] == rows[i])
    && (forall i :: 0 <= i < |rows| ==> rows'[i] == rows[i].(status := rows'[i].status, deployed := rows'[i].deployed))
  }

  lemma RedeployEffect(rows: seq<Row>, target: Row)
    requires RowsInv(rows) && target in rows
    ensures Redeployed(rows, Each(rows, Redeploy(target.id, target.name)), target)
    ensures target.(status := DemoDeployed, deployed := true) in Each(rows, Redeploy(target.id, target.name))
  {
    hide Each, RowsInv, Redeploy;
    TargetIsUnique(rows, target);
    var f := Redeploy(target.id, target.name);
    var rows' := Each(rows, f);
    var k :| 0 <= k < |rows| && rows[k] == target;
    RedeployRow(target, target);
    assert rows'[k] in rows';
    forall i | 0 <= i < |rows|
      ensures rows[i].name != target.name ==> rows'[i] == rows[i]
      ensures rows'[i] == rows[i].(status := rows'[i].status, deployed := rows'[i].deployed)
      ensures rows'[i].name == target.name ==>
                (rows'[i].deployed <==> rows'[i].id == target.id)
                    && (rows'[i].status.DemoDeployed? <==> rows'[i].id == target.id)
    {
      assert rows[i] in rows;
      RedeployRow(rows[i], target);
    }
    forall r | r in rows' && r.name == target.name
      ensures (r.deployed <==> r.id == target.id) && (r.status.DemoDeployed? <==> r.id == target.id)
    {
      var i :| 0 <= i < |rows'| && rows'[i] == r;
    }
  }

  lemma RedeployRow(r: Row, target: Row)
    requires r.id == target.id ==> r == target
    ensures var r' := Redeploy(target.id, target.name)(r);
      && r' == r.(status := r'.status, deployed := r'.deployed)
      && (r.name != target.name ==> r' == r)
      && (r.name == target.name ==>
            (r'.deployed <==> r.id == target.id) && (r'.status.DemoDeployed? <==> r.id == target.id))
      && (r == target ==> r' == target.(status := DemoDeployed, deployed := true))
  {
  }

  /** A successful demo deployment leaves its model the one deployed row of its name and touches no other name. */
  lemma DeployLeavesExactlyOne(catalog: Catalog, ops: seq<Op>, id: Id)
    requires Apply(Reached(catalog, ops), catalog, DeployDemo(id, true)).1.DemoDeployedReply?
    ensures var s := Reached(catalog, ops);
      var (s', reply) := Apply(s, catalog, DeployDemo(id, true));
      && reply.row.id == id && reply.row in s'.rows && reply.row.deployed
      && Redeployed(s.rows, s'.rows, reply.row)
      && s'.versions == s.versions && s'.candidate == s.candidate
  {
    ReachedInv(catalog, ops);
    var s := Reached(catalog, ops);
    hide Reached, Each, RowsInv, Redeployed, Redeploy, OneVersionPerRun, CarriesItsVersion;
    FindByIs(s.rows, WithId(id));
    var target := FindBy(s.rows, WithId(id)).value;
    RedeployEffect(s.rows, target);
    SameTarget(s.rows, Apply(s, catalog, DeployDemo(id, true)).0.rows, target,
        target.(status := DemoDeployed, deployed := true));
  }

  lemma SameTarget(rows: seq<Row>, rows': seq<Row>, target: Row, target': Row)
    requires Redeployed(rows, rows', target) && target'.id == target.id && target'.name == target.name
    ensures Redeployed(rows, rows', target')
  {
  }

  /**
   A fresh registration files its row under the requested name, or the run's model name when none or an empty one was
   requested. The row becomes the candidate of that name on both sides, under the version an earlier interrupted call
   left behind if there is one, and nothing else of the name changes but the candidate mark.
   */
  lemma RegistrationTakesOver(catalog: Catalog, ops: seq<Op>, op: Op)
    requires op.Register?
    requires var (s', reply) := Apply(Reached(catalog, ops), catalog, op);
      reply.Registered? && reply.row !in Reached(catalog, ops).rows
    ensures var s := Reached(catalog, ops);
      var (s', reply) := Apply(s, catalog, op);
      var row, run := reply.row, catalog[op.modelRun].mlflowRun;
      && row.id == op.newId && row.modelRun == op.modelRun && row.candidate && !row.deployed && row.status.Candidate?
      && row.name == (if op.name.None? || op.name.value == "" then catalog[op.modelRun].modelName else op.name.value)
      && 1 <= row.version <= |VersionsOf(s', row.name)| && VersionsOf(s', row.name)[row.version - 1] == run
      && s'.rows[|s.rows|..] == [row]
      && (forall r :: r in s'.rows && r.name == row.name ==> (r.candidate <==> r == row))
      && row.name in s'.candidate && s'.candidate[row.name] == row.version
      && (run in VersionsOf(s, row.name) ==> VersionsOf(s', row.name) == VersionsOf(s, row.name))
      && (run !in VersionsOf(s, row.name) ==> VersionsOf(s', row.name) == VersionsOf(s, row.name) + [run])
      && (forall i :: 0 <= i < |s.rows| ==>
            s'.rows[i] == if s.rows[i].name == row.name then s.rows[i].(candidate := false) else s.rows[i])
  {
    var s := Reached(catalog, ops);
    ReachedInv(catalog, ops);
    hide Reached, RowsInv, CarriesItsVersion, OneVersionPerRun, Each, RegisterRun;
    var run := catalog[op.modelRun];
    var name := NameFor(op.name, run);
    var (s1, version) := RegisterRun(s, name, run.mlflowRun, op.reach);
    RegisterRunKeepsVersions(s, name, run.mlflowRun, op.reach);
    FindByIs(s.rows, NamedRun(op.modelRun, name));
    var (s', reply) := DoRegister(s, catalog, op);
    var row := Row(op.newId, name, version.value, op.modelRun, true, Candidate, false);
    assert reply == Registered(row) && s' == s1.(rows := Each(s.rows, Uncandidate(name)) + [row]);
    hide DoRegister;
    forall r | r in s'.rows && r.name == name ensures r.candidate <==> r == row {
      var i :| 0 <= i < |s'.rows| && s'.rows[i] == r;
    }
  }

  /** What a registration of an unregistered run answers, and whether the external registry was reached at all. */
  lemma RegistrationReplies(catalog: Catalog, ops: seq<Op>, op: Op)
    requires op.Register? && forall r :: r in Reached(catalog, ops).rows ==> r.modelRun != op.modelRun
    ensures var s := Reached(catalog, ops);
      var (s', reply) := Apply(s, catalog, op);
      var known := op.modelRun in catalog;
      var ready := known && catalog[op.modelRun].eligible && catalog[op.modelRun].packageValid;
      && (reply == RunNotFound <==> !known)
      && (reply == NotEligible <==> known && !catalog[op.modelRun].eligible)
      && (reply == PackageInvalid <==>
            known && catalog[op.modelRun].eligible && !catalog[op.modelRun].packageValid)
      && (!ready ==> s' == s)
      && (ready ==>
            var run := catalog[op.modelRun];
            var name := if op.name.None? || op.name.value == "" then run.modelName else op.name.value;
            var accepted := && 0 < |name| <= 255 && (forall c :: c in name ==> NameChar(c)) && NonBlank(run.mlflowRun)
                            && op.reach == Complete;
            && (reply == RegistryFailed <==> !accepted)
            && (reply == Lost <==> accepted && !(op.committed && forall r :: r in s.rows ==> r.id != op.newId))
            && (reply.Registered? <==> accepted && op.committed && forall r :: r in s.rows ==> r.id != op.newId)
            && (!reply.Registered? ==> s'.rows == s.rows))
  {
    hide Reached, VersionOf, Each;
  }

  /** Registering a registered run again changes nothing: the same row under its name, a conflict under another. */
  lemma RegisteringAgain(catalog: Catalog, ops: seq<Op>, op: Op, row: Row)
    requires op.Register? && row in Reached(catalog, ops).rows && row.modelRun == op.modelRun
    requires op.modelRun in catalog && catalog[op.modelRun].eligible
    ensures Apply(Reached(catalog, ops), catalog, op) ==
            (Reached(catalog, ops),
             var unnamed := op.name.None? || op.name.value == "";
             if (unnamed && row.name == catalog[op.modelRun].modelName) || (!unnamed && row.name == op.name.value)
             then Registered(row) else Conflict)
  {
    var s := Reached(catalog, ops);
    var name := NameFor(op.name, catalog[op.modelRun]);
    FindByIs(s.rows, NamedRun(op.modelRun, name));
    forall r | r in s.rows && r.modelRun == op.modelRun ensures r == row {
      OneCandidateOneDeployment(catalog, ops, r, row);
    }
  }

  // ----- the service -----

  class ModelRegistryService {
    const catalog: Catalog
    var rows: seq<Row>
    var versions: map<string, seq<string>>
    var candidate: map<string, nat>

    ghost function Snapshot(): State
      reads this
    {
      State(rows, versions, candidate)
    }

    constructor (catalog: Catalog)
      ensures this.catalog == catalog && Snapshot() == EMPTY
    {
      this.catalog := catalog;
      rows, versions, candidate := [], map[], map[];
    }

    /** The gateway call: every write may be the last before it raises. */
    method CallRegistry(name: string, run: string, reach: Reach) returns (version: Option<nat>)
      modifies this`versions, this`candidate
      ensures (Snapshot(), version) == RegisterRun(old(Snapshot()), name, run, reach)
    {
      if !ValidName(name) || !NonBlank(run) || reach == NotStarted { return None; }
      if name !in versions { versions := versions[name := []]; }
      assert versions == old(versions)[name := VersionsOf(old(Snapshot()), name)];
      if reach == ModelMade { return None; }
      var found := VersionOf(versions[name], run);
      var v := if found.Some? then found.value else |versions[name]| + 1;
      if found.None? { versions := versions[name := versions[name] + [run]]; }
      if reach == VersionMade { return None; }
      candidate := candidate[name := v];
      version := if reach == AliasMade then None else Some(v);
    }

    method RegisterModel(modelRun: Id, name: Option<string>, reach: Reach, newId: Id,
                         committed: bool) returns (reply: Reply)
      modifies this
      ensures (Snapshot(), reply) == DoRegister(old(Snapshot()), catalog,
              Register(modelRun, name, reach, newId, committed))
    {
      if modelRun !in catalog { return RunNotFound; }
      var run := catalog[modelRun];
      if !run.eligible { return NotEligible; }
      var target := NameFor(name, run);
      if exists r :: r in rows && r.modelRun == modelRun {
        var same := FindBy(rows, NamedRun(modelRun, target));
        return if same.Some? then Registered(same.value) else Conflict;
      }
      if !run.packageValid { return PackageInvalid; }
      var version := CallRegistry(target, run.mlflowRun, reach);
      if version == None { return RegistryFailed; }
      if !committed || newId in Ids(rows) { return Lost; }
      ClearCandidates(target);
      var row := Row(newId, target, version.value, modelRun, true, Candidate, false);
      rows := rows + [row];
      reply := Registered(row);
    }

    /** Takes the candidate mark off every row of a name. */
    method ClearCandidates(name: string)
      modifies this`rows
      ensures rows == Each(old(rows), Uncandidate(name))
    {
      hide Each;
      ghost var before := rows;
      var i := 0;
      while i < |rows|
        invariant 0 <= i <= |rows| == |before|
        invariant forall k :: 0 <= k < |rows| ==> rows[k] == if k < i then Uncandidate(name)(before[k]) else before[k]
      {
        if rows[i].name == name && rows[i].candidate {
          rows := rows[i := rows[i].(candidate := false)];
        }
        i := i + 1;
      }
    }

    method DeployDemoModel(id: Id, done: bool) returns (reply: Reply)
      modifies this`rows
      ensures (Snapshot(), reply) == DoDeploy(old(Snapshot()), DeployDemo(id, done))
    {
      hide Each;
      var found := FindBy(rows, WithId(id));
      if found == None { return ModelNotFound; }
      if !done { return Lost; }
      var model := found.value;
      ghost var before := rows;
      var i := 0;
      while i < |rows|
        invariant 0 <= i <= |rows| == |before|
        invariant forall k :: 0 <= k < |rows| ==> rows[k] == if k < i then Redeploy(id, model.name)(before[k])
                  else before[k]
      {
        if rows[i].id == id {
          rows := rows[i := rows[i].(status := DemoDeployed, deployed := true)];
        } else if rows[i].name == model.name {
          rows := rows[i := rows[i].(status := Candidate, deployed := false)];
        }
        i := i + 1;
      }
      assert rows == Each(before, Redeploy(id, model.name));
      reply := DemoDeployedReply(model.(status := DemoDeployed, deployed := true));
    }
  }
}
