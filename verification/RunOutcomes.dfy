/**
 Which runs leave a recommendation behind, and what overlapping registrations of one run may leave: results about
 whole runs of the experiment machine.
 */
module RunOutcomes {
  import opened Wrappers
  import opened Records
  import opened Experiments

  // ----- a failed experiment with a recommendation -----

  /** The experiment whose final commit is lost by this step. */
  function LostCommit(w: World, turn: Turn): set<Id> {
    if turn.t in w.calls && w.calls[turn.t].Training? && w.calls[turn.t].at.Committing?
        && turn.step == Commit(false) then
      {w.calls[turn.t].e}
    else {}
  }

  /** The experiments whose final commit was lost somewhere along a run. */
  ghost function LostCommits(trace: seq<Turn>): set<Id> {
    if trace == [] then {}
    else
      var n := |trace| - 1;
      LostCommits(trace[..n]) + LostCommit(Reached(trace[..n]), trace[n])
  }

  ghost function LostAt(trace: seq<Turn>, k: nat): set<Id>
    requires k < |trace|
  {
    LostCommit(Reached(trace[..k]), trace[k])
  }

  lemma {:induction false} LostCommitsAre(trace: seq<Turn>, e: Id)
    ensures e in LostCommits(trace) <==> exists k :: 0 <= k < |trace| && e in LostAt(trace, k)
  {
    hide Reached, LostCommit;
    if trace != [] {
      var n := |trace| - 1;
      LostCommitsAre(trace[..n], e);
      forall k | 0 <= k < n ensures LostAt(trace[..n], k) == LostAt(trace, k) {
        assert trace[..n][..k] == trace[..k];
      }
      assert LostCommits(trace) == LostCommits(trace[..n]) + LostAt(trace, n);
    }
  }

  ghost predicate RowOutcome(row: Experiment, lost: bool) {
    match row.status
    case Queued => row.recommendation.None? && !lost
    case Running => row.recommendation.None?
    case Succeeded => !lost
    case Failed => row.recommendation.Some? <==> lost
  }

  ghost predicate CallOutcome(call: Call, lost: bool) {
    call.Training? ==>
      && (lost <==> call.at.Failing? && call.local.recommendation.Some?)
      && (call.at.Committing? ==> call.local.recommendation.Some?)
      && (!call.at.Committing? && !call.at.Failing? ==> call.local.recommendation.None?)
  }

  ghost predicate Outcomes(w: World, lost: set<Id>) {
    && (forall e :: e in w.experiments ==> RowOutcome(w.experiments[e], e in lost))
    && (forall e :: e in lost ==> e in w.experiments)
    && (forall t :: t in w.calls ==> CallOutcome(w.calls[t], w.calls[t].Training? && w.calls[t].e in lost))
  }

  /** Calls of other experiments and other rows are out of a step's reach. */
  lemma OutcomesMove(w: World, w': World, t: Tid, lost: set<Id>, lost': set<Id>, own: Id)
    requires Outcomes(w, lost) && CallsInv(w)
    requires lost <= lost' <= lost + {own}
    requires t in w.calls ==> w.calls[t].Training? && w.calls[t].e == own
    requires forall u :: u in w.calls && u != t && w.calls[u].Training? ==> w.calls[u].e != own
    requires forall u :: u in w'.calls && u != t ==> u in w.calls && w'.calls[u] == w.calls[u]
    requires t in w'.calls ==> w'.calls[t].Training? && w'.calls[t].e == own && CallOutcome(w'.calls[t], own in lost')
    requires w'.experiments.Keys == w.experiments.Keys && own in w.experiments
    requires forall e :: e in w.experiments && e != own ==> w'.experiments[e] == w.experiments[e]
    requires RowOutcome(w'.experiments[own], own in lost')
    ensures Outcomes(w', lost')
  {
    hide RowOutcome, CallOutcome, CallsInv;
  }

  lemma Alone(w: World, t: Tid)
    requires CallsInv(w) && t in w.calls && w.calls[t].Training?
    ensures forall u :: u in w.calls && u != t && w.calls[u].Training? ==> w.calls[u].e != w.calls[t].e
    ensures w.calls[t].e in w.experiments && w.experiments[w.calls[t].e].status.Running?
    ensures w.calls[t].at.Committing? ==> w.calls[t].local.status.Succeeded?
  {
    assert CallInv(w.calls[t], w.experiments, w.modelRuns);
  }

  lemma TrainingOutcome(w: World, t: Tid, s: Step, lost: set<Id>)
    requires Outcomes(w, lost) && CallsInv(w) && t in w.calls && w.calls[t].Training?
    ensures Outcomes(Continue(w, t, w.calls[t], s), lost + LostCommit(w, Turn(t, s)))
  {
    var call := w.calls[t];
    var w' := Continue(w, t, call, s);
    Alone(w, t);
    assert RowOutcome(w.experiments[call.e], call.e in lost) && CallOutcome(call, call.e in lost);
    hide Outcomes, CallsInv, Continue, RowOutcome, CallOutcome;
    if (call.at.Committing? && s.Commit?) || (call.at.Failing? && s.MarkFailed?) {
      LastStepOutcome(w, t, call, s, call.e in lost);
    } else {
      ProgressOutcome(w, t, call, s, call.e in lost);
      assert lost + LostCommit(w, Turn(t, s)) == lost;
    }
    OutcomesMove(w, w', t, lost, lost + LostCommit(w, Turn(t, s)), call.e);
  }

  /**
   Every step of a run before its last transaction leaves the rows alone and sets no recommendation but in packaging.
   */
  lemma ProgressOutcome(w: World, t: Tid, call: Call, s: Step, lost: bool)
    requires t in w.calls && w.calls[t] == call && call.Training? && CallOutcome(call, lost)
    requires !(call.at.Committing? && s.Commit?) && !(call.at.Failing? && s.MarkFailed?)
    ensures var w' := Continue(w, t, call, s);
      && w'.experiments == w.experiments
      && t in w'.calls && w'.calls[t].Training? && w'.calls[t].e == call.e && CallOutcome(w'.calls[t], lost)
      && (forall u :: u in w'.calls && u != t ==> u in w.calls && w'.calls[u] == w.calls[u])
  {
    hide Distinct;
  }

  lemma LastStepOutcome(w: World, t: Tid, call: Call, s: Step, lost: bool)
    requires t in w.calls && w.calls[t] == call && call.Training? && CallOutcome(call, lost)
    requires call.e in w.experiments && w.experiments[call.e].status.Running? && RowOutcome(w.experiments[call.e], lost)
    requires call.at.Committing? ==> call.local.status.Succeeded?
    requires (call.at.Committing? && s.Commit?) || (call.at.Failing? && s.MarkFailed?)
    ensures var w' := Continue(w, t, call, s);
      var lost' := lost || (call.at.Committing? && s == Commit(false));
      && call.e in w'.experiments && RowOutcome(w'.experiments[call.e], lost')
      && w'.experiments == w.experiments[call.e := w'.experiments[call.e]]
      && (t in w'.calls ==> w'.calls[t].Training? && w'.calls[t].e == call.e && CallOutcome(w'.calls[t], lost'))
      && (forall u :: u in w'.calls && u != t ==> u in w.calls && w'.calls[u] == w.calls[u])
  {
    assert w.experiments == w.experiments[call.e := w.experiments[call.e]];
  }

  lemma EnterOutcome(w: World, t: Tid, e: Id, lost: set<Id>)
    requires Outcomes(w, lost) && CallsInv(w) && t !in w.calls
    ensures Outcomes(DoEnter(w, t, e), lost)
  {
    var w' := DoEnter(w, t, e);
    if e in w.experiments && w.experiments[e].status.Queued? {
      forall u | u in w.calls && w.calls[u].Training? ensures w.calls[u].e != e {
        Alone(w, u);
      }
      assert RowOutcome(w.experiments[e], e in lost);
      OutcomesMove(w, w', t, lost, lost, e);
    }
  }

  lemma StepOutcome(w: World, turn: Turn, lost: set<Id>)
    requires Inv(w) && Outcomes(w, lost)
    ensures Outcomes(Apply(w, turn.t, turn.step), lost + LostCommit(w, turn))
  {
    assert CallsInv(w);
    hide Inv, CallsInv, DoEnter, Continue, RowOutcome, CallOutcome;
    var t, s := turn.t, turn.step;
    if t in w.calls && w.calls[t].Training? && !s.Create? && !s.Enter? && !s.ReadRow? && !s.Crash? {
      TrainingOutcome(w, t, s, lost);
    } else {
      assert lost + LostCommit(w, turn) == lost;
      if s.Enter? && t !in w.calls {
        EnterOutcome(w, t, s.e, lost);
      } else {
        OtherOutcome(w, t, s, lost);
      }
    }
  }

  /** Creating, reading, registering and crashing change no outcome. */
  lemma OtherOutcome(w: World, t: Tid, s: Step, lost: set<Id>)
    requires Outcomes(w, lost)
    requires t in w.calls && w.calls[t].Training? ==> s.Create? || s.Enter? || s.ReadRow? || s.Crash?
    requires !s.Enter? || t in w.calls
    ensures Outcomes(Apply(w, t, s), lost)
  {
  }

  lemma {:induction false} OutcomesReached(trace: seq<Turn>)
    ensures Outcomes(Reached(trace), LostCommits(trace))
  {
    hide Apply, Inv, Outcomes, LostCommit;
    if trace == [] {
      OutcomesOfEmpty();
    } else {
      var n := |trace| - 1;
      OutcomesReached(trace[..n]);
      ReachedInv(trace[..n]);
      StepOutcome(Reached(trace[..n]), trace[n], LostCommits(trace[..n]));
    }
  }

  lemma OutcomesOfEmpty()
    ensures Outcomes(EMPTY, {})
  {
  }

  /**
   Exactly when a failed experiment carries a recommendation: its call reached the final commit and that commit was
   lost. Every other failure - in training, tracking, selection, packaging - leaves the recommendation empty, and so
   is that of a queued or running row.
   */
  lemma FailedCarriesRecommendationIff(trace: seq<Turn>, e: Id)
    requires e in Reached(trace).experiments
    ensures var row := Reached(trace).experiments[e];
      && (row.status.Failed? ==>
            (row.recommendation.Some? <==>
             exists k :: 0 <= k < |trace| && e in LostAt(trace, k)))
      && (row.status.Queued? || row.status.Running? ==> row.recommendation.None?)
  {
    hide Reached, LostCommit;
    OutcomesReached(trace);
    LostCommitsAre(trace, e);
    assert RowOutcome(Reached(trace).experiments[e], e in LostCommits(trace));
  }

  /** What the failure mark will store can be read off the call that is about to set it. */
  lemma FailureMarkStores(trace: seq<Turn>, t: Tid)
    requires var w := Reached(trace); t in w.calls && w.calls[t].Training? && w.calls[t].at.Failing?
    ensures var w := Reached(trace);
      var w' := Apply(w, t, MarkFailed(true));
      var e := w.calls[t].e;
      && e in w'.experiments && w'.experiments[e].status.Failed?
      && (w'.experiments[e].recommendation.Some? <==> e in LostCommits(trace))
  {
    hide Reached, Inv, LostCommits;
    OutcomesReached(trace);
    var w := Reached(trace);
    assert CallOutcome(w.calls[t], w.calls[t].e in LostCommits(trace));
  }

  // ----- the trail of registrations -----

  function RowsFor(registered: seq<Registered>, modelRun: Id): nat {
    if registered == [] then 0
    else
      RowsFor(registered[..|registered| - 1], modelRun)
      + (if registered[|registered| - 1].modelRun == modelRun then 1 else 0)
  }

  /** Each model run has as many registration events as registered rows. */
  ghost predicate Trail(w: World) {
    forall m :: Count(w.audit, ModelRegistered(m)) == RowsFor(w.registered, m)
  }

  /** A step writes no event, one of another kind, or a registered row together with its event. */
  ghost predicate Notes(w: World, w': World) {
    || (w'.registered == w.registered && w'.audit == w.audit)
    || (exists v: Event :: !v.ModelRegistered? && w'.registered == w.registered && w'.audit == w.audit + [v])
    || (exists r: Registered ::
          w'.registered == w.registered + [r] && w'.audit == w.audit + [ModelRegistered(r.modelRun)])
  }

  lemma ContinueNotes(w: World, t: Tid, s: Step)
    requires t in w.calls
    ensures Notes(w, Continue(w, t, w.calls[t], s))
  {
  }

  lemma StepNotes(w: World, t: Tid, s: Step)
    ensures Notes(w, Apply(w, t, s))
  {
    hide Continue, Notes;
    if !s.Create? && !s.Enter? && !s.ReadRow? && !s.Crash? && t in w.calls {
      ContinueNotes(w, t, s);
    } else {
      OtherNotes(w, t, s);
    }
  }

  lemma OtherNotes(w: World, t: Tid, s: Step)
    requires s.Create? || s.Enter? || s.ReadRow? || s.Crash? || t !in w.calls
    ensures Notes(w, Apply(w, t, s))
  {
    hide Continue;
  }

  lemma TrailOn(w: World, turn: Turn)
    requires Trail(w)
    ensures Trail(Apply(w, turn.t, turn.step))
  {
    hide Apply;
    StepNotes(w, turn.t, turn.step);
  }

  /** Over every run, registrations and their audit events come in equal numbers, model run by model run. */
  lemma {:induction false} RegistrationsAreAudited(trace: seq<Turn>, modelRun: Id)
    ensures Count(Reached(trace).audit, ModelRegistered(modelRun)) == RowsFor(Reached(trace).registered, modelRun)
  {
    hide Apply, Count, RowsFor, Trail;
    TrailReached(trace);
    TrailAt(Reached(trace), modelRun);
  }

  lemma TrailAt(w: World, m: Id)
    requires Trail(w)
    ensures Count(w.audit, ModelRegistered(m)) == RowsFor(w.registered, m)
  {
  }

  lemma {:induction false} TrailReached(trace: seq<Turn>)
    ensures Trail(Reached(trace))
  {
    hide Apply;
    if trace != [] {
      TrailReached(trace[..|trace| - 1]);
      TrailOn(Reached(trace[..|trace| - 1]), trace[|trace| - 1]);
    }
  }

  // ----- overlapping registrations of one run -----

  /** The steps of a registration up to its transaction, taken with nobody else stepping in between. */
  ghost function Approach(w: World, t: Tid, modelRun: Id, name: Option<string>): World {
    Apply(Apply(Apply(w, t, ReadRow(modelRun, name)), t, CheckEligible), t, LookForRegistration)
  }

  ghost predicate AlreadyRegistered(w: World, modelRun: Id) {
    exists r :: r in w.registered && r.modelRun == modelRun
  }

  /** A requested name counts unless it is empty; the run's model name stands in for it. */
  function NameGiven(name: Option<string>, row: ModelRun): string {
    match name
    case None => row.model
    case Some(text) => if text == "" then row.model else text
  }

  /** Whether a registration call gets to its transaction is decided when it looks for an existing row. */
  lemma ApproachEffect(w: World, t: Tid, modelRun: Id, name: Option<string>)
    requires t !in w.calls && modelRun in w.modelRuns && Eligible(w.experiments, w.modelRuns[modelRun])
    ensures var row := w.modelRuns[modelRun];
      Approach(w, t, modelRun, name) ==
      if AlreadyRegistered(w, modelRun) then w
      else w.(calls := w.calls[t := Registering(modelRun, row, NameGiven(name, row), Unregistered)])
  {
    hide Eligible;
    var row := w.modelRuns[modelRun];
    var given := NameGiven(name, row);
    var w1 := Apply(w, t, ReadRow(modelRun, name));
    assert w1 == w.(calls := w.calls[t := Registering(modelRun, row, given, RowRead)]);
    var w2 := Apply(w1, t, CheckEligible);
    assert w2 == w.(calls := w.calls[t := Registering(modelRun, row, given, EligibleRun)]);
    assert Apply(w2, t, LookForRegistration) == DoLookForRegistration(w2, t, w2.calls[t]);
    assert w2.calls - {t} == w.calls;
  }

  lemma CommitEffect(w: World, t: Tid, modelRun: Id, row: ModelRun, name: string)
    requires t in w.calls && w.calls[t] == Registering(modelRun, row, name, Unregistered)
    ensures var w' := Apply(w, t, CommitRegistration(true));
      && w'.registered == w.registered + [Registered(modelRun, row.experiment, name)]
      && w'.calls == w.calls - {t} && w'.experiments == w.experiments && w'.modelRuns == w.modelRuns
  {
  }

  /**
   Two registrations of one eligible run: if both look before either commits, both insert a row, each under the name it
   asked for; if the second looks only after the first has committed, it inserts none.
   */
  lemma OverlappingRegistrationsInsertTwice(w: World, t: Tid, u: Tid, modelRun: Id, name: Option<string>,
                                            other: Option<string>)
    requires t != u && t !in w.calls && u !in w.calls && modelRun in w.modelRuns
    requires Eligible(w.experiments, w.modelRuns[modelRun]) && !AlreadyRegistered(w, modelRun)
    ensures var run := w.modelRuns[modelRun];
      var row := Registered(modelRun, run.experiment, NameGiven(name, run));
      var extra := Registered(modelRun, run.experiment, NameGiven(other, run));
      var both := Approach(Approach(w, t, modelRun, name), u, modelRun, other);
      Apply(Apply(both, t, CommitRegistration(true)), u, CommitRegistration(true)).registered ==
      w.registered + [row, extra]
    ensures var run := w.modelRuns[modelRun];
      var row := Registered(modelRun, run.experiment, NameGiven(name, run));
      var first := Apply(Approach(w, t, modelRun, name), t, CommitRegistration(true));
      first.registered == w.registered + [row] && Approach(first, u, modelRun, other) == first
  {
    hide Approach, Apply, Eligible, NameGiven;
    var run := w.modelRuns[modelRun];
    var row := Registered(modelRun, run.experiment, NameGiven(name, run));
    var extra := Registered(modelRun, run.experiment, NameGiven(other, run));
    ApproachEffect(w, t, modelRun, name);
    var one := Approach(w, t, modelRun, name);
    ApproachEffect(one, u, modelRun, other);
    var both := Approach(one, u, modelRun, other);
    CommitEffect(both, t, modelRun, run, NameGiven(name, run));
    CommitEffect(Apply(both, t, CommitRegistration(true)), u, modelRun, run, NameGiven(other, run));
    assert w.registered + [row] + [extra] == w.registered + [row, extra];
    CommitEffect(one, t, modelRun, run, NameGiven(name, run));
    var first := Apply(one, t, CommitRegistration(true));
    assert first.calls == w.calls;
    assert first.registered[|w.registered|] == row;
    ApproachEffect(first, u, modelRun, other);
  }

  /** A world in which that applies is reached: one succeeded experiment, its run not yet registered. */
  lemma EligibleRunIsReached() returns (trace: seq<Turn>)
    ensures var w := Reached(trace);
      && w.calls == map[] && "row" in w.modelRuns && Eligible(w.experiments, w.modelRuns["row"])
      && !AlreadyRegistered(w, "row") && w.modelRuns["row"].model == "rf"
    ensures forall turn :: turn in trace ==> !turn.step.CommitRegistration?
  {
    var before := PackagingIsReached();
    hide Run, Apply;
    var w := Reached(before);
    var packed := before + [Turn(0, Package(true))];
    RunOn(EMPTY, before, Turn(0, Package(true)));
    Acts(w, 0, Package(true));
    var w1 := Reached(packed);
    trace := packed + [Turn(0, Commit(true))];
    RunOn(EMPTY, packed, Turn(0, Commit(true)));
    Acts(w1, 0, Commit(true));
    assert w1.calls.Keys - {0} == {};
  }
}
