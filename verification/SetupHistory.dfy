/** Whole setups, one after another: each settles what the one before left and then applies its own request. */
module SetupHistory {
  import opened Wrappers
  import opened SetupMachine
  import opened SetupClearance
  import opened SetupInvariant
  import opened SetupBounds
  import opened SetupApply
  import opened SetupPrediction

  datatype Request = StaticMode(restore: bool) | ApiMode(api: ApiRequest)

  /** `apply_setup_request`: a choice of key is checked before anything stops, unless a record is there to
      be recovered first, and again afterwards. */
  function ApplySetup(m: Machine, request: Request): Flow {
    var recovering := m.disk.journal.Some?;
    if !recovering && !MayApply(m.disk, request, false) then Raised(m)
    else
      var m :- Attempt(m);
      var m :- Recover(m);
      if !ArtifactsClear(m.disk) then AskInspection(m)
      else if !MayApply(m.disk, request, recovering) then Raised(m)
      else
        match request
        case ApiMode(api) => ApplyApi(m, api.(allowMatching := recovering))
        case StaticMode(restore) => ApplyStatic(m, restore)
  }

  predicate MayApply(disk: Disk, request: Request, allowMatching: bool) {
    request.ApiMode? ==>
      PrecheckPasses(disk, request.api.supplied, request.api.replace, allowMatching)
  }

  datatype Invocation = Invocation(request: Request, choices: seq<Choice>)

  /** Any number of setups, each completed, failed or cut anywhere. */
  function History(m: Machine, invocations: seq<Invocation>): Machine
    decreases |invocations|
  {
    if invocations == [] then m
    else History(ApplySetup(m.(choices := invocations[0].choices), invocations[0].request).m, invocations[1..])
  }

  /** What some transaction can have left. */
  ghost predicate LeftBySome(d: Disk) {
    exists p :: WellPlanned(p) && Kept(p, d)
  }

  /** The request is what the files now say. */
  predicate InForce(request: Request, d: Disk) {
    match request
    case StaticMode(restore) =>
      d.config.source.Static? && (restore ==> d.profile == d.preManaged)
    case ApiMode(api) =>
      && d.config.source.Api? && d.config.device == api.device && d.config.countries == api.countries
      && d.profile.Some? && d.credential.Some?
      && (api.supplied.Some? ==> d.credential == api.supplied)
  }

  /** One invocation: what it starts from and what it leaves. */
  ghost predicate Continues(m: Machine, f: Flow) {
    && LeftBySome(f.m.disk)
    && (Inspection in f.m.notes ==> Inspection in m.notes)
    && f.m.disk.config.rest == m.disk.config.rest
  }

  lemma RestIsKept(p: Plan, d: Disk)
    requires WellPlanned(p) && Kept(p, d)
    ensures d.config.rest == p.before.config.rest
  {
  }

  /** A transaction begun on a clear disk leaves what a transaction can leave. */
  lemma BegunContinues(p: Plan, m: Machine, f: Flow)
    requires WellPlanned(p) && p.before == m.disk && Keeps(p, m, f)
    ensures Continues(m, f)
  {
    RestIsKept(p, f.m.disk);
    hide Kept, WellPlanned;
  }

  lemma ClearIsLeftBySome(d: Disk)
    requires ArtifactsClear(d)
    ensures LeftBySome(d)
  {
    var p := PlanStatic(false, d);
    PlansAreWellFormed(ApiRequest("", "", None, false, false, ""), false, d);
    assert p.before == d;
    BeforeIsKept(p);
    hide Kept, WellPlanned, PlanStatic;
  }

  lemma AttemptContinues(m: Machine)
    requires LeftBySome(m.disk)
    ensures Continues(m, Attempt(m))
  {
    var p :| WellPlanned(p) && Kept(p, m.disk);
    KeptAlike(p, m.disk, Attempt(m).m.disk);
    hide Kept, WellPlanned;
  }

  lemma RecoverContinues(m: Machine)
    requires LeftBySome(m.disk)
    ensures Continues(m, Recover(m))
  {
    var p :| WellPlanned(p) && Kept(p, m.disk);
    RecoverKeepsBounds(p, m);
    RestIsKept(p, m.disk);
    RestIsKept(p, Recover(m).m.disk);
    hide Kept, WellPlanned, Recover;
  }

  lemma ApplyContinues(m: Machine, req: ApiRequest, restore: bool)
    requires ArtifactsClear(m.disk)
    ensures Continues(m, ApplyApi(m, req)) && Continues(m, ApplyStatic(m, restore))
    ensures ApplyApi(m, req).Go? ==> InForce(ApiMode(req), ApplyApi(m, req).m.disk)
    ensures ApplyStatic(m, restore).Go? ==> InForce(StaticMode(restore), ApplyStatic(m, restore).m.disk)
  {
    ApplyApiContinues(m, req);
    ApplyStaticContinues(m, restore);
    hide ApplyApi, ApplyStatic, InForce, Continues;
  }

  lemma ApplyApiContinues(m: Machine, req: ApiRequest)
    requires ArtifactsClear(m.disk)
    ensures Continues(m, ApplyApi(m, req))
    ensures ApplyApi(m, req).Go? ==> InForce(ApiMode(req), ApplyApi(m, req).m.disk)
  {
    if PlanApi(req, m.disk).Ok? {
      var p := PlanApi(req, m.disk).value;
      PlansAreWellFormed(req, false, m.disk);
      ApplyApiStaysSafe(m, req, p);
      assert p.before == m.disk;
      BegunContinues(p, m, ApplyApi(m, req));
      if ApplyApi(m, req).Go? {
        ActivatedApiIsInForce(p, m.disk, req, ApplyApi(m, req).m.disk);
      }
    } else {
      ClearIsLeftBySome(m.disk);
    }
    hide InForce, Inv, Kept, WellPlanned, IsActivated, ApiForward, Continues, LeftBySome, PlanApi;
  }

  lemma ActivatedApiIsInForce(p: Plan, before: Disk, req: ApiRequest, d: Disk)
    requires ArtifactsClear(before) && PlanApi(req, before) == Ok(p) && IsActivated(p, d)
    ensures InForce(ApiMode(req), d)
  {
  }

  lemma ApplyStaticContinues(m: Machine, restore: bool)
    requires ArtifactsClear(m.disk)
    ensures Continues(m, ApplyStatic(m, restore))
    ensures ApplyStatic(m, restore).Go? ==> InForce(StaticMode(restore), ApplyStatic(m, restore).m.disk)
  {
    var p := PlanStatic(restore, m.disk);
    PlansAreWellFormed(ApiRequest("", "", None, false, false, ""), restore, m.disk);
    ApplyStaticStaysSafe(m, restore, p);
    BegunContinues(p, m, ApplyStatic(m, restore));
    hide Inv, Kept, WellPlanned, ApplyStatic, Continues, LeftBySome;
  }

  lemma ContinuesOn(m: Machine, f: Flow, g: Flow)
    requires Continues(m, f) && Continues(f.m, g)
    ensures Continues(m, g)
  {
  }

  /** One setup, whatever it found and however it ends, leaves what some transaction can leave and never asks for
      inspection; completed, its own request is in force and nothing else is left. */
  lemma SetupContinues(m: Machine, request: Request)
    requires LeftBySome(m.disk)
    ensures Continues(m, ApplySetup(m, request))
    ensures var f := ApplySetup(m, request);
            f.Go? ==> ArtifactsClear(f.m.disk) && InForce(request, f.m.disk)
  {
    hide Attempt, Recover, ApplyApi, ApplyStatic, LeftBySome, MayApply;
    AttemptContinues(m);
    var f1 := Attempt(m);
    if f1.Go? {
      RecoverContinues(f1.m);
      var f2 := Recover(f1.m);
      ContinuesOn(m, f1, f2);
      if f2.Go? {
        RecoverClears(f1.m);
        var req := if request.ApiMode? then request.api.(allowMatching := m.disk.journal.Some?)
                   else ApiRequest("", "", None, false, false, "");
        ApplyContinues(f2.m, req, request.StaticMode? && request.restore);
        ApplyClears(f2.m, req, request.StaticMode? && request.restore);
        ContinuesOn(m, f2, ApplyApi(f2.m, req));
        ContinuesOn(m, f2, ApplyStatic(f2.m, request.StaticMode? && request.restore));
      }
    }
  }

  /** So over any history of setups from a clear disk, each failing or cut anywhere: the files are always what one
      transaction can leave, no step ever asks for inspection, and the settings setup does not own never change. */
  lemma {:induction false} HistoriesContinue(m: Machine, invocations: seq<Invocation>)
    requires LeftBySome(m.disk)
    ensures Continues(m, Go(History(m, invocations)))
    decreases |invocations|
  {
    if invocations != [] {
      var n := m.(choices := invocations[0].choices);
      SetupContinues(n, invocations[0].request);
      var f := ApplySetup(n, invocations[0].request);
      HistoriesContinue(f.m, invocations[1..]);
      ContinuesOn(m, f, Go(History(f.m, invocations[1..])));
    }
    hide ApplySetup, LeftBySome;
  }
}
