/** internal/cli/apply.go: waiting for the outcome, the exit class, and the time limits. */
module ApplyResult {
  import opened Domain
  import opened ExitClass
  import opened Plan
  import opened Outcome
  import Observe
  import PlanCheck
  import Replay

  // ---- exit class --------------------------------------------------------------

  function ResourceRaises(k: ResultKind): seq<Exit> {
    match k
    case ActionFailed => [Failed]
    case PermissionDenied => [Failed]
    case TimeoutUnknown => [Uncertain]
    case IdentityChanged => [FreshPlan]
    case _ => []
  }

  function StatusRaises(st: Status): seq<Exit> {
    match st
    case BlockedOriginal => [Failed]
    case BlockedRefused => [Failed]
    case NotVerifiable => [Uncertain]
    case BlockedNewOwner => [FreshPlan]
    case Free => []
  }

  function EndpointRaises(e: ApplyEndpoint): seq<Exit> {
    StatusRaises(e.status) + if e.visibility != Complete then [Uncertain] else []
  }

  function ByResources(rs: seq<ApplyResource>): seq<Exit> {
    if rs == [] then [] else ByResources(rs[..|rs| - 1]) + ResourceRaises(rs[|rs| - 1].result)
  }

  function ByEndpoints(es: seq<ApplyEndpoint>): seq<Exit> {
    if es == [] then [] else ByEndpoints(es[..|es| - 1]) + EndpointRaises(es[|es| - 1])
  }

  function Raised(rs: seq<ApplyResource>, es: seq<ApplyEndpoint>): seq<Exit> {
    ByResources(rs) + ByEndpoints(es)
  }

  lemma {:induction false} ByResourcesMeans(rs: seq<ApplyResource>)
    ensures forall x :: x in ByResources(rs) <==> exists r :: r in rs && x in ResourceRaises(r.result)
  {
    if rs != [] {
      ByResourcesMeans(rs[..|rs| - 1]);
      assert rs == rs[..|rs| - 1] + [rs[|rs| - 1]];
    }
  }

  lemma {:induction false} ByEndpointsMeans(es: seq<ApplyEndpoint>)
    ensures forall x :: x in ByEndpoints(es) <==> exists e :: e in es && x in EndpointRaises(e)
  {
    if es != [] {
      ByEndpointsMeans(es[..|es| - 1]);
      assert es == es[..|es| - 1] + [es[|es| - 1]];
    }
  }

  lemma RaisedBy(rs: seq<ApplyResource>, es: seq<ApplyEndpoint>)
    ensures forall x :: x in Raised(rs, es) <==>
      (exists r :: r in rs && x in ResourceRaises(r.result)) || (exists e :: e in es && x in EndpointRaises(e))
  {
    ByResourcesMeans(rs);
    ByEndpointsMeans(es);
  }

  /** The class depends on which results and endpoints there are, not on their order. */
  lemma ClassIgnoresOrder(a: Exit, rs: seq<ApplyResource>, es: seq<ApplyEndpoint>,
                          b: Exit, rs': seq<ApplyResource>, es': seq<ApplyEndpoint>)
    requires IsWorst(a, Raised(rs, es)) && IsWorst(b, Raised(rs', es'))
    requires (forall r :: r in rs <==> r in rs') && (forall e :: e in es <==> e in es')
    ensures a == b
  {
    RaisedBy(rs, es);
    RaisedBy(rs', es');
    WorstIgnoresOrder(a, b, Raised(rs, es), Raised(rs', es'));
  }

  predicate Harmless(k: ResultKind) {
    k in {NotAttempted, SignalSent, Stopped}
  }

  lemma {:induction false} HarmlessRaiseNothing(rs: seq<ApplyResource>)
    ensures ByResources(rs) == [] <==> forall r | r in rs :: Harmless(r.result)
  {
    if rs != [] {
      HarmlessRaiseNothing(rs[..|rs| - 1]);
      assert rs == rs[..|rs| - 1] + [rs[|rs| - 1]];
    }
  }

  lemma {:induction false} FreeRaiseNothing(es: seq<ApplyEndpoint>)
    ensures ByEndpoints(es) == [] <==> forall e | e in es :: e.status == Free && e.visibility == Complete
  {
    if es != [] {
      FreeRaiseNothing(es[..|es| - 1]);
      assert es == es[..|es| - 1] + [es[|es| - 1]];
    }
  }

  lemma {:induction false} ResourcesRaiseNoOk(rs: seq<ApplyResource>)
    ensures OK !in ByResources(rs)
  {
    if rs != [] { ResourcesRaiseNoOk(rs[..|rs| - 1]); }
  }

  lemma {:induction false} EndpointsRaiseNoOk(es: seq<ApplyEndpoint>)
    ensures OK !in ByEndpoints(es)
  {
    if es != [] { EndpointsRaiseNoOk(es[..|es| - 1]); }
  }

  lemma OkOnlyIfNothing(code: Exit, rs: seq<ApplyResource>, es: seq<ApplyEndpoint>)
    requires IsWorst(code, Raised(rs, es))
    ensures code == OK <==> Raised(rs, es) == []
  {
    ResourcesRaiseNoOk(rs);
    EndpointsRaiseNoOk(es);
    var raised := Raised(rs, es);
    if raised != [] {
      var x := raised[0];
      assert x in raised;
    }
  }

  lemma OkClassExactly(code: Exit, rs: seq<ApplyResource>, es: seq<ApplyEndpoint>)
    requires IsWorst(code, Raised(rs, es))
    ensures code == OK <==>
      (forall r | r in rs :: Harmless(r.result)) && (forall e | e in es :: e.status == Free && e.visibility == Complete)
  {
    HarmlessRaiseNothing(rs);
    FreeRaiseNothing(es);
    assert Raised(rs, es) == [] <==> ByResources(rs) == [] && ByEndpoints(es) == [];
    OkOnlyIfNothing(code, rs, es);
  }

  /** Raises every class of a short list in turn. */
  function WorseAll(code: Exit, xs: seq<Exit>): Exit
    decreases xs
  {
    if xs == [] then code else WorseAll(Worse(code, xs[0]), xs[1..])
  }

  lemma {:induction false} WorstSteps(code: Exit, raised: seq<Exit>, xs: seq<Exit>)
    requires IsWorst(code, raised)
    ensures IsWorst(WorseAll(code, xs), raised + xs)
    decreases xs
  {
    if xs != [] {
      WorstStep(code, raised, xs[0]);
      WorstSteps(Worse(code, xs[0]), raised + [xs[0]], xs[1..]);
      assert raised + xs == raised + [xs[0]] + xs[1..];
    }
  }

  lemma ByResourcesStep(rs: seq<ApplyResource>, i: nat)
    requires i < |rs|
    ensures ByResources(rs[..i + 1]) == ByResources(rs[..i]) + ResourceRaises(rs[i].result)
  {
    assert rs[..i + 1][..i] == rs[..i];
  }

  lemma ByEndpointsStep(es: seq<ApplyEndpoint>, i: nat)
    requires i < |es|
    ensures ByEndpoints(es[..i + 1]) == ByEndpoints(es[..i]) + EndpointRaises(es[i])
  {
    assert es[..i + 1][..i] == es[..i];
  }

  method ClassOfResources(rs: seq<ApplyResource>) returns (code: Exit)
    ensures IsWorst(code, ByResources(rs))
  {
    code := OK;
    for i := 0 to |rs|
      invariant IsWorst(code, ByResources(rs[..i]))
    {
      ByResourcesStep(rs, i);
      WorstSteps(code, ByResources(rs[..i]), ResourceRaises(rs[i].result));
      code := WorseAll(code, ResourceRaises(rs[i].result));
    }
    assert rs[..|rs|] == rs;
  }

  method ApplyClass(rs: seq<ApplyResource>, es: seq<ApplyEndpoint>) returns (code: Exit)
    ensures IsWorst(code, Raised(rs, es))
  {
    code := ClassOfResources(rs);
    ghost var raised := ByResources(rs);
    assert raised + ByEndpoints(es[..0]) == raised;
    for i := 0 to |es|
      invariant IsWorst(code, raised + ByEndpoints(es[..i]))
    {
      ByEndpointsStep(es, i);
      WorstSteps(code, raised + ByEndpoints(es[..i]), EndpointRaises(es[i]));
      code := WorseAll(code, EndpointRaises(es[i]));
      assert raised + ByEndpoints(es[..i + 1]) == raised + ByEndpoints(es[..i]) + EndpointRaises(es[i]);
    }
    assert es[..|es|] == es;
  }

  // ---- what the class says -----------------------------------------------------------

  predicate Fails(rs: seq<ApplyResource>, es: seq<ApplyEndpoint>) {
    || (exists r :: r in rs && r.result in {ActionFailed, PermissionDenied})
    || (exists e :: e in es && e.status in {BlockedOriginal, BlockedRefused})
  }

  predicate Doubtful(rs: seq<ApplyResource>, es: seq<ApplyEndpoint>) {
    || (exists r :: r in rs && r.result == TimeoutUnknown)
    || (exists e :: e in es && (e.status == NotVerifiable || e.visibility != Complete))
  }

  predicate Outdated(rs: seq<ApplyResource>, es: seq<ApplyEndpoint>) {
    || (exists r :: r in rs && r.result == IdentityChanged)
    || (exists e :: e in es && e.status == BlockedNewOwner)
  }

  lemma ResourceRaisesMeans(k: ResultKind)
    ensures Failed in ResourceRaises(k) <==> k in {ActionFailed, PermissionDenied}
    ensures Uncertain in ResourceRaises(k) <==> k == TimeoutUnknown
    ensures FreshPlan in ResourceRaises(k) <==> k == IdentityChanged
    ensures forall x | x in ResourceRaises(k) :: x in {Failed, Uncertain, FreshPlan}
  {
  }

  lemma EndpointRaisesMeans(e: ApplyEndpoint)
    ensures Failed in EndpointRaises(e) <==> e.status in {BlockedOriginal, BlockedRefused}
    ensures Uncertain in EndpointRaises(e) <==> e.status == NotVerifiable || e.visibility != Complete
    ensures FreshPlan in EndpointRaises(e) <==> e.status == BlockedNewOwner
    ensures forall x | x in EndpointRaises(e) :: x in {Failed, Uncertain, FreshPlan}
  {
  }

  lemma RaisedMeans(rs: seq<ApplyResource>, es: seq<ApplyEndpoint>)
    ensures Failed in Raised(rs, es) <==> Fails(rs, es)
    ensures Uncertain in Raised(rs, es) <==> Doubtful(rs, es)
    ensures FreshPlan in Raised(rs, es) <==> Outdated(rs, es)
    ensures forall x | x in Raised(rs, es) :: x in {Failed, Uncertain, FreshPlan}
  {
    RaisedBy(rs, es);
    forall r | r in rs { ResourceRaisesMeans(r.result); }
    forall e | e in es { EndpointRaisesMeans(e); }
  }

  /** The class of an apply, as documented: failed before uncertain before a fresh
      plan before ok. */
  ghost predicate ClassFits(code: Exit, rs: seq<ApplyResource>, es: seq<ApplyEndpoint>) {
    && (code == Failed <==> Fails(rs, es))
    && (code == Uncertain <==> Doubtful(rs, es) && !Fails(rs, es))
    && (code == FreshPlan <==> Outdated(rs, es) && !Fails(rs, es) && !Doubtful(rs, es))
    && (code == OK <==> !Fails(rs, es) && !Doubtful(rs, es) && !Outdated(rs, es))
  }

  lemma WorstFits(code: Exit, rs: seq<ApplyResource>, es: seq<ApplyEndpoint>)
    requires IsWorst(code, Raised(rs, es))
    ensures ClassFits(code, rs, es) && code != Usage
  {
    RaisedMeans(rs, es);
    PrecedenceMeans(code, Raised(rs, es));
  }

  // ---- polling -------------------------------------------------------------------

  const POLL: int := 200_000_000

  predicate AllFree(es: seq<ApplyEndpoint>) {
    forall i | 0 <= i < |es| :: es[i].status == Free
  }

  /** What the k-th pass of the polling loop meets: whether the context was done
      when it began, the observation it made, the clock when it decided. */
  datatype Watch = Watch(start: int, cancelled: nat -> bool, observed: nat -> Snapshot, now: nat -> int)

  /** Cancellation is final, and an uncancelled sleep lasts the poll interval. */
  ghost predicate Plausible(w: Watch) {
    && w.start <= w.now(0)
    && (forall k: nat :: Observe.Collected(w.observed(k)))
    && (forall k: nat :: w.cancelled(k) ==> w.cancelled(k + 1))
    && (forall k: nat :: w.now(k + 1) >= w.now(k) + (if w.cancelled(k + 1) then 0 else POLL))
  }

  ghost function Seen(sys: Sys, doc: PlanDoc, results: seq<ResultKind>, w: Watch, k: nat): seq<ApplyEndpoint> {
    Reports(sys, doc, results, w.observed(k), |doc.request.ports|)
  }

  /** The k-th pass ends the loop: everything is free, there is nothing to wait
      for, the apply was cancelled before the pass, or the grace period is over. */
  ghost predicate Settles(sys: Sys, doc: PlanDoc, results: seq<ResultKind>, wait: bool, w: Watch, k: nat) {
    AllFree(Seen(sys, doc, results, w, k)) || !wait || w.cancelled(k) ||
      w.now(k) >= w.start + doc.request.grace * SECOND
  }

  /** Some port is not free at the k-th pass, and there is still time. */
  ghost predicate Unsettled(sys: Sys, doc: PlanDoc, results: seq<ResultKind>, w: Watch, k: nat) {
    && !AllFree(Seen(sys, doc, results, w, k))
    && !w.cancelled(k) && w.now(k) < w.start + doc.request.grace * SECOND
  }

  lemma SettlesMeans(sys: Sys, doc: PlanDoc, results: seq<ResultKind>, wait: bool, w: Watch, k: nat)
    ensures Settles(sys, doc, results, wait, w, k) <==> !wait || !Unsettled(sys, doc, results, w, k)
  {
  }

  method ObserveOnce(sys: Sys, doc: PlanDoc, results: seq<ResultKind>, wait: bool, w: Watch, deadline: int, k: nat)
    returns (snap: Snapshot, statuses: seq<ApplyEndpoint>, done: bool)
    requires Plausible(w) && deadline == w.start + doc.request.grace * SECOND
    ensures snap == w.observed(k) && statuses == Seen(sys, doc, results, w, k)
    ensures done <==> Settles(sys, doc, results, wait, w, k)
  {
    var interrupted := w.cancelled(k);
    snap := w.observed(k);
    statuses := Classify(sys, doc, results, snap);
    done := AllFree(statuses) || !wait || interrupted || !(w.now(k) < deadline);
  }

  /** Passes that have not ended the loop each took a poll interval, so there are
      at most five of them per second of grace. */
  lemma {:induction false} PassesTakeTime(sys: Sys, doc: PlanDoc, results: seq<ResultKind>, wait: bool, w: Watch,
                                          k: nat)
    requires Plausible(w)
    requires forall j: nat | j < k :: !Settles(sys, doc, results, wait, w, j)
    ensures w.cancelled(k) || w.now(k) >= w.start + k * POLL
  {
    if k > 0 {
      PassesTakeTime(sys, doc, results, wait, w, k - 1);
      assert !Settles(sys, doc, results, wait, w, k - 1);
      assert w.now((k - 1) + 1) >= w.now(k - 1) + (if w.cancelled((k - 1) + 1) then 0 else POLL);
    }
  }

  lemma PassesAreFew(sys: Sys, doc: PlanDoc, results: seq<ResultKind>, wait: bool, w: Watch, k: nat)
    requires Plausible(w) && forall j: nat | j < k :: !Settles(sys, doc, results, wait, w, j)
    ensures k >= 5 * doc.request.grace ==> Settles(sys, doc, results, wait, w, k)
  {
    PassesTakeTime(sys, doc, results, wait, w, k);
  }

  /** observeOutcome returns at the first pass that settles, after at most five
      observations per second of grace and one more, and reports exactly the
      observation it made last. */
  method ObserveOutcome(sys: Sys, doc: PlanDoc, results: seq<ResultKind>, wait: bool, w: Watch)
    returns (snap: Snapshot, statuses: seq<ApplyEndpoint>, observations: nat)
    requires Plausible(w) && doc.request.grace >= 0
    ensures 1 <= observations <= 5 * doc.request.grace + 1
    ensures snap == w.observed(observations - 1)
    ensures statuses == Seen(sys, doc, results, w, observations - 1)
    ensures forall k: nat | k < observations :: Settles(sys, doc, results, wait, w, k) <==> k == observations - 1
    ensures !wait ==> observations == 1
    ensures wait ==> !Unsettled(sys, doc, results, w, observations - 1)
    ensures forall k: nat | k < observations - 1 :: Unsettled(sys, doc, results, w, k)
  {
    var deadline := w.start + doc.request.grace * SECOND;
    observations := 0;
    var done := false;
    snap, statuses := w.observed(0), [];
    while !done
      invariant done ==> observations >= 1 && snap == w.observed(observations - 1)
      invariant done ==> statuses == Seen(sys, doc, results, w, observations - 1)
      invariant forall k: nat | k < observations ::
        Settles(sys, doc, results, wait, w, k) <==> done && k == observations - 1
      invariant observations <= 5 * doc.request.grace + if done then 1 else 0
      decreases 5 * doc.request.grace + 1 - observations, !done
    {
      PassesAreFew(sys, doc, results, wait, w, observations);
      snap, statuses, done := ObserveOnce(sys, doc, results, wait, w, deadline, observations);
      observations := observations + 1;
    }
    SettlesMeans(sys, doc, results, wait, w, observations - 1);
    SettlesMeans(sys, doc, results, wait, w, 0);
    forall k: nat | k < observations - 1 ensures Unsettled(sys, doc, results, w, k) {
      SettlesMeans(sys, doc, results, wait, w, k);
    }
  }

  // ---- the end of applyPlan ---------------------------------------------------------

  function VerifiedGone(r: PlanResource, s: Snapshot, id: Lookup): bool {
    if r.provider == DockerProvider then s.dockerAvail && s.dockerErr.None? && r.containerId !in s.dockerIds
    else if id.err == Some(NotFound) then true
    else if id.err.Some? || id.start == "" then false
    else id.start != r.start
  }

  /** The identity lookup gave an answer: nobody has the PID, or a start token. */
  predicate Answered(id: Lookup) {
    id.err == Some(NotFound) || (id.err.None? && id.start != "")
  }

  /** What "gone" in the result document means: of a container, that Docker was asked
      and does not list it; of a process, that the lookup answered and did not show
      the planned incarnation. On any host for which the lookup is honest, a process
      is reported gone only when it does not run, and always then if it answered. */
  ghost predicate GoneIsTrue(r: PlanResource, s: Snapshot, id: Lookup, gone: bool) {
    if r.provider == DockerProvider then
      gone <==> s.dockerAvail && s.dockerErr.None? && r.containerId !in s.dockerIds
    else
      && (gone <==> Answered(id) && !(id.err.None? && id.start == r.start))
      && (forall h | Replay.HonestLookup(h, r, id) ::
            (gone ==> !Replay.Runs(h, r.pid, r.start)) && (Answered(id) && !gone ==> Replay.Runs(h, r.pid, r.start)))
  }

  lemma VerifiedGoneIsTrue(r: PlanResource, s: Snapshot, id: Lookup)
    ensures GoneIsTrue(r, s, id, VerifiedGone(r, s, id))
  {
  }

  /** A container reported gone holds none of the ports of the final observation. */
  lemma GoneContainerHoldsNothing(sys: Sys, r: PlanResource, s: Snapshot, id: Lookup, port: int)
    requires Observe.Collected(s) && r.provider == DockerProvider && VerifiedGone(r, s, id)
    ensures forall c | c in Observe.Endpoint(sys, s, port).containers :: c.id != r.containerId
  {
    Observe.ContainersOfMembers(s.containers, port);
  }

  datatype ApplyDoc = ApplyDoc(
    executed: nat, resources: seq<ApplyResource>, endpoints: seq<ApplyEndpoint>, interrupted: bool, exitClass: Exit)

  function CountTrue(bs: seq<bool>): nat {
    if bs == [] then 0 else CountTrue(bs[..|bs| - 1]) + if bs[|bs| - 1] then 1 else 0
  }

  predicate Waitable(k: ResultKind) {
    k in {SignalSent, Stopped, TimeoutUnknown}
  }

  method Tally(results: seq<ResultKind>, attempted: seq<bool>) returns (executed: nat, waitable: bool)
    requires |results| == |attempted|
    ensures executed == CountTrue(attempted)
    ensures waitable <==> exists k :: k in results && Waitable(k)
  {
    executed, waitable := 0, false;
    for i := 0 to |results|
      invariant executed == CountTrue(attempted[..i])
      invariant waitable <==> exists j :: 0 <= j < i && Waitable(results[j])
    {
      assert attempted[..i + 1][..i] == attempted[..i];
      if attempted[i] {
        executed := executed + 1;
      }
      if results[i] == SignalSent || results[i] == Stopped || results[i] == TimeoutUnknown {
        waitable := true;
      }
    }
    assert attempted[..|attempted|] == attempted;
  }

  /** One entry of the result document: the action's own result for the resource it
      was planned for, whether it is gone, and whether it was forced. */
  ghost predicate EntryFits(r: PlanResource, k: ResultKind, s: Snapshot, id: Lookup, out: ApplyResource) {
    && out.id == r.id && out.provider == r.provider && out.pid == r.pid && out.containerId == r.containerId
    && out.ports == r.ports && out.result == k
    && (out.forced <==> k == SignalSent && r.signal != Term)
    && GoneIsTrue(r, s, id, out.verifiedGone)
  }

  method FinalResources(doc: PlanDoc, results: seq<ResultKind>, s: Snapshot, lookup: int -> Lookup)
    returns (out: seq<ApplyResource>)
    requires |results| == |doc.resources|
    ensures |out| == |results|
    ensures forall i | 0 <= i < |results| ::
      EntryFits(doc.resources[i], results[i], s, lookup(doc.resources[i].pid), out[i])
    ensures (forall r | r in out :: Harmless(r.result)) <==> forall i | 0 <= i < |results| :: Harmless(results[i])
  {
    out := [];
    for i := 0 to |results|
      invariant |out| == i
      invariant forall k | 0 <= k < i ::
        EntryFits(doc.resources[k], results[k], s, lookup(doc.resources[k].pid), out[k])
    {
      var r, id := doc.resources[i], lookup(doc.resources[i].pid);
      VerifiedGoneIsTrue(r, s, id);
      out := out + [NewResult(r, results[i]).(verifiedGone := VerifiedGone(r, s, id),
                                              forced := results[i] == SignalSent && r.signal != Term)];
    }
    assert forall i | 0 <= i < |results| :: out[i] in out && out[i].result == results[i];
  }

  /** The exit class of a finished apply: an interrupted one is always uncertain. */
  method FinalClass(resources: seq<ApplyResource>, statuses: seq<ApplyEndpoint>, interrupted: bool) returns (code: Exit)
    ensures interrupted ==> code == Uncertain
    ensures !interrupted ==> IsWorst(code, Raised(resources, statuses)) && ClassFits(code, resources, statuses)
    ensures code == OK <==>
      !interrupted && (forall r | r in resources :: Harmless(r.result))
      && (forall e | e in statuses :: e.status == Free && e.visibility == Complete)
  {
    code := ApplyClass(resources, statuses);
    WorstFits(code, resources, statuses);
    OkClassExactly(code, resources, statuses);
    if interrupted {
      code := Uncertain;
    }
  }

  /** From the actions' results to the document and its exit class. cancelled is
      the state of the context after the last observation. */
  method FinishApply(sys: Sys, doc: PlanDoc, results: seq<ResultKind>, attempted: seq<bool>, skipped: bool,
                     cancelled: bool, w: Watch, lookup: int -> Lookup) returns (out: ApplyDoc, observations: nat)
    requires |results| == |attempted| == |doc.resources|
    requires Plausible(w) && doc.request.grace >= 0
    ensures out.executed == CountTrue(attempted)
    ensures |out.resources| == |doc.resources| && 1 <= observations <= 5 * doc.request.grace + 1
    ensures forall i | 0 <= i < |results| ::
      EntryFits(doc.resources[i], results[i], w.observed(observations - 1), lookup(doc.resources[i].pid),
        out.resources[i])
    ensures out.endpoints == Seen(sys, doc, results, w, observations - 1)
    ensures if exists k :: k in results && k in {SignalSent, Stopped, TimeoutUnknown}
      then !Unsettled(sys, doc, results, w, observations - 1) else observations == 1
    ensures out.interrupted <==> cancelled && (skipped || !AllFree(out.endpoints))
    ensures out.interrupted ==> out.exitClass == Uncertain
    ensures !out.interrupted ==> ClassFits(out.exitClass, out.resources, out.endpoints)
    ensures out.exitClass == OK <==>
      !out.interrupted && AllFree(out.endpoints) && forall i | 0 <= i < |results| :: Harmless(results[i])
  {
    var executed, waitable := Tally(results, attempted);
    var snap, statuses, n := ObserveOutcome(sys, doc, results, waitable, w);
    observations := n;
    var interrupted := cancelled && (skipped || !AllFree(statuses));
    var resources := FinalResources(doc, results, snap, lookup);
    var code := FinalClass(resources, statuses, interrupted);
    FreeIsComplete(sys, doc, results, snap, statuses);
    out := ApplyDoc(executed, resources, statuses, interrupted, code);
  }

  lemma {:induction false} ReportsAt(sys: Sys, doc: PlanDoc, results: seq<ResultKind>, s: Snapshot, n: nat, i: nat)
    requires i < n <= |doc.request.ports|
    ensures Reports(sys, doc, results, s, n)[i] == Report(sys, doc, results, s, doc.request.ports[i])
  {
    if i < n - 1 { ReportsAt(sys, doc, results, s, n - 1, i); }
  }

  lemma FreeIsComplete(sys: Sys, doc: PlanDoc, results: seq<ResultKind>, s: Snapshot, es: seq<ApplyEndpoint>)
    requires es == Reports(sys, doc, results, s, |doc.request.ports|)
    ensures AllFree(es) <==> forall e | e in es :: e.status == Free && e.visibility == Complete
  {
    forall i | 0 <= i < |es| ensures es[i].status == Free ==> es[i].visibility == Complete {
      ReportsAt(sys, doc, results, s, |es|, i);
      FreeExactly(sys, doc, results, s, doc.request.ports[i]);
    }
    assert forall i | 0 <= i < |es| :: es[i] in es;
  }

  // ---- time limits --------------------------------------------------------------------

  const TWO_63: int := 0x8000_0000_0000_0000
  const WAVE: int := 90 * SECOND
  const MAX_APPLY: int := 600 * SECOND
  const STOP_MARGIN: int := 20 * SECOND
  const MAX_PLAN_BYTES: int := 16 * 1024 * 1024

  /** A signed 64-bit value wraps around. */
  function Wrap64(x: int): int {
    (x + TWO_63) % (2 * TWO_63) - TWO_63
  }

  function Waves(resources: nat): nat {
    var w := (resources + MAX_CONCURRENT - 1) / MAX_CONCURRENT;
    if w < 1 then 1 else w
  }

  /** One wave at least, and just as many as all resources need. */
  predicate EnoughWaves(resources: nat, waves: nat) {
    waves >= 1 && resources <= waves * MAX_CONCURRENT && (waves > 1 ==> (waves - 1) * MAX_CONCURRENT < resources)
  }

  lemma WavesExactly(resources: nat, waves: nat)
    ensures EnoughWaves(resources, waves) <==> waves == Waves(resources)
  {
  }

  /** applyDeadline in wrapping 64-bit nanoseconds. */
  function Deadline64(resources: nat, grace: int): int {
    var d := Wrap64(Wrap64(grace * SECOND) + Wrap64(Waves(resources) * WAVE));
    if d > MAX_APPLY then MAX_APPLY else d
  }

  function Deadline(resources: nat, grace: int): int {
    var d := grace * SECOND + Waves(resources) * WAVE;
    if d > MAX_APPLY then MAX_APPLY else d
  }

  /** An accepted plan; a resource takes more than one byte of the plan file, so a
      plan that was read has fewer resources than the read limit has bytes. */
  ghost predicate ReadAndAccepted(doc: PlanDoc) {
    PlanCheck.ValidPlan(doc) && |doc.resources| <= MAX_PLAN_BYTES
  }

  /** The time limit of one docker stop, in wrapping 64-bit nanoseconds. */
  function StopLimit64(r: PlanResource): int {
    Wrap64(Wrap64(r.grace * SECOND) + STOP_MARGIN)
  }

  lemma WrapSmall(x: int)
    requires 0 <= x < TWO_63
    ensures Wrap64(x) == x
  {
  }

  lemma WavesFit(waves: nat)
    requires 1 <= waves <= MAX_PLAN_BYTES
    ensures WAVE <= waves * WAVE <= TWO_63 / 2
  {
  }

  lemma DeadlineFits(resources: nat, grace: int)
    requires resources <= MAX_PLAN_BYTES && 0 <= grace <= PlanCheck.MAX_GRACE
    ensures Deadline64(resources, grace) == Deadline(resources, grace)
  {
    var waves := Waves(resources);
    assert 1 <= waves <= MAX_PLAN_BYTES;
    WavesFit(waves);
    WrapSmall(grace * SECOND);
    WrapSmall(waves * WAVE);
    WrapSmall(grace * SECOND + waves * WAVE);
  }

  lemma StopLimitFits(r: PlanResource)
    requires 0 <= r.grace <= PlanCheck.MAX_GRACE
    ensures StopLimit64(r) == r.grace * SECOND + STOP_MARGIN >= STOP_MARGIN
  {
    assert Wrap64(r.grace * SECOND) == r.grace * SECOND;
  }

  /** For every plan that can be read and is accepted neither the deadline nor the
      time limit of any docker stop overflows. */
  lemma DeadlineNeverOverflows(doc: PlanDoc)
    requires ReadAndAccepted(doc)
    ensures Deadline64(|doc.resources|, doc.request.grace) == Deadline(|doc.resources|, doc.request.grace)
    ensures forall r | r in doc.resources && r.provider == DockerProvider ::
      StopLimit64(r) == r.grace * SECOND + STOP_MARGIN >= STOP_MARGIN
  {
    DeadlineFits(|doc.resources|, doc.request.grace);
    forall r | r in doc.resources && r.provider == DockerProvider
      ensures StopLimit64(r) == r.grace * SECOND + STOP_MARGIN >= STOP_MARGIN
    {
      assert PlanCheck.ResourceOk(doc, r);
      StopLimitFits(r);
    }
  }

  /** The deadline of an accepted plan is its grace period and 90 seconds for every wave
      of four, where that is not longer than 10 minutes. */
  lemma DeadlineExactly(doc: PlanDoc, waves: nat)
    requires ReadAndAccepted(doc) && EnoughWaves(|doc.resources|, waves)
    ensures
      var needed := doc.request.grace * SECOND + waves * WAVE;
      Deadline64(|doc.resources|, doc.request.grace) == if needed > MAX_APPLY then MAX_APPLY else needed
  {
    WavesExactly(|doc.resources|, waves);
    DeadlineNeverOverflows(doc);
  }

  /** The deadline of an accepted plan lies between 90 seconds and 10 minutes, and
      it grows with the number of resources and with the grace period. */
  lemma DeadlineIsSound(doc: PlanDoc, more: PlanDoc)
    requires ReadAndAccepted(doc) && ReadAndAccepted(more)
    requires |doc.resources| <= |more.resources| && doc.request.grace <= more.request.grace
    ensures WAVE <= Deadline64(|doc.resources|, doc.request.grace)
            <= Deadline64(|more.resources|, more.request.grace) <= MAX_APPLY
  {
    DeadlineNeverOverflows(doc);
    DeadlineNeverOverflows(more);
    assert 1 <= Waves(|doc.resources|) <= Waves(|more.resources|);
  }
}
