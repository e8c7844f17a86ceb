/** internal/cli/kill.go: carrying out the acts of the classic kill. */
module KillExecute {
  import opened Domain
  import opened Sorting
  import opened KillRows
  import opened Scheduler

  /** How the outside world answers each kind of call. */
  datatype World = World(signal: int -> SignalAnswer, kill: int -> SignalAnswer, stop: string -> bool)

  /** A mutating call that was issued. */
  datatype Call = SignalIfSame(pid: int, start: string) | UncheckedKill(pid: int) | StopContainer(cid: string)

  function ErrorOf(w: World, t: Target, c: Capture): Option<RowReason> {
    match t
    case Ctr(cid) => if w.stop(cid) then None else Some(ActionFailed(false))
    case Process(pid) =>
      match c
      case Gone => None
      case Started(_) =>
        (match w.signal(pid)
         case Delivered => None
         case Changed => Some(ActionFailed(true))
         case NoProcess => None
         case AlreadyDone => None
         case NotPermitted => Some(ActionFailed(false))
         case SignalError => Some(ActionFailed(false)))
      case NoIdentity => if w.kill(pid) in {Delivered, AlreadyDone} then None else Some(ActionFailed(false))
      case Unverified => Some(ActionFailed(false))
  }

  function CallOf(t: Target, c: Capture): seq<Call> {
    match t
    case Ctr(cid) => [StopContainer(cid)]
    case Process(pid) =>
      match c
      case Started(start) => [SignalIfSame(pid, start)]
      case NoIdentity => [UncheckedKill(pid)]
      case Gone => []
      case Unverified => []
  }

  /** The calls of the acts in the order their goroutines came to make them. */
  function CallsIn(acts: seq<Act>, order: seq<nat>): seq<Call>
    requires InRange(order, |acts|)
  {
    if order == [] then [] else
      var i := order[|order| - 1];
      CallsIn(acts, order[..|order| - 1]) + CallOf(acts[i].target, acts[i].captured)
  }

  predicate InRange(order: seq<nat>, n: nat) {
    forall j | 0 <= j < |order| :: order[j] < n
  }

  /** Every act once, in some order. */
  ghost predicate EveryOnce(order: seq<nat>, n: nat) {
    InRange(order, n) && NoDuplicates(order) && |order| == n && forall i: nat | i < n :: i in order
  }

  function TargetOf(c: Call): Target {
    match c
    case SignalIfSame(pid, _) => Process(pid)
    case UncheckedKill(pid) => Process(pid)
    case StopContainer(cid) => Ctr(cid)
  }

  ghost predicate OneTargetEach(acts: seq<Act>) {
    forall i, j | 0 <= i < j < |acts| :: acts[i].target != acts[j].target
  }

  ghost predicate CalledFor(c: Call, acts: seq<Act>, order: seq<nat>)
    requires InRange(order, |acts|)
  {
    exists j :: 0 <= j < |order| && TargetOf(c) == acts[order[j]].target &&
      CallOf(acts[order[j]].target, acts[order[j]].captured) == [c]
  }

  /** However many rows share a process or a container, and in whatever order the
      goroutines run, at most one call is made for it: the one its act prescribes. */
  lemma {:induction false} OneCallEach(acts: seq<Act>, order: seq<nat>)
    requires InRange(order, |acts|) && NoDuplicates(order) && OneTargetEach(acts)
    ensures
      var calls := CallsIn(acts, order);
      && (forall c | c in calls :: CalledFor(c, acts, order))
      && DifferentTargets(calls)
  {
    if order != [] {
      var u, i := order[..|order| - 1], order[|order| - 1];
      OneCallEach(acts, u);
      var before, more := CallsIn(acts, u), CallOf(acts[i].target, acts[i].captured);
      forall c | c in before + more ensures CalledFor(c, acts, order) {
        if c in more {
          assert more == [c] && TargetOf(c) == acts[order[|u|]].target;
        } else {
          EarlierCall(acts, order, c);
        }
      }
      forall c, d | c in before && d in more ensures TargetOf(c) != TargetOf(d) {
        var j :| 0 <= j < |u| && TargetOf(c) == acts[u[j]].target;
        assert order[j] == u[j] && order[j] != i;
        assert more == [d] && TargetOf(d) == acts[i].target;
      }
      AppendCall(before, more);
    }
  }

  lemma EarlierCall(acts: seq<Act>, order: seq<nat>, c: Call)
    requires order != [] && InRange(order, |acts|) && CalledFor(c, acts, order[..|order| - 1])
    ensures CalledFor(c, acts, order)
  {
    var u := order[..|order| - 1];
    var j :| 0 <= j < |u| && TargetOf(c) == acts[u[j]].target && CallOf(acts[u[j]].target, acts[u[j]].captured) == [c];
    assert order[j] == u[j];
  }

  ghost predicate DifferentTargets(calls: seq<Call>) {
    forall i, j | 0 <= i < j < |calls| :: TargetOf(calls[i]) != TargetOf(calls[j])
  }

  lemma AppendCall(before: seq<Call>, more: seq<Call>)
    requires DifferentTargets(before) && |more| <= 1
    requires forall c, d | c in before && d in more :: TargetOf(c) != TargetOf(d)
    ensures DifferentTargets(before + more)
  {
    forall i, j | 0 <= i < j < |before + more| ensures TargetOf((before + more)[i]) != TargetOf((before + more)[j]) {
      var x, y := (before + more)[i], (before + more)[j];
      assert x == before[i] && x in before;
      if j >= |before| { assert y == more[0] && y in more; } else { assert y == before[j]; }
    }
  }

  /** killNative: the error, if any, and the calls it took. */
  method KillNative(a: Act, w: World) returns (err: Option<RowReason>, calls: seq<Call>)
    requires a.target.Process?
    ensures err == ErrorOf(w, a.target, a.captured) && calls == CallOf(a.target, a.captured)
  {
    var pid := a.target.pid;
    err, calls := None, [];
    match a.captured
    case Gone =>
    case Started(start) =>
      calls := [SignalIfSame(pid, start)];
      match w.signal(pid) {
        case Delivered =>
        case NoProcess =>
        case AlreadyDone =>
        case Changed => err := Some(ActionFailed(true));
        case NotPermitted => err := Some(ActionFailed(false));
        case SignalError => err := Some(ActionFailed(false));
      }
    case NoIdentity =>
      calls := [UncheckedKill(pid)];
      if w.kill(pid) != Delivered && w.kill(pid) != AlreadyDone {
        err := Some(ActionFailed(false));
      }
    case Unverified =>
      err := Some(ActionFailed(false));
  }

  ghost predicate DistinctActs(acts: seq<Act>) {
    forall i, j | 0 <= i < j < |acts| :: acts[i] != acts[j]
  }

  /** What one act leaves in its error field. */
  function ErrorAfter(w: World, a: Act, before: Option<RowReason>): Option<RowReason> {
    var err := ErrorOf(w, a.target, a.captured);
    if err.Some? then err else before
  }

  /** The body of one goroutine. */
  method Carry(a: Act, w: World) returns (calls: seq<Call>)
    modifies a
    ensures calls == CallOf(a.target, a.captured) && a.err == ErrorAfter(w, a, old(a.err))
  {
    match a.target
    case Process(_) =>
      var err, issued := KillNative(a, w);
      calls := issued;
      if err.Some? {
        a.err := err;
      }
    case Ctr(cid) =>
      calls := [StopContainer(cid)];
      if !w.stop(cid) {
        a.err := Some(ActionFailed(false));
      }
  }

  /** The first next acts have been started: those in order have made their calls,
      the others are still running. */
  ghost predicate InFlight(order: seq<nat>, running: set<nat>, next: nat) {
    && NoDuplicates(order) && InRange(order, next) && |order| + |running| == next && |running| <= MAX_CONCURRENT
    && forall i: nat :: i in running <==> i < next && i !in order
  }

  lemma StartOne(order: seq<nat>, running: set<nat>, next: nat)
    requires InFlight(order, running, next) && |running| < MAX_CONCURRENT
    ensures next !in order && InFlight(order, running + {next}, next + 1)
  {
    assert next !in order && next !in running;
  }

  lemma EndOne(order: seq<nat>, running: set<nat>, next: nat, i: nat)
    requires InFlight(order, running, next) && i in running
    ensures i < next && i !in order && InFlight(order + [i], running - {i}, next)
  {
    var after := order + [i];
    assert forall j | 0 <= j < |order| :: after[j] == order[j] && order[j] in order;
    forall k: nat ensures k in running - {i} <==> k < next && k !in after {
      assert k in after <==> k in order || k == i;
    }
  }

  lemma AllEnded(order: seq<nat>, next: nat)
    requires InFlight(order, {}, next)
    ensures EveryOnce(order, next)
  {
    forall i: nat | i < next ensures i in order { assert i !in {}; }
  }

  /** The acts in order have their final errors, the others still their first. */
  ghost predicate Errors(acts: seq<Act>, w: World, first: seq<Option<RowReason>>, order: seq<nat>)
    reads acts
  {
    && |first| == |acts|
    && forall i | 0 <= i < |acts| :: acts[i].err == if i in order then ErrorAfter(w, acts[i], first[i]) else first[i]
  }

  method CarryNext(acts: seq<Act>, i: nat, w: World, ghost first: seq<Option<RowReason>>, ghost order: seq<nat>)
    returns (calls: seq<Call>)
    requires DistinctActs(acts) && i < |acts| && i !in order && InRange(order, |acts|) && Errors(acts, w, first, order)
    modifies acts[i]
    ensures InRange(order + [i], |acts|) && CallsIn(acts, order + [i]) == CallsIn(acts, order) + calls
    ensures Errors(acts, w, first, order + [i])
  {
    calls := Carry(acts[i], w);
    assert (order + [i])[..|order|] == order;
  }

  /** Goroutines are started in list order while one of the slots is free, and
      those that run make their calls in any order: the choices below are
      arbitrary, so this covers every schedule. Every act is carried out once and
      keeps its own error; a dry run does nothing. */
  method Execute(acts: seq<Act>, w: World, dryRun: bool)
    returns (calls: seq<Call>, ghost order: seq<nat>, ghost peak: nat)
    requires DistinctActs(acts)
    modifies acts
    ensures peak <= MAX_CONCURRENT
    ensures dryRun ==> calls == [] && forall i | 0 <= i < |acts| :: acts[i].err == old(acts[i].err)
    ensures !dryRun ==> EveryOnce(order, |acts|) && calls == CallsIn(acts, order)
    ensures !dryRun ==> forall i | 0 <= i < |acts| :: acts[i].err == ErrorAfter(w, acts[i], old(acts[i].err))
  {
    calls, order, peak := [], [], 0;
    if dryRun {
      return;
    }
    ghost var first := seq(|acts|, i requires 0 <= i < |acts| reads acts => acts[i].err);
    var next: nat, running: set<nat> := 0, {};
    while next < |acts| || running != {}
      invariant next <= |acts| && InFlight(order, running, next) && peak <= MAX_CONCURRENT
      invariant calls == CallsIn(acts, order) && Errors(acts, w, first, order)
      decreases |acts| - next, |running|
    {
      var turn: bool := *;
      if next < |acts| && |running| < MAX_CONCURRENT && (running == {} || turn) {
        StartOne(order, running, next);
        running, next := running + {next}, next + 1;
        peak := if peak < |running| then |running| else peak;
      } else {
        var i :| i in running;
        EndOne(order, running, next, i);
        var issued := CarryNext(acts, i, w, first, order);
        calls, order, running := calls + issued, order + [i], running - {i};
      }
    }
    AllEnded(order, next);
  }

  // ---- the calls and errors, in terms of the lookups --------------------------------------

  /** Every act carries what the lookup of its PID gave, and that was an answer. */
  ghost predicate Captured(acts: seq<Act>, lookup: int -> Lookup) {
    forall a | a in acts && a.target.Process? :: a.captured == Capturing(lookup(a.target.pid)) != Unverified
  }

  ghost predicate Targeted(acts: seq<Act>, t: Target) {
    exists i :: 0 <= i < |acts| && acts[i].target == t
  }

  /** The calls: for a targeted process one that checks the start token that was read, an
      unchecked kill where the platform has no identities, and none if it was gone; for a
      targeted container a stop. */
  ghost predicate CallsFit(calls: seq<Call>, acts: seq<Act>, lookup: int -> Lookup) {
    && (forall pid, st :: SignalIfSame(pid, st) in calls <==> Targeted(acts, Process(pid)) && ReadAs(lookup(pid), st))
    && (forall pid :: UncheckedKill(pid) in calls <==> Targeted(acts, Process(pid)) && WithoutIdentities(lookup(pid)))
    && (forall cid :: StopContainer(cid) in calls <==> Targeted(acts, Ctr(cid)))
  }

  ghost predicate Issues(acts: seq<Act>, c: Call) {
    exists i :: 0 <= i < |acts| && c in CallOf(acts[i].target, acts[i].captured)
  }

  lemma {:induction false} CallsInMembers(acts: seq<Act>, order: seq<nat>, c: Call)
    requires InRange(order, |acts|)
    ensures c in CallsIn(acts, order) <==>
      exists j :: 0 <= j < |order| && c in CallOf(acts[order[j]].target, acts[order[j]].captured)
  {
    if order != [] {
      var u := order[..|order| - 1];
      CallsInMembers(acts, u, c);
      assert forall j | 0 <= j < |u| :: u[j] == order[j];
    }
  }

  lemma CallsOfAll(acts: seq<Act>, order: seq<nat>, c: Call)
    requires EveryOnce(order, |acts|)
    ensures c in CallsIn(acts, order) <==> Issues(acts, c)
  {
    CallsInMembers(acts, order, c);
    if i: nat :| i < |acts| && c in CallOf(acts[i].target, acts[i].captured) {
      assert i in order;
      var j :| 0 <= j < |order| && order[j] == i;
    }
  }

  /** What one act issues, from the lookup of its process. */
  lemma CallOfMeans(a: Act, lookup: int -> Lookup, c: Call)
    requires a.target.Process? ==> a.captured == Capturing(lookup(a.target.pid))
    ensures c in CallOf(a.target, a.captured) <==>
      && a.target == TargetOf(c)
      && match c
         case SignalIfSame(pid, st) => ReadAs(lookup(pid), st)
         case UncheckedKill(pid) => WithoutIdentities(lookup(pid))
         case StopContainer(_) => true
  {
    if a.target.Process? { CapturingMeans(lookup(a.target.pid)); }
  }

  lemma IssuedExactly(acts: seq<Act>, lookup: int -> Lookup, c: Call)
    requires Captured(acts, lookup)
    ensures Issues(acts, c) <==>
      && Targeted(acts, TargetOf(c))
      && match c
         case SignalIfSame(pid, st) => ReadAs(lookup(pid), st)
         case UncheckedKill(pid) => WithoutIdentities(lookup(pid))
         case StopContainer(_) => true
  {
    forall i | 0 <= i < |acts| { CallOfMeans(acts[i], lookup, c); }
  }

  /** However the goroutines were scheduled, the calls made are exactly those that the
      lookups and Docker's answer call for. */
  lemma CallsExactly(acts: seq<Act>, order: seq<nat>, lookup: int -> Lookup)
    requires EveryOnce(order, |acts|) && Captured(acts, lookup)
    ensures CallsFit(CallsIn(acts, order), acts, lookup)
  {
    forall c ensures c in CallsIn(acts, order) <==> Issues(acts, c) { CallsOfAll(acts, order, c); }
    forall pid, st { IssuedExactly(acts, lookup, SignalIfSame(pid, st)); }
    forall pid { IssuedExactly(acts, lookup, UncheckedKill(pid)); }
    forall cid { IssuedExactly(acts, lookup, StopContainer(cid)); }
  }

  /** The act did what it was for: its container was stopped; its process was gone at the
      lookup, or the call that its identity allows found it, or found it gone. */
  predicate Succeeds(w: World, lookup: int -> Lookup, t: Target) {
    match t
    case Ctr(cid) => w.stop(cid)
    case Process(pid) =>
      || lookup(pid).err == Some(NotFound)
      || (ReadAs(lookup(pid), lookup(pid).start) && w.signal(pid) in {Delivered, NoProcess, AlreadyDone})
      || (WithoutIdentities(lookup(pid)) && w.kill(pid) in {Delivered, AlreadyDone})
  }

  /** The PID was found to belong to another process by now. */
  predicate FoundChanged(w: World, lookup: int -> Lookup, t: Target) {
    t.Process? && ReadAs(lookup(t.pid), lookup(t.pid).start) && w.signal(t.pid) == Changed
  }

  /** An act has an error exactly when it did not succeed. */
  predicate ErrorFits(w: World, lookup: int -> Lookup, t: Target, err: Option<RowReason>) {
    && (err.None? <==> Succeeds(w, lookup, t))
    && (err.Some? ==> err == Some(ActionFailed(FoundChanged(w, lookup, t))))
  }

  lemma ErrorMeans(w: World, lookup: int -> Lookup, a: Act)
    requires a.target.Process? ==> a.captured == Capturing(lookup(a.target.pid)) != Unverified
    ensures ErrorFits(w, lookup, a.target, ErrorOf(w, a.target, a.captured))
  {
    if a.target.Process? { CapturingMeans(lookup(a.target.pid)); }
  }
}
