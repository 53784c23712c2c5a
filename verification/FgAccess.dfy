/** The SRAM access protocol of the fuel gauge driver: clients asking for the SRAM, a delayed
    work item giving it back, and the "memory available" interrupt, all touching one request
    bit, two completions and one counter. A step is what runs between two points where another
    party can get in: a critical section, a completed wait, or one part of the interrupt handler,
    which holds no lock: it reads the availability, then the request bit, then reports. A client
    makes the same two reads under the lock; the request bit cannot change between them, so what
    they find is what one look would have found, or a failed read. */
module FgAccess {

  /** Where one client stands. Every place but Idle is inside the counted region. */
  datatype Client =
    | Idle
    | Waiting       // counted, waiting for the grant
    | TimedOut      // the wait gave up, the counter is not yet lowered
    | Granted       // the wait succeeded, the revoke completion is not yet re-armed
    | Transferring  // runs its transfer loop

  /** Where the release work item stands. AwaitRevoke and AtReinit are "the window". */
  datatype Worker = Resting | AtLock | AwaitRevoke | AtReinit

  /** How far a running interrupt handler has got: it has found the SRAM available and not yet
      looked at the request bit, or it knows what it will report. */
  datatype Sample = NoHandler | SawAvail | Saw(access: bool)

  datatype State = State(
    req: bool,             // RIF_MEM_ACCESS_REQ in the cfg register
    avail: bool,           // MEM_INTF_AVAIL, owned by the hardware
    granted: bool,         // completion sram_access_granted
    revoked: bool,         // completion sram_access_revoked
    requests: int,         // sram_requests
    clients: seq<Client>,
    queued: bool,          // release work pending on its timer
    worker: Worker,
    sample: Sample)

  datatype Step =
    | Request(c: nat, readOk: bool, writeOk: bool)
    | SeeGrant(c: nat)
    | TimeOut(c: nat)
    | GiveUp(c: nat)
    | BeginTransfer(c: nat)
    | Release(c: nat)
    | TimerFires
    | WorkerClears(writeOk: bool)
    | WorkerSeesRevoke
    | WorkerTimesOut
    | WorkerReinit
    | IrqReadsStatus(readOk: bool)
    | IrqReadsRequest(readOk: bool)
    | IrqComplete
    | HwGrants
    | HwRevokes

  function Init(n: nat): State {
    State(false, false, false, false, 0, seq(n, _ => Idle), false, Resting, NoHandler)
  }

  predicate At(s: State, c: nat, place: Client) {
    c < |s.clients| && s.clients[c] == place
  }

  /** The hardware raises availability only under a request and drops it only without one. */
  predicate Enabled(s: State, st: Step) {
    match st
    case Request(c, _, _) => At(s, c, Idle)
    case SeeGrant(c) => At(s, c, Waiting) && s.granted
    case TimeOut(c) => At(s, c, Waiting)
    case GiveUp(c) => At(s, c, TimedOut)
    case BeginTransfer(c) => At(s, c, Granted)
    case Release(c) => At(s, c, Transferring)
    case TimerFires => s.queued && s.worker == Resting
    case WorkerClears(_) => s.worker == AtLock
    case WorkerSeesRevoke => s.worker == AwaitRevoke && s.revoked
    case WorkerTimesOut => s.worker == AwaitRevoke
    case WorkerReinit => s.worker == AtReinit
    case IrqReadsStatus(_) => s.sample == NoHandler
    case IrqReadsRequest(_) => s.sample == SawAvail
    case IrqComplete => s.sample.Saw?
    case HwGrants => s.req
    case HwRevokes => !s.req
  }

  function Move(s: State, c: nat, place: Client): State
    requires c < |s.clients|
  {
    s.(clients := s.clients[c := place])
  }

  /** One critical section or one atomic event, branch by branch as the driver runs it. */
  function Next(s: State, st: Step): State
    requires Enabled(s, st)
  {
    match st
    case Request(c, readOk, writeOk) =>
      if !(readOk && s.avail && s.req) && s.requests == 0 then
        if writeOk then Move(s, c, Waiting).(req := true, requests := 1) else s
      else
        Move(s, c, Waiting).(requests := s.requests + 1)
    case SeeGrant(c) => Move(s, c, Granted)
    case TimeOut(c) => Move(s, c, TimedOut)
    case GiveUp(c) => Move(s, c, Idle).(requests := s.requests - 1)
    case BeginTransfer(c) => Move(s, c, Transferring).(revoked := false)
    case Release(c) =>
      var left := if s.requests - 1 < 0 then 0 else s.requests - 1;
      Move(s, c, Idle).(requests := left, queued := s.queued || left == 0)
    case TimerFires => s.(queued := false, worker := AtLock)
    case WorkerClears(writeOk) =>
      if s.requests == 0 then s.(req := s.req && !writeOk, worker := AwaitRevoke)
      else s.(worker := Resting)
    case WorkerSeesRevoke => s.(worker := AtReinit)
    case WorkerTimesOut => s.(worker := AtReinit)
    case WorkerReinit => s.(worker := Resting, granted := false)
    case IrqReadsStatus(readOk) => s.(sample := if readOk && s.avail then SawAvail else Saw(false))
    case IrqReadsRequest(readOk) => s.(sample := Saw(readOk && s.req))
    case IrqComplete =>
      if s.sample.access then s.(sample := NoHandler, granted := true)
      else s.(sample := NoHandler, revoked := true)
    case HwGrants => s.(avail := true)
    case HwRevokes => s.(avail := false)
  }

  predicate IsRun(s: State, steps: seq<Step>)
    decreases |steps|
  {
    steps == [] || (Enabled(s, steps[0]) && IsRun(Next(s, steps[0]), steps[1..]))
  }

  function Exec(s: State, steps: seq<Step>): State
    requires IsRun(s, steps)
    decreases |steps|
  {
    if steps == [] then s else Exec(Next(s, steps[0]), steps[1..])
  }

  // ---------------------------------------------------------------- the past

  /** The state before step k. */
  function Before(s: State, steps: seq<Step>, k: nat): (r: State)
    requires IsRun(s, steps) && k <= |steps|
    ensures k < |steps| ==> Enabled(r, steps[k])
    decreases k
  {
    if k == 0 then s else Before(Next(s, steps[0]), steps[1..], k - 1)
  }

  /** Some step set a bit, and none since has cleared it. */
  ghost predicate LastSet(s: State, steps: seq<Step>, sets: (State, Step) -> bool, clears: (State, Step) -> bool)
    requires IsRun(s, steps)
  {
    exists k: nat :: k < |steps| && sets(Before(s, steps, k), steps[k]) && NotSince(s, steps, clears, k + 1)
  }

  ghost predicate NotSince(s: State, steps: seq<Step>, clears: (State, Step) -> bool, k: nat)
    requires IsRun(s, steps)
  {
    forall j: nat :: k <= j < |steps| ==> !clears(Before(s, steps, j), steps[j])
  }

  /** A bit that some steps set and some clear is what the latest of them made it. */
  lemma {:induction false} LatestDecides(s: State, steps: seq<Step>, bit: State -> bool,
                                         sets: (State, Step) -> bool, clears: (State, Step) -> bool)
    requires IsRun(s, steps)
    requires forall t: State, st: Step :: Enabled(t, st) ==>
               (bit(Next(t, st)) <==> sets(t, st) || (bit(t) && !clears(t, st)))
    ensures bit(Exec(s, steps)) <==>
              LastSet(s, steps, sets, clears) || (bit(s) && NotSince(s, steps, clears, 0))
    decreases |steps|
  {
    if steps != [] {
      var t, rest := Next(s, steps[0]), steps[1..];
      LatestDecides(t, rest, bit, sets, clears);
      SinceShifts(s, steps, clears);
      if sets(s, steps[0]) && NotSince(t, rest, clears, 0) {
        assert Before(s, steps, 0) == s && NotSince(s, steps, clears, 1);
      }
      if LastSet(t, rest, sets, clears) {
        var k: nat :| k < |rest| && sets(Before(t, rest, k), rest[k]) && NotSince(t, rest, clears, k + 1);
        assert Before(s, steps, k + 1) == Before(t, rest, k) && NotSince(s, steps, clears, k + 2);
      }
      if LastSet(s, steps, sets, clears) {
        var k: nat :| k < |steps| && sets(Before(s, steps, k), steps[k]) && NotSince(s, steps, clears, k + 1);
        if k > 0 {
          assert sets(Before(t, rest, k - 1), rest[k - 1]) && NotSince(t, rest, clears, k);
        } else {
          assert NotSince(t, rest, clears, 0);
        }
      }
      assert NotSince(s, steps, clears, 0) <==> !clears(s, steps[0]) && NotSince(s, steps, clears, 1) by {
        assert Before(s, steps, 0) == s;
      }
    }
  }

  lemma SinceShifts(s: State, steps: seq<Step>, clears: (State, Step) -> bool)
    requires IsRun(s, steps) && steps != []
    ensures forall k: nat :: NotSince(s, steps, clears, k + 1) <==> NotSince(Next(s, steps[0]), steps[1..], clears, k)
  {
    var t, rest := Next(s, steps[0]), steps[1..];
    forall k: nat ensures NotSince(s, steps, clears, k + 1) <==> NotSince(t, rest, clears, k) {
      if NotSince(s, steps, clears, k + 1) {
        forall j: nat | k <= j < |rest| ensures !clears(Before(t, rest, j), rest[j]) {
          assert !clears(Before(s, steps, j + 1), steps[j + 1]);
        }
      }
      if NotSince(t, rest, clears, k) {
        forall j: nat | k + 1 <= j < |steps| ensures !clears(Before(s, steps, j), steps[j]) {
          assert !clears(Before(t, rest, j - 1), rest[j - 1]);
        }
      }
    }
  }

  predicate ReportsAccess(s: State, st: Step) { st.IrqComplete? && s.sample == Saw(true) }
  predicate ReportsLoss(s: State, st: Step) { st.IrqComplete? && s.sample == Saw(false) }
  predicate BeginsTransfer(s: State, st: Step) { st.BeginTransfer? }
  predicate Rearms(s: State, st: Step) { st.WorkerReinit? }

  lemma RevokedStep(s: State, st: Step)
    requires Enabled(s, st)
    ensures Next(s, st).revoked <==> ReportsLoss(s, st) || (s.revoked && !BeginsTransfer(s, st))
  {
  }

  /** The revocation is on record exactly if a handler reported that there is no access and no client
      has begun a transfer since. */
  lemma RevokedExactly(n: nat, steps: seq<Step>)
    requires IsRun(Init(n), steps)
    ensures Exec(Init(n), steps).revoked <==> LastSet(Init(n), steps, ReportsLoss, BeginsTransfer)
  {
    hide Next, Enabled, LastSet, ReportsLoss, BeginsTransfer;
    forall t: State, st: Step | Enabled(t, st)
      ensures Next(t, st).revoked <==> ReportsLoss(t, st) || (t.revoked && !BeginsTransfer(t, st))
    {
      RevokedStep(t, st);
    }
    LatestDecides(Init(n), steps, (s: State) => s.revoked, ReportsLoss, BeginsTransfer);
  }

  lemma GrantedStep(s: State, st: Step)
    requires Enabled(s, st)
    ensures Next(s, st).granted <==> ReportsAccess(s, st) || (s.granted && !Rearms(s, st))
  {
  }

  /** The grant is on record exactly if a handler reported access and the worker has not re-armed it
      since. */
  lemma GrantedExactly(n: nat, steps: seq<Step>)
    requires IsRun(Init(n), steps)
    ensures Exec(Init(n), steps).granted <==> LastSet(Init(n), steps, ReportsAccess, Rearms)
  {
    hide Next, Enabled, LastSet, ReportsAccess, Rearms;
    forall t: State, st: Step | Enabled(t, st)
      ensures Next(t, st).granted <==> ReportsAccess(t, st) || (t.granted && !Rearms(t, st))
    {
      GrantedStep(t, st);
    }
    LatestDecides(Init(n), steps, (s: State) => s.granted, ReportsAccess, Rearms);
  }

  /** A request that found nobody counted, and no access to share, and reached the register. */
  predicate Asks(s: State, st: Step) {
    st.Request? && s.requests == 0 && !(st.readOk && s.avail && s.req) && st.writeOk
  }

  predicate GivesBack(s: State, st: Step) { st == WorkerClears(true) && s.requests == 0 }

  lemma RequestedStep(s: State, st: Step)
    requires Enabled(s, st)
    ensures Next(s, st).req <==> Asks(s, st) || (s.req && !GivesBack(s, st))
  {
  }

  /** The request bit is set exactly if such a request came after every clear by the worker. */
  lemma RequestedExactly(n: nat, steps: seq<Step>)
    requires IsRun(Init(n), steps)
    ensures Exec(Init(n), steps).req <==> LastSet(Init(n), steps, Asks, GivesBack)
  {
    hide Next, Enabled, LastSet, Asks, GivesBack;
    forall t: State, st: Step | Enabled(t, st)
      ensures Next(t, st).req <==> Asks(t, st) || (t.req && !GivesBack(t, st))
    {
      RequestedStep(t, st);
    }
    LatestDecides(Init(n), steps, (s: State) => s.req, Asks, GivesBack);
  }

  predicate LastReleases(s: State, st: Step) { st.Release? && s.requests <= 1 }
  predicate Fires(s: State, st: Step) { st.TimerFires? }

  lemma QueuedStep(s: State, st: Step)
    requires Enabled(s, st)
    ensures Next(s, st).queued <==> LastReleases(s, st) || (s.queued && !Fires(s, st))
  {
  }

  /** Release work is pending exactly if the last client released since the timer fired. */
  lemma QueuedExactly(n: nat, steps: seq<Step>)
    requires IsRun(Init(n), steps)
    ensures Exec(Init(n), steps).queued <==> LastSet(Init(n), steps, LastReleases, Fires)
  {
    hide Next, Enabled, LastSet, LastReleases, Fires;
    forall t: State, st: Step | Enabled(t, st)
      ensures Next(t, st).queued <==> LastReleases(t, st) || (t.queued && !Fires(t, st))
    {
      QueuedStep(t, st);
    }
    LatestDecides(Init(n), steps, (s: State) => s.queued, LastReleases, Fires);
  }

  predicate Looks(s: State, st: Step) { st.WorkerClears? }
  predicate LooksAtNobody(s: State, st: Step) { st.WorkerClears? && s.requests == 0 }
  predicate StopsWaiting(s: State, st: Step) { st.WorkerSeesRevoke? || st.WorkerTimesOut? }

  lemma AtLockStep(s: State, st: Step)
    requires Enabled(s, st)
    ensures Next(s, st).worker == AtLock <==> Fires(s, st) || (s.worker == AtLock && !Looks(s, st))
  {
  }

  /** The worker is at the lock exactly since its timer fired ... */
  lemma AtLockExactly(n: nat, steps: seq<Step>)
    requires IsRun(Init(n), steps)
    ensures Exec(Init(n), steps).worker == AtLock <==> LastSet(Init(n), steps, Fires, Looks)
  {
    hide Next, Enabled, LastSet, Fires, Looks;
    forall t: State, st: Step | Enabled(t, st)
      ensures Next(t, st).worker == AtLock <==> Fires(t, st) || (t.worker == AtLock && !Looks(t, st))
    {
      AtLockStep(t, st);
    }
    LatestDecides(Init(n), steps, (s: State) => s.worker == AtLock, Fires, Looks);
  }

  lemma AwaitStep(s: State, st: Step)
    requires Enabled(s, st)
    ensures Next(s, st).worker == AwaitRevoke <==>
              LooksAtNobody(s, st) || (s.worker == AwaitRevoke && !StopsWaiting(s, st))
  {
  }

  /** ... waits since it found nobody counted there ... */
  lemma AwaitExactly(n: nat, steps: seq<Step>)
    requires IsRun(Init(n), steps)
    ensures Exec(Init(n), steps).worker == AwaitRevoke <==> LastSet(Init(n), steps, LooksAtNobody, StopsWaiting)
  {
    hide Next, Enabled, LastSet, LooksAtNobody, StopsWaiting;
    forall t: State, st: Step | Enabled(t, st)
      ensures Next(t, st).worker == AwaitRevoke <==>
                LooksAtNobody(t, st) || (t.worker == AwaitRevoke && !StopsWaiting(t, st))
    {
      AwaitStep(t, st);
    }
    LatestDecides(Init(n), steps, (s: State) => s.worker == AwaitRevoke, LooksAtNobody, StopsWaiting);
  }

  lemma ReinitStep(s: State, st: Step)
    requires Enabled(s, st)
    ensures Next(s, st).worker == AtReinit <==> StopsWaiting(s, st) || (s.worker == AtReinit && !Rearms(s, st))
  {
  }

  /** ... and is about to re-arm since its wait ended. */
  lemma ReinitExactly(n: nat, steps: seq<Step>)
    requires IsRun(Init(n), steps)
    ensures Exec(Init(n), steps).worker == AtReinit <==> LastSet(Init(n), steps, StopsWaiting, Rearms)
  {
    hide Next, Enabled, LastSet, StopsWaiting, Rearms;
    forall t: State, st: Step | Enabled(t, st)
      ensures Next(t, st).worker == AtReinit <==> StopsWaiting(t, st) || (t.worker == AtReinit && !Rearms(t, st))
    {
      ReinitStep(t, st);
    }
    LatestDecides(Init(n), steps, (s: State) => s.worker == AtReinit, StopsWaiting, Rearms);
  }

  predicate FindsAvail(s: State, st: Step) { st == IrqReadsStatus(true) && s.avail }
  predicate ReadsRequest(s: State, st: Step) { st.IrqReadsRequest? }
  predicate FindsBoth(s: State, st: Step) { st == IrqReadsRequest(true) && s.req }
  predicate Completes(s: State, st: Step) { st.IrqComplete? }
  predicate MissesEither(s: State, st: Step) {
    || (st.IrqReadsStatus? && !(st.readOk && s.avail))
    || (st.IrqReadsRequest? && !(st.readOk && s.req))
  }

  lemma HalfReadStep(s: State, st: Step)
    requires Enabled(s, st)
    ensures Next(s, st).sample == SawAvail <==> FindsAvail(s, st) || (s.sample == SawAvail && !ReadsRequest(s, st))
  {
  }

  /** A handler is half-way exactly since its first read found the SRAM available ... */
  lemma HalfReadExactly(n: nat, steps: seq<Step>)
    requires IsRun(Init(n), steps)
    ensures Exec(Init(n), steps).sample == SawAvail <==> LastSet(Init(n), steps, FindsAvail, ReadsRequest)
  {
    hide Next, Enabled, LastSet, FindsAvail, ReadsRequest;
    forall t: State, st: Step | Enabled(t, st)
      ensures Next(t, st).sample == SawAvail <==> FindsAvail(t, st) || (t.sample == SawAvail && !ReadsRequest(t, st))
    {
      HalfReadStep(t, st);
    }
    LatestDecides(Init(n), steps, (s: State) => s.sample == SawAvail, FindsAvail, ReadsRequest);
  }

  lemma SawAccessStep(s: State, st: Step)
    requires Enabled(s, st)
    ensures Next(s, st).sample == Saw(true) <==> FindsBoth(s, st) || (s.sample == Saw(true) && !Completes(s, st))
  {
  }

  /** ... is to report access since its second one found it requested too ... */
  lemma SawAccessExactly(n: nat, steps: seq<Step>)
    requires IsRun(Init(n), steps)
    ensures Exec(Init(n), steps).sample == Saw(true) <==> LastSet(Init(n), steps, FindsBoth, Completes)
  {
    hide Next, Enabled, LastSet, FindsBoth, Completes;
    forall t: State, st: Step | Enabled(t, st)
      ensures Next(t, st).sample == Saw(true) <==> FindsBoth(t, st) || (t.sample == Saw(true) && !Completes(t, st))
    {
      SawAccessStep(t, st);
    }
    LatestDecides(Init(n), steps, (s: State) => s.sample == Saw(true), FindsBoth, Completes);
  }

  lemma SawLossStep(s: State, st: Step)
    requires Enabled(s, st)
    ensures Next(s, st).sample == Saw(false) <==> MissesEither(s, st) || (s.sample == Saw(false) && !Completes(s, st))
  {
  }

  /** ... and to report its loss since one of them did not, or failed. */
  lemma SawLossExactly(n: nat, steps: seq<Step>)
    requires IsRun(Init(n), steps)
    ensures Exec(Init(n), steps).sample == Saw(false) <==> LastSet(Init(n), steps, MissesEither, Completes)
  {
    hide Next, Enabled, LastSet, MissesEither, Completes;
    forall t: State, st: Step | Enabled(t, st)
      ensures Next(t, st).sample == Saw(false) <==> MissesEither(t, st) || (t.sample == Saw(false) && !Completes(t, st))
    {
      SawLossStep(t, st);
    }
    LatestDecides(Init(n), steps, (s: State) => s.sample == Saw(false), MissesEither, Completes);
  }

  function StepIs(st: Step): (State, Step) -> bool { (s, t) => t == st }

  /** A request gets client c in unless it had to set the bit and could not. */
  function Enters(c: nat): (State, Step) -> bool {
    (s: State, st: Step) =>
      st.Request? && st.c == c && (s.requests != 0 || (st.readOk && s.avail && s.req) || st.writeOk)
  }

  function Answered(c: nat): (State, Step) -> bool { (s, st) => st == SeeGrant(c) || st == TimeOut(c) }

  lemma WaitsStep(s: State, st: Step, c: nat)
    requires Enabled(s, st)
    ensures At(Next(s, st), c, Waiting) <==> Enters(c)(s, st) || (At(s, c, Waiting) && !Answered(c)(s, st))
  {
  }

  /** A client waits exactly since a request that got it in, until it sees the grant or times out ... */
  lemma WaitsExactly(n: nat, steps: seq<Step>, c: nat)
    requires IsRun(Init(n), steps)
    ensures At(Exec(Init(n), steps), c, Waiting) <==> LastSet(Init(n), steps, Enters(c), Answered(c))
  {
    hide Next, Enabled, LastSet, Enters, Answered;
    forall t: State, st: Step | Enabled(t, st)
      ensures At(Next(t, st), c, Waiting) <==> Enters(c)(t, st) || (At(t, c, Waiting) && !Answered(c)(t, st))
    {
      WaitsStep(t, st, c);
    }
    LatestDecides(Init(n), steps, (s: State) => At(s, c, Waiting), Enters(c), Answered(c));
  }

  lemma GrantedClientStep(s: State, st: Step, c: nat)
    requires Enabled(s, st)
    ensures At(Next(s, st), c, Granted) <==>
              StepIs(SeeGrant(c))(s, st) || (At(s, c, Granted) && !StepIs(BeginTransfer(c))(s, st))
  {
  }

  /** ... is past the wait since it saw the grant, until it begins its transfer ... */
  lemma GrantedClientExactly(n: nat, steps: seq<Step>, c: nat)
    requires IsRun(Init(n), steps)
    ensures At(Exec(Init(n), steps), c, Granted) <==>
              LastSet(Init(n), steps, StepIs(SeeGrant(c)), StepIs(BeginTransfer(c)))
  {
    hide Next, Enabled, LastSet, StepIs;
    forall t: State, st: Step | Enabled(t, st)
      ensures At(Next(t, st), c, Granted) <==>
                StepIs(SeeGrant(c))(t, st) || (At(t, c, Granted) && !StepIs(BeginTransfer(c))(t, st))
    {
      GrantedClientStep(t, st, c);
    }
    LatestDecides(Init(n), steps, (s: State) => At(s, c, Granted), StepIs(SeeGrant(c)), StepIs(BeginTransfer(c)));
  }

  lemma TransferStep(s: State, st: Step, c: nat)
    requires Enabled(s, st)
    ensures At(Next(s, st), c, Transferring) <==>
              StepIs(BeginTransfer(c))(s, st) || (At(s, c, Transferring) && !StepIs(Release(c))(s, st))
  {
  }

  /** ... which lasts until it releases ... */
  lemma TransferExactly(n: nat, steps: seq<Step>, c: nat)
    requires IsRun(Init(n), steps)
    ensures At(Exec(Init(n), steps), c, Transferring) <==>
              LastSet(Init(n), steps, StepIs(BeginTransfer(c)), StepIs(Release(c)))
  {
    hide Next, Enabled, LastSet, StepIs;
    forall t: State, st: Step | Enabled(t, st)
      ensures At(Next(t, st), c, Transferring) <==>
                StepIs(BeginTransfer(c))(t, st) || (At(t, c, Transferring) && !StepIs(Release(c))(t, st))
    {
      TransferStep(t, st, c);
    }
    LatestDecides(Init(n), steps, (s: State) => At(s, c, Transferring), StepIs(BeginTransfer(c)), StepIs(Release(c)));
  }

  lemma TimedOutStep(s: State, st: Step, c: nat)
    requires Enabled(s, st)
    ensures At(Next(s, st), c, TimedOut) <==>
              StepIs(TimeOut(c))(s, st) || (At(s, c, TimedOut) && !StepIs(GiveUp(c))(s, st))
  {
  }

  /** ... and is still counted after a timeout until it gives up. */
  lemma TimedOutExactly(n: nat, steps: seq<Step>, c: nat)
    requires IsRun(Init(n), steps)
    ensures At(Exec(Init(n), steps), c, TimedOut) <==>
              LastSet(Init(n), steps, StepIs(TimeOut(c)), StepIs(GiveUp(c)))
  {
    hide Next, Enabled, LastSet, StepIs;
    forall t: State, st: Step | Enabled(t, st)
      ensures At(Next(t, st), c, TimedOut) <==>
                StepIs(TimeOut(c))(t, st) || (At(t, c, TimedOut) && !StepIs(GiveUp(c))(t, st))
    {
      TimedOutStep(t, st, c);
    }
    LatestDecides(Init(n), steps, (s: State) => At(s, c, TimedOut), StepIs(TimeOut(c)), StepIs(GiveUp(c)));
  }

  lemma {:induction false} PrefixRuns(s: State, steps: seq<Step>, k: nat)
    requires IsRun(s, steps) && k <= |steps|
    ensures IsRun(s, steps[..k]) && Exec(s, steps[..k]) == Before(s, steps, k)
    decreases k
  {
    if k > 0 {
      PrefixRuns(Next(s, steps[0]), steps[1..], k - 1);
      assert steps[1..][..k - 1] == steps[..k][1..];
    }
  }

  /** So a client comes through its wait only behind a report of access, and the worker stops waiting
      for the revocation early only behind a report of its loss, both newer than the last re-arming. */
  lemma WaitsAreAnswered(n: nat, steps: seq<Step>, k: nat)
    requires IsRun(Init(n), steps) && k < |steps|
    ensures IsRun(Init(n), steps[..k])
    ensures steps[k].SeeGrant? ==> LastSet(Init(n), steps[..k], ReportsAccess, Rearms)
    ensures steps[k].WorkerSeesRevoke? ==> LastSet(Init(n), steps[..k], ReportsLoss, BeginsTransfer)
    ensures steps[k].TimerFires? ==> LastSet(Init(n), steps[..k], LastReleases, Fires)
  {
    PrefixRuns(Init(n), steps, k);
    GrantedExactly(n, steps[..k]);
    RevokedExactly(n, steps[..k]);
    QueuedExactly(n, steps[..k]);
  }

  // ---------------------------------------------------------------- the counter

  function Busy(clients: seq<Client>): nat {
    if clients == [] then 0
    else Busy(clients[..|clients| - 1]) + (if clients[|clients| - 1] == Idle then 0 else 1)
  }

  lemma {:induction false} BusyAfterMove(clients: seq<Client>, c: nat, place: Client)
    requires c < |clients|
    ensures Busy(clients[c := place])
         == Busy(clients) - (if clients[c] == Idle then 0 else 1) + (if place == Idle then 0 else 1)
  {
    var n := |clients| - 1;
    if c == n {
      assert clients[c := place][..n] == clients[..n];
    } else {
      BusyAfterMove(clients[..n], c, place);
      assert clients[c := place][..n] == clients[..n][c := place];
    }
  }

  lemma {:induction false} BusyClientCounts(clients: seq<Client>, c: nat)
    requires c < |clients| && clients[c] != Idle
    ensures Busy(clients) >= 1
  {
    if c < |clients| - 1 {
      BusyClientCounts(clients[..|clients| - 1], c);
    }
  }

  lemma {:induction false} NobodyBusy(n: nat)
    ensures Busy(seq(n, _ => Idle)) == 0
  {
    if n > 0 {
      NobodyBusy(n - 1);
      assert seq(n, _ => Idle)[..n - 1] == seq(n - 1, _ => Idle);
    }
  }

  /** What every interleaving keeps, with no assumption on when requests enter. */
  ghost predicate Counted(s: State) {
    && s.requests == Busy(s.clients)
    && (s.requests > 0 ==> s.req)
  }

  /** The counter moves with the clients. */
  lemma CountMoves(s: State, st: Step)
    requires Counted(s) && Enabled(s, st)
    ensures Next(s, st).requests == Busy(Next(s, st).clients)
    // the driver's own "cannot be negative" warning branch is dead
    ensures st.Release? ==> s.requests - 1 >= 0
  {
    match st {
      case Request(c, readOk, writeOk) => BusyAfterMove(s.clients, c, Waiting);
      case SeeGrant(c) => BusyAfterMove(s.clients, c, Granted);
      case TimeOut(c) => BusyAfterMove(s.clients, c, TimedOut);
      case GiveUp(c) => BusyAfterMove(s.clients, c, Idle);
      case BeginTransfer(c) => BusyAfterMove(s.clients, c, Transferring);
      case Release(c) =>
        BusyAfterMove(s.clients, c, Idle);
        BusyClientCounts(s.clients, c);
      case _ =>
    }
  }

  lemma CountedStep(s: State, st: Step)
    requires Counted(s) && Enabled(s, st)
    ensures Counted(Next(s, st))
    // the bit is never cleared while somebody is counted
    ensures s.requests > 0 && Next(s, st).requests > 0 ==> Next(s, st).req
    ensures s.req && !Next(s, st).req ==> s.requests == 0 && st.WorkerClears?
    ensures st.Release? ==> s.requests - 1 >= 0
  {
    hide Busy;
    CountMoves(s, st);
  }

  /** In every interleaving the counter is the number of clients inside the counted region. */
  lemma {:induction false} CountingHolds(s: State, steps: seq<Step>)
    requires Counted(s) && IsRun(s, steps)
    ensures Counted(Exec(s, steps)) && Exec(s, steps).requests >= 0
    decreases |steps|
  {
    if steps != [] {
      CountedStep(s, steps[0]);
      CountingHolds(Next(s, steps[0]), steps[1..]);
    }
  }

  lemma CountingFromStart(n: nat, steps: seq<Step>)
    requires IsRun(Init(n), steps)
    ensures var s := Exec(Init(n), steps);
            s.requests == Busy(s.clients) && (s.requests > 0 ==> s.req)
  {
    NobodyBusy(n);
    CountingHolds(Init(n), steps);
  }

  // ---------------------------------------------------------------- the grant

  predicate Holds(s: State, c: nat) { At(s, c, Granted) || At(s, c, Transferring) }

  predicate AccessHeld(s: State) { s.req && s.avail }

  /** A grant has been given, is about to be, or will be as soon as a request sets the bit. */
  predicate Promised(s: State) { s.granted || s.sample == Saw(true) || s.sample == SawAvail }

  /** ... although the request bit is clear, so that the hardware is free to take the SRAM back. */
  predicate StaleGrant(s: State) { Promised(s) && !s.req }

  /** The exclusion: no request enters while a stale grant is around. */
  predicate Guarded(s: State, steps: seq<Step>)
    requires IsRun(s, steps)
    decreases |steps|
  {
    steps == [] ||
    ((steps[0].Request? ==> !StaleGrant(s)) && Guarded(Next(s, steps[0]), steps[1..]))
  }

  ghost predicate Safe(s: State) {
    && Counted(s)
    && (Promised(s) && s.req ==> s.avail)
    && (forall c: nat :: Holds(s, c) ==> AccessHeld(s))
  }

  /** Availability stays under every promise. */
  lemma PromiseStep(s: State, st: Step)
    requires Safe(s) && Enabled(s, st)
    requires st.Request? ==> !StaleGrant(s)
    ensures Promised(Next(s, st)) && Next(s, st).req ==> Next(s, st).avail
  {
  }

  /** A step that puts a client past the wait is its seeing the grant. */
  lemma NewHolderSawTheGrant(s: State, st: Step, c: nat)
    requires Enabled(s, st) && Holds(Next(s, st), c) && !Holds(s, c)
    ensures st == SeeGrant(c) && At(s, c, Waiting) && s.granted
    ensures Next(s, st).req == s.req && Next(s, st).avail == s.avail
  {
  }

  /** Neither bit goes away under a counted client. */
  lemma BitsStay(s: State, st: Step)
    requires Enabled(s, st) && AccessHeld(s) && s.requests > 0
    ensures AccessHeld(Next(s, st))
  {
  }

  /** Whoever is past the wait has access, and keeps it. */
  lemma HolderStep(s: State, st: Step, c: nat)
    requires Safe(s) && Enabled(s, st) && Holds(Next(s, st), c)
    ensures AccessHeld(Next(s, st))
  {
    hide Next;
    if Holds(s, c) {
      BusyClientCounts(s.clients, c);
      BitsStay(s, st);
    } else {
      NewHolderSawTheGrant(s, st, c);
      BusyClientCounts(s.clients, c);
    }
  }

  lemma SafeStep(s: State, st: Step)
    requires Safe(s) && Enabled(s, st)
    requires st.Request? ==> !StaleGrant(s)
    ensures Safe(Next(s, st))
  {
    hide Next, Promised;
    CountedStep(s, st);
    PromiseStep(s, st);
    forall c: nat | Holds(Next(s, st), c) ensures AccessHeld(Next(s, st)) {
      HolderStep(s, st, c);
    }
  }

  /** Main result: on every guarded run, whoever has come through the wait or is transferring
      does so while the request bit and the hardware's availability are both set. */
  lemma {:induction false} AccessHeldThroughout(s: State, steps: seq<Step>)
    requires Safe(s) && IsRun(s, steps) && Guarded(s, steps)
    ensures Safe(Exec(s, steps))
    decreases |steps|
  {
    if steps != [] {
      SafeStep(s, steps[0]);
      AccessHeldThroughout(Next(s, steps[0]), steps[1..]);
    }
  }

  lemma AccessHeldFromStart(n: nat, steps: seq<Step>, c: nat)
    requires IsRun(Init(n), steps) && Guarded(Init(n), steps)
    requires Holds(Exec(Init(n), steps), c)
    ensures AccessHeld(Exec(Init(n), steps))
  {
    NobodyBusy(n);
    AccessHeldThroughout(Init(n), steps);
  }

  lemma CompletedStaleGrantLosesAccess(s: State, c: nat) returns (steps: seq<Step>)
    requires Counted(s) && At(s, c, Idle) && s.granted && !s.req
    ensures IsRun(s, steps) && |steps| == 3
    ensures Holds(Exec(s, steps), c) && !AccessHeld(Exec(s, steps))
    ensures Exec(s, steps).worker == s.worker
  {
    steps := [HwRevokes, Request(c, true, true), SeeGrant(c)];
    var s1 := Next(s, steps[0]);
    var s2 := Next(s1, steps[1]);
    var s3 := Next(s2, steps[2]);
    assert IsRun(s3, steps[3..]);
    assert steps[2..][1..] == steps[3..] && steps[1..][1..] == steps[2..];
    assert IsRun(s2, steps[2..]) && Exec(s2, steps[2..]) == s3;
    assert IsRun(s1, steps[1..]) && Exec(s1, steps[1..]) == s3;
  }

  /** The exclusion is exact: in a state with a stale grant, an idle client needs at most five
      steps to come through the wait with the hardware's availability gone. */
  lemma StaleGrantLosesAccess(s: State, c: nat) returns (steps: seq<Step>)
    requires Counted(s) && At(s, c, Idle) && StaleGrant(s)
    ensures IsRun(s, steps) && |steps| <= 5
    ensures Holds(Exec(s, steps), c) && !AccessHeld(Exec(s, steps))
  {
    if s.granted {
      steps := CompletedStaleGrantLosesAccess(s, c);
    } else if s.sample == Saw(true) {
      var rest := CompletedStaleGrantLosesAccess(Next(s, IrqComplete), c);
      steps := [IrqComplete] + rest;
      assert steps[1..] == rest;
    } else {
      steps := HalfReadLosesAccess(s, c);
    }
  }

  /** A handler that found the SRAM available and looks at the request bit only after the hardware
      took it back and the client asked for it anew. */
  lemma HalfReadLosesAccess(s: State, c: nat) returns (steps: seq<Step>)
    requires Counted(s) && At(s, c, Idle) && s.sample == SawAvail && !s.req
    ensures IsRun(s, steps) && |steps| == 5
    ensures Holds(Exec(s, steps), c) && !AccessHeld(Exec(s, steps))
  {
    var s1 := Next(s, HwRevokes);
    var s2 := Next(s1, Request(c, true, true));
    var s3 := Next(s2, IrqReadsRequest(true));
    var s4 := Next(s3, IrqComplete);
    var s5 := Next(s4, SeeGrant(c));
    steps := Prepend(s4, SeeGrant(c), s5, []);
    steps := Prepend(s3, IrqComplete, s4, steps);
    steps := Prepend(s2, IrqReadsRequest(true), s3, steps);
    steps := Prepend(s1, Request(c, true, true), s2, steps);
    steps := Prepend(s, HwRevokes, s1, steps);
  }

  // ---------------------------------------------------------------- the worker's window

  /** Between the worker's clear of the request bit and its re-arming of the grant. */
  predicate InWindow(s: State) { s.worker == AwaitRevoke || s.worker == AtReinit }

  /** A handler stands between its two reads while the request bit is clear. */
  predicate HalfRead(s: State) { s.sample == SawAvail && !s.req }

  /** No request enters the window or between a handler's reads of a clear bit, and no handler that
      saw access outlives the window. */
  predicate WindowKept(s: State, steps: seq<Step>)
    requires IsRun(s, steps)
    decreases |steps|
  {
    steps == [] ||
    (&& (steps[0].Request? ==> !InWindow(s) && !HalfRead(s))
     && (steps[0].WorkerReinit? ==> s.sample != Saw(true) || s.req)
     && WindowKept(Next(s, steps[0]), steps[1..]))
  }

  /** Only the worker's clear, or a handler's first read under a clear bit, makes a grant stale. */
  lemma WhatMakesAGrantStale(s: State, st: Step)
    requires Enabled(s, st) && !StaleGrant(s)
    ensures StaleGrant(Next(s, st)) <==>
              || (st == WorkerClears(true) && s.requests == 0 && Promised(s) && s.req)
              || (st == IrqReadsStatus(true) && s.avail && !s.req)
  {
  }

  /** Keeping requests away from the window and from half-read handlers is enough, as long as no
      handler that saw access outlives the window. */
  lemma {:induction false} WindowExclusionSuffices(s: State, steps: seq<Step>)
    requires IsRun(s, steps) && WindowKept(s, steps)
    requires StaleGrant(s) ==> InWindow(s) || HalfRead(s)
    requires s.granted && !s.req ==> InWindow(s)
    ensures Guarded(s, steps)
    ensures Exec(s, steps).granted && !Exec(s, steps).req ==> InWindow(Exec(s, steps))
    decreases |steps|
  {
    if steps != [] {
      WindowStep(s, steps[0]);
      WindowExclusionSuffices(Next(s, steps[0]), steps[1..]);
    }
  }

  lemma WindowStep(s: State, st: Step)
    requires Enabled(s, st)
    requires st.Request? ==> !InWindow(s) && !HalfRead(s)
    requires st.WorkerReinit? ==> s.sample != Saw(true) || s.req
    requires StaleGrant(s) ==> InWindow(s) || HalfRead(s)
    requires s.granted && !s.req ==> InWindow(s)
    ensures var t := Next(s, st);
            && (StaleGrant(t) ==> InWindow(t) || HalfRead(t))
            && (t.granted && !t.req ==> InWindow(t))
  {
  }

  /** On runs that keep the window, a completed grant means access is held whenever the worker
      is outside its window, and a client past the wait holds access always. */
  lemma GrantMeansAccess(n: nat, steps: seq<Step>)
    requires IsRun(Init(n), steps) && WindowKept(Init(n), steps)
    ensures var s := Exec(Init(n), steps);
            && (s.granted && !InWindow(s) ==> AccessHeld(s))
            && (forall c: nat :: Holds(s, c) ==> AccessHeld(s))
  {
    WindowExclusionSuffices(Init(n), steps);
    NobodyBusy(n);
    AccessHeldThroughout(Init(n), steps);
  }

  lemma Prepend(s: State, st: Step, t: State, rest: seq<Step>) returns (steps: seq<Step>)
    requires Enabled(s, st) && Next(s, st) == t && IsRun(t, rest)
    ensures IsRun(s, steps) && Exec(s, steps) == Exec(t, rest) && |steps| == |rest| + 1
  {
    steps := [st] + rest;
    assert steps[1..] == rest;
  }

  /** One client, alone: waiting for its first grant. */
  function FirstWait(): State {
    State(true, false, false, false, 1, [Waiting], false, Resting, NoHandler)
  }

  function FirstGrant(): State { FirstWait().(avail := true, granted := true) }

  /** ... and done with it, the worker about to take the lock. */
  function BackAtLock(): State {
    FirstGrant().(clients := [Idle], requests := 0, worker := AtLock)
  }

  lemma ClientMoves(a: Client, b: Client)
    ensures [a][0 := b] == [b]
  {
  }

  /** From nothing to the worker at the lock: ask, be granted, transfer, release, timer fires. */
  lemma UseOnce(rest: seq<Step>) returns (steps: seq<Step>)
    requires IsRun(BackAtLock(), rest)
    ensures IsRun(Init(1), steps) && Exec(Init(1), steps) == Exec(BackAtLock(), rest)
  {
    var g := FirstGrant();
    var queued := g.(clients := [Idle], requests := 0, queued := true);
    steps := Prepend(queued, TimerFires, BackAtLock(), rest);
    ClientMoves(Transferring, Idle);
    steps := Prepend(g.(clients := [Transferring]), Release(0), queued, steps);
    ClientMoves(Granted, Transferring);
    steps := Prepend(g.(clients := [Granted]), BeginTransfer(0), g.(clients := [Transferring]), steps);
    ClientMoves(Waiting, Granted);
    steps := Prepend(g, SeeGrant(0), g.(clients := [Granted]), steps);
    steps := AskOnce(steps);
  }

  lemma AskOnce(rest: seq<Step>) returns (steps: seq<Step>)
    requires IsRun(FirstGrant(), rest)
    ensures IsRun(Init(1), steps) && Exec(Init(1), steps) == Exec(FirstGrant(), rest)
  {
    var up := FirstWait().(avail := true);
    steps := Prepend(up.(sample := Saw(true)), IrqComplete, FirstGrant(), rest);
    steps := Prepend(up.(sample := SawAvail), IrqReadsRequest(true), up.(sample := Saw(true)), steps);
    steps := Prepend(up, IrqReadsStatus(true), up.(sample := SawAvail), steps);
    steps := Prepend(FirstWait(), HwGrants, up, steps);
    assert seq(1, _ => Idle)[0 := Waiting] == [Waiting];
    steps := Prepend(Init(1), Request(0, true, true), FirstWait(), steps);
  }

  /** The gap in the driver is real: one client that asks, transfers, releases, and asks again
      while the worker waits inside its window, ends up past the wait with the SRAM taken back
      by the hardware. */
  lemma RequestInWindowLosesAccess() returns (steps: seq<Step>)
    ensures IsRun(Init(1), steps)
    ensures Holds(Exec(Init(1), steps), 0) && !AccessHeld(Exec(Init(1), steps))
    ensures InWindow(Exec(Init(1), steps))
  {
    var cleared := BackAtLock().(req := false, worker := AwaitRevoke);
    steps := CompletedStaleGrantLosesAccess(cleared, 0);
    steps := Prepend(BackAtLock(), WorkerClears(true), cleared, steps);
    steps := UseOnce(steps);
  }

  /** From the worker at the lock to the worker at rest, its wait for the revocation timed out. */
  lemma ClearAndRest(sample: Sample, rest: seq<Step>) returns (steps: seq<Step>)
    requires IsRun(Rearmed(sample), rest)
    ensures var s := BackAtLock().(sample := sample);
            IsRun(s, steps) && Exec(s, steps) == Exec(Rearmed(sample), rest)
  {
    var s := BackAtLock().(sample := sample);
    var cleared := s.(req := false, worker := AwaitRevoke);
    steps := Prepend(cleared.(worker := AtReinit), WorkerReinit, Rearmed(sample), rest);
    steps := Prepend(cleared, WorkerTimesOut, cleared.(worker := AtReinit), steps);
    steps := Prepend(s, WorkerClears(true), cleared, steps);
  }

  function Rearmed(sample: Sample): State {
    BackAtLock().(sample := sample, req := false, worker := Resting, granted := false)
  }

  /** Keeping requests out of the window alone is not enough: a handler that reads the hardware
      before the clear and reports after the window has closed revives the grant. */
  lemma HandlerAcrossWindowLosesAccess() returns (steps: seq<Step>)
    ensures IsRun(Init(1), steps)
    ensures Holds(Exec(Init(1), steps), 0) && !AccessHeld(Exec(Init(1), steps))
    ensures Exec(Init(1), steps).worker == Resting
  {
    var s := BackAtLock();
    var revived := Rearmed(NoHandler).(granted := true);
    steps := CompletedStaleGrantLosesAccess(revived, 0);
    steps := Prepend(Rearmed(Saw(true)), IrqComplete, revived, steps);
    steps := ClearAndRest(Saw(true), steps);
    steps := Prepend(s.(sample := SawAvail), IrqReadsRequest(true), s.(sample := Saw(true)), steps);
    steps := Prepend(s, IrqReadsStatus(true), s.(sample := SawAvail), steps);
    steps := UseOnce(steps);
  }

  /** Nor is keeping handlers that saw access from outliving it: one that has made only its first
      read before the clear makes the second after a new request. */
  lemma HalfReadAcrossWindowLosesAccess() returns (steps: seq<Step>)
    ensures IsRun(Init(1), steps)
    ensures Holds(Exec(Init(1), steps), 0) && !AccessHeld(Exec(Init(1), steps))
  {
    steps := HalfReadLosesAccess(Rearmed(SawAvail), 0);
    steps := ClearAndRest(SawAvail, steps);
    steps := Prepend(BackAtLock(), IrqReadsStatus(true), BackAtLock().(sample := SawAvail), steps);
    steps := UseOnce(steps);
  }

  /** Nor is keeping every handler out of it: after a wait for the revocation that timed out, the
      hardware may still be available to the first read of a handler that starts later. */
  lemma HalfReadAfterWindowLosesAccess() returns (steps: seq<Step>)
    ensures IsRun(Init(1), steps)
    ensures Holds(Exec(Init(1), steps), 0) && !AccessHeld(Exec(Init(1), steps))
  {
    steps := HalfReadLosesAccess(Rearmed(SawAvail), 0);
    steps := Prepend(Rearmed(NoHandler), IrqReadsStatus(true), Rearmed(SawAvail), steps);
    steps := ClearAndRest(NoHandler, steps);
    assert BackAtLock().(sample := NoHandler) == BackAtLock();
    steps := UseOnce(steps);
  }

  // ---------------------------------------------------------------- giving the SRAM back

  /** The request bit is set, nobody is counted, and no release work will look at it again. */
  predicate Leaked(s: State) {
    s.req && s.requests == 0 && !s.queued && s.worker != AtLock
  }

  /** Exactly two steps leak the request bit: the last client giving up after a timeout, which
      queues no release work, and the worker's clear failing. */
  lemma LeakExactly(s: State, st: Step)
    requires Counted(s) && Enabled(s, st) && !Leaked(s)
    ensures Leaked(Next(s, st)) <==>
            || (st.GiveUp? && s.requests == 1 && !s.queued && s.worker != AtLock)
            || (st == WorkerClears(false) && s.req && s.requests == 0 && !s.queued)
  {
    CountedStep(s, st);
    if st.GiveUp? {
      BusyClientCounts(s.clients, st.c);
    }
  }

  /** Without timeouts and failed clears, a set bit with nobody counted always has release work
      on its way. */
  lemma {:induction false} ReleaseIsOwed(s: State, steps: seq<Step>)
    requires Counted(s) && !Leaked(s) && IsRun(s, steps)
    requires forall st :: st in steps ==> !st.GiveUp? && st != WorkerClears(false)
    ensures !Leaked(Exec(s, steps))
    decreases |steps|
  {
    if steps != [] {
      assert steps[0] in steps;
      LeakExactly(s, steps[0]);
      CountedStep(s, steps[0]);
      ReleaseIsOwed(Next(s, steps[0]), steps[1..]);
    }
  }
}
