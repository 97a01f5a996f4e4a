/** The lease machine of the class in apps/void-sandbox/src/controller.ts. Each method is the code
    between two awaits; it takes any world in which the object stands for cell `id` and makes an
    enabled event of it. */
module SandboxController {
  import opened Options
  import opened SandboxWorld
  import opened Admission

  /** An event of another cell or of the admission cell leaves a cell as it is. */
  lemma OthersLeaveCell(w: World, e: Event, id: string)
    requires Enabled(w, e) && id in w.cells && (e.Deliver? || e.AdmissionAlarm? || e.id != id)
    ensures id in Do(w, e).cells && Do(w, e).cells[id] == w.cells[id]
  {
  }

  class Controller {
    var lease: Option<Lease>      // durable
    var running: bool             // this.container.running
    var start: StartOp            // what #startTail is running
    var finishing: StopOp         // what #finishing is running
    var confirms: set<nat>        // afterStart calls waiting for an answer
    var scheduled: bool           // whether an alarm is set
    var handler: AlarmOp          // where the handler of a fired alarm stands

    function Snapshot(): Cell
      reads this
    {
      Cell(lease, running, start, finishing, confirms, scheduled, handler)
    }

    predicate LeasePending()
      reads this
    {
      lease.Some? && lease.value.phase == Pending
    }

    /** The object is cell `id` of `w`. */
    predicate Stands(w: World, id: string)
      reads this
    {
      id in w.cells && w.cells[id] == Snapshot()
    }

    constructor ()
      ensures forall cap, ids, id :: id in ids ==> Stands(Init(cap, ids), id)
    {
      lease, running, start, finishing, confirms := None, false, Idle, NotStopping, {};
      scheduled, handler := false, NotFired;
    }

    /** The head of `beforeStart`: true when a running lease only needs a heartbeat. */
    method BeforeStart(ghost w: World, id: string) returns (heartbeat: bool)
      requires Stands(w, id) && start == Idle
      modifies this
      ensures !heartbeat ==> lease == old(lease) && !running && start == if lease.Some? then Clearing(false) else Minting
      ensures heartbeat == (old(lease).Some? && old(lease).value.phase == LeasePhase.Running && old(running))
      ensures heartbeat ==> Stands(w, id)
      ensures !heartbeat ==> Enabled(w, Of(id, BeginStart)) && Stands(Do(w, Of(id, BeginStart)), id)
    {
      heartbeat := lease.Some? && lease.value.phase == LeasePhase.Running && running;
      if heartbeat { return; }
      if lease.Some? {
        if running { running := false; }
        start := Clearing(false);
      } else {
        if running { running := false; }
        start := Minting;
      }
    }

    /** Past `await this.stopped()`: a container without a lease is never adopted. */
    method AfterClearing(ghost w: World, id: string)
      requires Stands(w, id) && StopReturned(Snapshot())
      modifies this
      ensures lease == old(lease) && !running && start == Minting
      ensures Enabled(w, Of(id, Cleared)) && Stands(Do(w, Of(id, Cleared)), id)
    {
      if running { running := false; }
      start := Minting;
    }

    /** The fresh lease is durable, and its alarm set, before its reserve is sent; `generation` is a new
        UUID. */
    method MintLease(ghost w: World, id: string, generation: string)
      requires Stands(w, id) && start == Minting && generation !in w.minted && ValidId(generation)
      modifies this
      ensures lease == Some(Lease(generation, Pending)) && start == Arming(generation)
      ensures Enabled(w, Of(id, Mint(generation))) && Stands(Do(w, Of(id, Mint(generation))), id)
    {
      lease := Some(Lease(generation, Pending));
      start := Arming(generation);
    }

    /** `#arm` of a start. */
    method ArmForStart(ghost w: World, id: string)
      requires Stands(w, id) && start.Arming?
      modifies this
      ensures scheduled && start == Sending(old(start).generation)
      ensures Enabled(w, Of(id, ArmStart)) && Stands(Do(w, Of(id, ArmStart)), id)
    {
      scheduled := true;
      start := Sending(start.generation);
    }

    method AskReserve(ghost w: World, id: string, call: nat) returns (request: Call)
      requires Stands(w, id) && start.Sending? && call !in w.sent
      modifies this
      ensures request == Call(ReserveCall, id, old(start).generation) && start == Asking
      ensures Enabled(w, Of(id, SendReserve(call))) && Stands(Do(w, Of(id, SendReserve(call))), id)
      ensures Do(w, Of(id, SendReserve(call))).sent == w.sent[call := request]
    {
      request := Call(ReserveCall, id, start.generation);
      start := Asking;
    }

    /** The start is over, admitted or not. */
    method StartEnded(ghost w: World, id: string)
      requires Stands(w, id)
      modifies this
      ensures start == Idle && lease == old(lease)
      ensures Enabled(w, Of(id, EndStart)) && Stands(Do(w, Of(id, EndStart)), id)
    {
      start := Idle;
    }

    /** `afterStart` up to its `started` call; `None` when it refuses or has nothing to confirm. */
    method AfterStart(ghost w: World, id: string, call: nat) returns (request: Option<Call>, refused: bool)
      requires Stands(w, id) && call !in w.sent
      requires running && LeasePending() ==> finishing == NotStopping   // assumed: no stop overlaps the call
      modifies this
      ensures request.Some? ==>
                && lease == old(lease) && lease.Some? && confirms == old(confirms) + {call}
                && request.value == Call(StartedCall, id, lease.value.generation)
      ensures refused == (old(lease).None? || old(lease).value.phase == LeasePhase.Stopped || !old(running))
      ensures request.Some? == (!refused && old(lease).value.phase == Pending)
      ensures request.None? ==> Stands(w, id)
      ensures request.Some? ==>
                && Enabled(w, Of(id, BeginConfirm(call))) && Stands(Do(w, Of(id, BeginConfirm(call))), id)
                && Do(w, Of(id, BeginConfirm(call))).sent == w.sent[call := request.value]
    {
      request := None;
      refused := lease.None? || lease.value.phase == LeasePhase.Stopped || !running;
      if refused { return; }
      if LeasePending() {
        confirms := confirms + {call};
        request := Some(Call(StartedCall, id, lease.value.generation));
      }
    }

    /** `afterStart` past an admitted answer: it writes back the lease it read before the call, the one
        whose generation the call named. */
    method Confirmed(ghost w: World, id: string, call: nat, read: Lease)
      requires Stands(w, id) && call in confirms && call in w.sent && w.sent[call].generation == read.generation
      requires call in w.replies && w.replies[call] == Admitted
      modifies this
      ensures lease == Some(Lease(read.generation, LeasePhase.Running)) && confirms == old(confirms) - {call}
      ensures var e := Of(id, PutRunning(call, read.generation)); Enabled(w, e) && Stands(Do(w, e), id)
    {
      lease := Some(read.(phase := LeasePhase.Running));
      confirms := confirms - {call};
    }

    /** `afterStart` past a denial or a timeout. */
    method Unconfirmed(ghost w: World, id: string, call: nat)
      requires Stands(w, id)
      modifies this
      ensures lease == old(lease) && confirms == old(confirms) - {call}
      ensures Enabled(w, Of(id, EndConfirm(call))) && Stands(Do(w, Of(id, EndConfirm(call))), id)
    {
      confirms := confirms - {call};
    }

    /** The head of `stopped`: joins a stop under way, and leaves a live container or no lease alone. */
    method Stopped(ghost w: World, id: string) returns (begun: bool)
      requires Stands(w, id)
      requires finishing == NotStopping && !running && lease.Some? ==> confirms == {}   // the same assumption
      modifies this
      ensures begun ==> lease == old(lease) && lease.Some? && finishing == Marking(lease.value.generation)
      ensures begun == (old(finishing) == NotStopping && !old(running) && old(lease).Some?)
      ensures !begun ==> Stands(w, id)
      ensures begun ==> Enabled(w, Of(id, BeginStop)) && Stands(Do(w, Of(id, BeginStop)), id)
    {
      begun := finishing == NotStopping && !running && lease.Some?;
      if begun { finishing := Marking(lease.value.generation); }
    }

    method PutStopped(ghost w: World, id: string)
      requires Stands(w, id) && finishing.Marking?
      modifies this
      ensures lease == Some(Lease(old(finishing).generation, LeasePhase.Stopped))
      ensures Enabled(w, Of(id, MarkStopped)) && Stands(Do(w, Of(id, MarkStopped)), id)
    {
      lease := Some(Lease(finishing.generation, LeasePhase.Stopped));
      finishing := Marked(finishing.generation);
    }

    /** `#arm` of a stop. */
    method ArmForStop(ghost w: World, id: string)
      requires Stands(w, id) && finishing.Marked?
      modifies this
      ensures scheduled && finishing == Releasing(old(finishing).generation)
      ensures Enabled(w, Of(id, ArmStop)) && Stands(Do(w, Of(id, ArmStop)), id)
    {
      scheduled := true;
      finishing := Releasing(finishing.generation);
    }

    method AskRelease(ghost w: World, id: string, call: nat) returns (request: Call)
      requires Stands(w, id) && finishing.Releasing? && call !in w.sent
      modifies this
      ensures request == Call(StoppedCall, id, old(finishing).generation)
      ensures finishing == AwaitingRelease(request.generation, call)
      ensures Enabled(w, Of(id, SendStopped(call))) && Stands(Do(w, Of(id, SendStopped(call))), id)
      ensures Do(w, Of(id, SendStopped(call))).sent == w.sent[call := request]
    {
      request := Call(StoppedCall, id, finishing.generation);
      finishing := AwaitingRelease(finishing.generation, call);
    }

    /** The release came back in time. */
    method ReleaseAnswered(ghost w: World, id: string)
      requires Stands(w, id) && finishing.AwaitingRelease? && finishing.call in w.replies
      modifies this
      ensures lease == old(lease) && finishing == Deleting(old(finishing).generation)
      ensures Enabled(w, Of(id, StopAnswered)) && Stands(Do(w, Of(id, StopAnswered)), id)
    {
      finishing := Deleting(finishing.generation);
    }

    /** Only now does the lease go. */
    method DropLease(ghost w: World, id: string)
      requires Stands(w, id) && finishing.Deleting?
      modifies this
      ensures lease == None && finishing == Unarming
      ensures Enabled(w, Of(id, DeleteLease)) && Stands(Do(w, Of(id, DeleteLease)), id)
    {
      lease := None;
      finishing := Unarming;
    }

    /** The last step of a stop; a start that waits for it goes on. */
    method DropAlarm(ghost w: World, id: string)
      requires Stands(w, id) && finishing == Unarming
      modifies this
      ensures !scheduled && finishing == NotStopping && (old(start).Clearing? ==> start == Clearing(true))
      ensures Enabled(w, Of(id, DeleteAlarm)) && Stands(Do(w, Of(id, DeleteAlarm)), id)
    {
      scheduled := false;
      finishing := NotStopping;
      if start.Clearing? { start := Clearing(true); }
    }

    /** The release timed out or threw: the stopped lease stays for the next attempt. */
    method ReleaseFailed(ghost w: World, id: string)
      requires Stands(w, id)
      modifies this
      ensures lease == old(lease) && finishing == NotStopping
      ensures Enabled(w, Of(id, EndStop)) && Stands(Do(w, Of(id, EndStop)), id)
    {
      finishing := NotStopping;
    }

    /** `#arm` at the end of `afterStart`, or after the heartbeat of a start that finds its lease running. */
    method ArmAgain(ghost w: World, id: string)
      requires Stands(w, id)
      modifies this
      ensures scheduled
      ensures Enabled(w, Of(id, Arm)) && Stands(Do(w, Of(id, Arm)), id)
    {
      scheduled := true;
    }

    /** The runtime calls `alarm`; the alarm is off the schedule. */
    method Alarm(ghost w: World, id: string)
      requires Stands(w, id) && scheduled && handler == NotFired
      modifies this
      ensures !scheduled && handler == Handling
      ensures Enabled(w, Of(id, AlarmFires)) && Stands(Do(w, Of(id, AlarmFires)), id)
    {
      scheduled := false;
      handler := Handling;
    }

    /** The `finally` of `alarm` looks for a lease. */
    method AlarmChecked(ghost w: World, id: string) returns (again: bool)
      requires Stands(w, id) && handler == Handling
      modifies this
      ensures again == old(lease).Some?
      ensures Enabled(w, Of(id, AlarmReads)) && Stands(Do(w, Of(id, AlarmReads)), id)
    {
      again := lease.Some?;
      handler := if again then Rearming else Returning;
    }

    /** `#arm` of the handler. */
    method AlarmRearmed(ghost w: World, id: string)
      requires Stands(w, id) && handler == Rearming
      modifies this
      ensures scheduled && handler == Returning
      ensures Enabled(w, Of(id, AlarmArms)) && Stands(Do(w, Of(id, AlarmArms)), id)
    {
      scheduled := true;
      handler := Returning;
    }

    method AlarmReturned(ghost w: World, id: string)
      requires Stands(w, id) && handler == Returning
      modifies this
      ensures scheduled == old(scheduled) && handler == NotFired
      ensures Enabled(w, Of(id, AlarmReturns)) && Stands(Do(w, Of(id, AlarmReturns)), id)
    {
      handler := NotFired;
    }

    /** The isolate died: the lease, the container and the alarm outlive it, and the runtime runs the
        handler of a fired alarm from its start. */
    method Restart(ghost w: World, id: string)
      requires Stands(w, id)
      modifies this
      ensures lease == old(lease) && running == old(running) && scheduled == old(scheduled)
      ensures start == Idle && finishing == NotStopping && confirms == {}
      ensures handler == if old(handler) == NotFired then NotFired else Handling
      ensures Enabled(w, Of(id, Crash)) && Stands(Do(w, Of(id, Crash)), id)
    {
      start, finishing, confirms := Idle, NotStopping, {};
      if handler != NotFired { handler := Handling; }
    }
  }
}
