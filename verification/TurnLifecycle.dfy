/**
  One chat request, from the moment its turn is opened: the agent, the guards, the stores and the
  telemetry record. Everything that can fail has a switch, so a statement about all faults covers
  every combination of failures.
 */
module TurnLifecycle {
  import opened Prelude

  /** What the agent makes of the turn: a payload may already say "error", or not be JSON at all. */
  datatype AgentRun = Cancelled | Raised | Answered(isError: bool, serializable: bool, hasMarkup: bool)

  /** The last scan of the outgoing bytes; a hit is replaced, and the replacement may fail too. */
  datatype BoundaryScan = Clean | Hit | HitNotReplaced | ScanFailed

  datatype Faults = Faults(
    agent: AgentRun, guardScanFails: bool, snapshotFails: bool, persistFails: bool, failTurnFails: bool,
    clearFails: bool, responseFails: bool, boundary: BoundaryScan, hookFails: bool, emitFails: bool, flagFails: bool)

  datatype TurnOutcome = Success | AgentError | Crash | ServerError

  datatype TurnRecord = TurnRecord(status: int, outcome: TurnOutcome)

  /** The stored turn. */
  datatype Turn = Running | Completed(hasSnapshot: bool) | Failed

  const CLIENT_CLOSED: int := 499

  /** What a call ends with: a response, an exception, or a cancellation. */
  datatype Ending = Responded(status: int) | Uncaught | Abandoned

  /** An answer that can be delivered as it is. */
  predicate Deliverable(f: Faults) {
    && f.agent.Answered? && !f.agent.isError && f.agent.serializable
    && !f.agent.hasMarkup && !f.guardScanFails && !f.snapshotFails
  }

  /** The turn ends as failed: the agent, a guard or the snapshot failed. */
  predicate TerminalFailed(f: Faults) {
    !f.agent.Cancelled? && !Deliverable(f)
  }

  /** Something raised or was blocked, as opposed to an agent that reports an error itself. */
  predicate Crashes(f: Faults) {
    || f.agent.Raised?
    || (f.agent.Answered? && (!f.agent.serializable || f.agent.hasMarkup || f.guardScanFails
                              || (!f.agent.isError && f.snapshotFails)))
  }

  predicate NotSerializable(f: Faults) {
    f.agent.Answered? && !f.agent.serializable
  }

  /** The endpoint ends with an exception: the stores or the response failed. */
  predicate EndsUncaught(f: Faults) {
    !f.agent.Cancelled? && (f.persistFails || (TerminalFailed(f) && f.clearFails) || f.responseFails)
  }

  class Request {
    var records: seq<TurnRecord>
    var emitted: bool
    var turn: Turn
    var cleared: bool

    constructor ()
      ensures Fresh()
    {
      records, emitted, turn, cleared := [], false, Running, false;
    }

    predicate Fresh()
      reads this
    {
      records == [] && !emitted && turn == Running && !cleared
    }

    /** _emit_canary_turn: never raises; setting the flag afterwards may fail on its own. */
    method Emit(status: int, outcome: TurnOutcome, f: Faults)
      modifies this`records, this`emitted
      ensures records == old(records) + if f.emitFails then [] else [TurnRecord(status, outcome)]
      ensures emitted <==> old(emitted) || (!f.emitFails && !f.flagFails)
    {
      if !f.emitFails {
        records := records + [TurnRecord(status, outcome)];
        if !f.flagFails {
          emitted := true;
        }
      }
    }

    /** _emit_canary_boundary_5xx: nothing if the flag says that the record is out. */
    method EmitBoundary(f: Faults)
      modifies this`records, this`emitted
      ensures records == old(records) + if old(emitted) || f.emitFails then [] else [TurnRecord(500, ServerError)]
      ensures emitted <==> old(emitted) || (!f.emitFails && !f.flagFails)
    {
      if emitted {
        return;
      }
      Emit(500, ServerError, f);
    }

    /** The guards over what the agent made of the turn, and the snapshot of an answer that passes them. */
    method Judge(f: Faults) returns (crashed: bool, terminalFailed: bool)
      requires !f.agent.Cancelled?
      ensures crashed <==> Crashes(f)
      ensures terminalFailed <==> TerminalFailed(f)
    {
      var isError := f.agent.Raised? || f.agent.isError;
      crashed := f.agent.Raised?;
      var serializationFailed := f.agent.Answered? && !f.agent.serializable;
      var blocked := false;
      if serializationFailed {
        isError := true;
      } else if f.guardScanFails || (f.agent.Answered? && f.agent.hasMarkup) {
        blocked, isError := true, true;
      }
      if blocked || serializationFailed {
        crashed := true;
      }
      terminalFailed := crashed || isError;
      if !terminalFailed && f.snapshotFails {
        crashed, terminalFailed := true, true;
      }
    }

    /** api_alex, from the open turn to its end. */
    method RunTurn(f: Faults) returns (ending: Ending)
      requires Fresh()
      modifies this
      ensures ending.Abandoned? <==> f.agent.Cancelled?
      ensures ending.Uncaught? <==> EndsUncaught(f)
      ensures ending.Uncaught? ==> records == [] && !emitted
      ensures !ending.Uncaught? ==> |records| == if f.emitFails then 0 else 1
      ensures ending.Abandoned? && records != [] ==> records == [TurnRecord(CLIENT_CLOSED, Crash)]
      ensures ending.Responded? && records != [] ==> records[0].status == ending.status
      ensures ending.Responded? ==> ending.status in {200, 500, 502}
      ensures ending == Responded(200) <==>
                Deliverable(f) && !f.persistFails && !f.responseFails && !f.boundary.Hit?
      ensures ending.Responded? ==> (ending == Responded(500) <==> NotSerializable(f) && !f.boundary.Hit?)
      ensures turn == Completed(true) <==> Deliverable(f) && !f.persistFails
      ensures turn == Completed(true) || turn == Failed || turn == Running
      ensures turn == Running <==> f.agent.Cancelled? || (f.persistFails && f.failTurnFails)
      ensures ending.Responded? && records != [] ==>
                && (records[0].outcome == ServerError <==> NotSerializable(f))
                && (records[0].outcome == Crash <==> Crashes(f) && !NotSerializable(f))
                && (records[0].outcome == Success <==> ending.status == 200 && !f.boundary.HitNotReplaced?)
      ensures TerminalFailed(f) || (f.persistFails && !f.agent.Cancelled?) ==> cleared || f.clearFails
      ensures Deliverable(f) && !f.persistFails ==> !cleared
      ensures f.agent.Cancelled? || f.clearFails ==> !cleared
    {
      if f.agent.Cancelled? {
        Emit(CLIENT_CLOSED, Crash, f);
        return Abandoned;
      }
      var crashed, terminalFailed := Judge(f);
      var isError, serializationFailed := terminalFailed, f.agent.Answered? && !f.agent.serializable;

      if f.persistFails {
        if !f.failTurnFails {
          turn := Failed;
        }
        if !f.clearFails {
          cleared := true;
        }
        return Uncaught;
      }
      turn := if terminalFailed then Failed else Completed(true);

      if terminalFailed {
        if f.clearFails {
          return Uncaught;
        }
        cleared := true;
      }

      var status := if serializationFailed then 500 else if terminalFailed then 502 else 200;
      if f.responseFails {
        return Uncaught;
      }
      match f.boundary {
        case Clean =>
        case ScanFailed =>
        case Hit =>
          status, isError := 502, true;
        case HitNotReplaced =>
          isError := true;
      }

      Emit(status, if serializationFailed then ServerError else if crashed then Crash else if isError then AgentError else Success, f);
      ending := Responded(status);
    }

    /**
      The request as the server runs it. An exception of the endpoint goes to the handler of uncaught
      errors, which writes the boundary record; one of an after-request hook goes to the handler of
      HTTP errors, which answers 500 and writes none.
     */
    method Serve(f: Faults) returns (status: Option<int>)
      requires Fresh()
      modifies this
      ensures |records| == if f.emitFails then 0 else 1
      ensures status.None? <==> f.agent.Cancelled?
      ensures EndsUncaught(f) && records != [] ==> records[0] == TurnRecord(500, ServerError)
      ensures status.None? && records != [] ==> records[0].status == CLIENT_CLOSED
      ensures status.Some? && f.hookFails ==> status == Some(500)
      ensures status.Some? && records != [] ==>
                (records[0].status == status.value <==>
                   !f.hookFails || EndsUncaught(f) || (NotSerializable(f) && !f.boundary.Hit?))
      ensures status.Some? && records != [] ==>
                (records[0].status == 200 <==>
                   Deliverable(f) && !f.persistFails && !f.responseFails && !f.boundary.Hit?)
      ensures records != [] && records[0].status == 200 ==>
                && turn == Completed(true)
                && (records[0].outcome == Success <==> !f.boundary.HitNotReplaced?)
      ensures status == Some(200) ==> turn == Completed(true)
      ensures status == Some(200) <==>
                Deliverable(f) && !f.persistFails && !f.responseFails && !f.boundary.Hit? && !f.hookFails
      ensures turn == Running <==> f.agent.Cancelled? || (f.persistFails && f.failTurnFails)
      ensures status == Some(200) <==>
                && f.agent == Answered(false, true, false) && !f.guardScanFails && !f.snapshotFails
                && !f.persistFails && !f.responseFails && f.boundary != Hit && !f.hookFails
      ensures status == Some(502) <==>
                && !f.hookFails && !f.persistFails && !f.responseFails && f.agent != Cancelled
                && (f.boundary == Hit || !f.agent.Answered? || f.agent.serializable)
                && (f.boundary == Hit || f.agent != Answered(false, true, false) || f.guardScanFails || f.snapshotFails)
                && ((f.agent == Answered(false, true, false) && !f.guardScanFails && !f.snapshotFails) || !f.clearFails)
      ensures status in {None, Some(200), Some(500), Some(502)}
      ensures turn == Completed(true) <==>
                && f.agent == Answered(false, true, false) && !f.guardScanFails && !f.snapshotFails && !f.persistFails
      ensures records != [] ==> (records[0].outcome == Success <==>
                && f.agent == Answered(false, true, false) && !f.guardScanFails && !f.snapshotFails
                && !f.persistFails && !f.responseFails && f.boundary in {Clean, ScanFailed})
      ensures records != [] ==> (records[0].status == 499 <==> f.agent == Cancelled)
      ensures records != [] ==> (records[0].outcome == ServerError <==>
                && f.agent != Cancelled
                && (f.persistFails || f.responseFails || (f.agent.Answered? && !f.agent.serializable)
                    || (f.clearFails && (f.agent != Answered(false, true, false) || f.guardScanFails || f.snapshotFails))))
      ensures records != [] && records[0].outcome == AgentError ==>
                && f.agent.Answered? && f.agent.serializable && !f.agent.hasMarkup && !f.guardScanFails
                && (f.agent.isError || (!f.snapshotFails && f.boundary in {Hit, HitNotReplaced}))
      ensures records != [] && records[0].outcome == Crash ==>
                || !f.agent.Answered?
                || (f.agent.serializable && (f.agent.hasMarkup || f.guardScanFails || (!f.agent.isError && f.snapshotFails)))
      ensures cleared <==>
                && f.agent != Cancelled && !f.clearFails
                && (f.persistFails || f.agent != Answered(false, true, false) || f.guardScanFails || f.snapshotFails)
    {
      var ending := RunTurn(f);
      if ending.Abandoned? {
        return None;
      }
      if ending.Uncaught? {
        EmitBoundary(f);
        status := Some(500);
      } else {
        status := Some(ending.status);
      }
      if f.hookFails {
        status := Some(500);
      }
    }
  }

  /** A good answer, and a hook that fails after it. */
  const LATE_HOOK_FAILURE: Faults := Faults(
    Answered(false, true, false), false, false, false, false, false, false, Clean, true, false, false)

  /** The record of such a request says 200, and the client gets a 500. */
  method RecordCanBeWrong() returns (request: Request, status: Option<int>)
    ensures request.records == [TurnRecord(200, Success)] && request.turn == Completed(true) && status == Some(500)
  {
    request := new Request();
    status := request.Serve(LATE_HOOK_FAILURE);
  }
}
