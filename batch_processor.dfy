/** The trigger loop of batch_processor.py: each pass reads the trigger
    register and, when its value differs from the one last handled, runs the
    matching operation handler. A failure writes DATA_FORMAT_ERROR and ERROR
    and is counted; the trigger value is only remembered once its handling
    returned normally, so a failed operation is run again on the next pass
    that still reads the same value. */
module TriggerLoop {
  import opened Base
  import opened Enums
  import opened Exceptions
  import opened Collaborators
  import Status = StatusManager
  import Zanasi
  import opened ProcessingBatchManager

  /** `e.error_code or ErrorCodes.DATA_FORMAT_ERROR`: a missing code, and
      NO_ERROR (whose value 0 is falsy), fall back to DATA_FORMAT_ERROR. */
  function LoopErrorCode(t: Thrown): (code: ErrorCode)
    requires t.Lakeland?
    ensures CodeIsSet(t.e.errorCode) ==> code == t.e.errorCode.value
    ensures !CodeIsSet(t.e.errorCode) ==> code == DataFormatError
  {
    if CodeIsSet(t.e.errorCode) then t.e.errorCode.value else DataFormatError
  }

  /** How one pass of the loop ends. */
  datatype TickOutcome =
    | Stopped          // the `while` condition failed: not running, or shutdown requested
    | Continued        // the body, or the except clause that caught its exception, ran to the end
    | Escaped(t: Thrown)  // a write in the LakelandBatchException clause raised and left the loop

  /** An exception a handler passes on: raised by the handler (a
      BatchProcessingException) or by one of its register writes. Neither
      carries an error code. */
  predicate HandlerError(t: Thrown)
  {
    (IsInstance(t, BatchProcessing) || BusError(t)) && t.Lakeland? && t.e.errorCode == None
  }

  class BatchProcessor
  {
    const status: Status.StatusManager
    const manager: BatchManager
    var isRunning: bool
    var shutdownRequested: bool
    var lastTriggerState: TriggerState
    var operationCount: nat
    var errorCount: nat
    var lastError: Option<Thrown>

    /** The loop and the handlers share one status mirror. */
    predicate Valid()
      reads status, manager.zanasi, manager.bus
    {
      manager.status == status && manager.Valid()
    }

    constructor(manager: BatchManager)
      requires manager.Valid()
      ensures Valid() && this.manager == manager && status == manager.status
      ensures !isRunning && !shutdownRequested && lastTriggerState == TriggerIdle
      ensures operationCount == 0 && errorCount == 0 && lastError == None
    {
      this.manager := manager;
      status := manager.status;
      isRunning := false;
      shutdownRequested := false;
      lastTriggerState := TriggerIdle;
      operationCount := 0;
      errorCount := 0;
      lastError := None;
    }

    /** `_handle_download_batch`: run the download handler, passing on what it raises. */
    method HandleDownloadBatch() returns (failure: Option<Thrown>)
      requires Valid()
      modifies manager, status, manager.bus, manager.cloud
      ensures Valid()
      ensures failure.None? ==> manager.operationCount == old(manager.operationCount) + 1
      ensures failure.Some? ==> manager.operationCount == old(manager.operationCount) && HandlerError(failure.value)
      ensures Extends(old(manager.bus.replies), manager.bus.replies)
    {
      var done;
      ghost var fetched, current, read, image, wrote;
      done, fetched, current, read, image, wrote := manager.ProcessDownloadBatchTrigger();
      if done.Err? {
        return Some(done.error.raised);
      }
      failure := None;
    }

    /** `_handle_load_to_zanasi`: run the load handler, passing on what it raises. */
    method HandleLoadToZanasi() returns (failure: Option<Thrown>)
      requires Valid()
      modifies manager, status, manager.bus, manager.zanasi, manager.zanasi.printhead1, manager.zanasi.printhead2
      ensures Valid()
      ensures failure.None? ==> manager.operationCount == old(manager.operationCount) + 1
      ensures failure.Some? ==> manager.operationCount == old(manager.operationCount) && HandlerError(failure.value)
      ensures Extends(old(manager.bus.replies), manager.bus.replies)
    {
      var done;
      ghost var b, selected, words, contacted;
      done, b, selected, words, contacted := manager.ProcessLoadToZanasiTrigger();
      if done.Err? {
        return Some(done.error.raised);
      }
      failure := None;
    }

    /** The handler `newTrigger` selects, if any. */
    method Dispatch(newTrigger: TriggerState) returns (failure: Option<Thrown>)
      requires Valid()
      modifies manager, status, manager.bus, manager.cloud, manager.zanasi,
               manager.zanasi.printhead1, manager.zanasi.printhead2
      ensures Valid()
      ensures newTrigger == TriggerIdle ==> failure.None? && manager.bus.log == old(manager.bus.log)
                                            && manager.operationCount == old(manager.operationCount)
      ensures newTrigger != TriggerIdle && failure.None? ==> manager.operationCount == old(manager.operationCount) + 1
      ensures failure.Some? ==> newTrigger != TriggerIdle && HandlerError(failure.value)
      ensures Extends(old(manager.bus.replies), manager.bus.replies)
    {
      if newTrigger == DownloadBatch {
        failure := HandleDownloadBatch();
      } else if newTrigger == LoadToZanasi {
        failure := HandleLoadToZanasi();
      } else {
        failure := None;
      }
    }

    /** `_process_trigger_change`: dispatch, count the operation, or on
        failure write DATA_FORMAT_ERROR and ERROR and raise again. A write
        that raises replaces the handler's exception. `handlerError` is what
        the handler raised, if anything. */
    method ProcessTriggerChange(oldTrigger: TriggerState, newTrigger: TriggerState)
      returns (r: Result<bool, Thrown>, ghost handlerError: Option<Thrown>)
      requires Valid()
      modifies this, manager, status, manager.bus, manager.cloud, manager.zanasi,
               manager.zanasi.printhead1, manager.zanasi.printhead2
      ensures Valid()
      ensures r.Ok? <==> handlerError.None?
      ensures r.Ok? ==> operationCount == old(operationCount) + 1
      ensures r.Err? ==> operationCount == old(operationCount)
      ensures newTrigger == TriggerIdle ==> r.Ok? && manager.bus.log == old(manager.bus.log)
      ensures handlerError.Some? ==> newTrigger != TriggerIdle && HandlerError(handlerError.value)
      ensures r.Err? ==> (r == Err(handlerError.value) && EndsWith(manager.bus.log, FailureOps(DataFormatError)))
                         || BusError(r.error)
      ensures r.Err? ==> HandlerError(r.error)
      ensures lastTriggerState == old(lastTriggerState) && errorCount == old(errorCount) && lastError == old(lastError)
      ensures isRunning == old(isRunning) && shutdownRequested == old(shutdownRequested)
      ensures Extends(old(manager.bus.replies), manager.bus.replies)
    {
      var failure := Dispatch(newTrigger);
      handlerError := failure;
      if failure.None? {
        operationCount := operationCount + 1;
        return Ok(true), handlerError;
      }
      ghost var start := manager.bus.log;
      var w1 := status.SetErrorCode(DataFormatError);
      if w1.Err? {
        return Err(w1.error), handlerError;
      }
      var w2 := status.SetProcessingStatus(ProcError);
      if w2.Err? {
        return Err(w2.error), handlerError;
      }
      assert manager.bus.log == start + FailureOps(DataFormatError);
      r := Err(failure.value);
    }

    /** The `except LakelandBatchException` clause of the loop: count the
        error, then write its code (or DATA_FORMAT_ERROR) and ERROR; the
        `except Exception` clause only counts. */
    method HandleLoopException(t: Thrown) returns (outcome: TickOutcome)
      requires Valid()
      modifies this, status, manager.bus
      ensures Valid()
      ensures errorCount == old(errorCount) + 1 && lastError == Some(t)
      ensures t.Foreign? ==> outcome == Continued && manager.bus.log == old(manager.bus.log)
      ensures t.Lakeland? && outcome == Continued ==>
                manager.bus.log == old(manager.bus.log) + FailureOps(LoopErrorCode(t))
      ensures outcome != Stopped
      ensures outcome.Escaped? ==> t.Lakeland? && BusError(outcome.t)
      ensures operationCount == old(operationCount) && lastTriggerState == old(lastTriggerState)
      ensures isRunning == old(isRunning) && shutdownRequested == old(shutdownRequested)
      ensures Extends(old(manager.bus.replies), manager.bus.replies)
    {
      errorCount := errorCount + 1;
      lastError := Some(t);
      if t.Foreign? {
        return Continued;
      }
      ghost var start := manager.bus.log;
      var code := LoopErrorCode(t);
      var w1 := status.SetErrorCode(code);
      if w1.Err? {
        return Escaped(w1.error);
      }
      var w2 := status.SetProcessingStatus(ProcError);
      if w2.Err? {
        return Escaped(w2.error);
      }
      assert manager.bus.log == start + FailureOps(code);
      outcome := Continued;
    }

    /** One pass of `_main_processing_loop`, the sleeps left out. `read` is
        the trigger value read, if the read went through; `caught` the
        exception that reached the loop's except clauses, if any. */
    method Tick() returns (outcome: TickOutcome, ghost read: Option<TriggerState>, ghost caught: Option<Thrown>)
      requires Valid()
      modifies this, manager, status, manager.bus, manager.cloud, manager.zanasi,
               manager.zanasi.printhead1, manager.zanasi.printhead2
      ensures Valid()
      ensures outcome == Stopped <==> !(old(isRunning) && !old(shutdownRequested))
      ensures outcome == Stopped ==> read.None? && caught.None? && manager.bus.log == old(manager.bus.log)
      ensures read.Some? && read.value == old(lastTriggerState) ==>
                outcome == Continued && caught.None? && manager.bus.log == old(manager.bus.log) + [ReadOp(TriggerRegister, 1)]
      ensures lastTriggerState == if read.Some? && caught.None? then read.value else old(lastTriggerState)
      ensures operationCount == old(operationCount)
                + if read.Some? && read.value != old(lastTriggerState) && caught.None? then 1 else 0
      ensures errorCount == old(errorCount) + if caught.Some? then 1 else 0
      ensures lastError == if caught.Some? then caught else old(lastError)
      ensures caught.Some? && caught.value.Foreign? ==>
                read.None? && outcome == Continued && manager.bus.log == old(manager.bus.log) + [ReadOp(TriggerRegister, 1)]
      ensures caught.Some? && caught.value.Lakeland? ==>
                caught.value.e.errorCode == None
                && (outcome == Continued ==> EndsWith(manager.bus.log, FailureOps(DataFormatError)))
      ensures outcome.Escaped? ==> caught.Some? && BusError(outcome.t)
      ensures isRunning == old(isRunning) && shutdownRequested == old(shutdownRequested)
      ensures read.Some? ==> RepliedAt(old(manager.bus.replies), manager.bus.replies, 0, Words([read.value.Code()]))
    {
      read, caught := None, None;
      if !(isRunning && !shutdownRequested) {
        return Stopped, read, caught;
      }
      var failure: Option<Thrown> := None;
      var current;
      ghost var word;
      current, word := status.GetCurrentTrigger();
      if current.Err? {
        failure := Some(current.error);
      } else {
        read := Some(current.value);
        ghost var replied := manager.bus.replies;
        if current.value != lastTriggerState {
          var changed;
          ghost var handlerError;
          changed, handlerError := ProcessTriggerChange(lastTriggerState, current.value);
          RepliedStays(old(manager.bus.replies), replied, manager.bus.replies, 0, Words([word]));
          if changed.Ok? {
            lastTriggerState := current.value;
          } else {
            failure := Some(changed.error);
          }
        }
      }
      caught := failure;
      if failure.None? {
        return Continued, read, caught;
      }
      ghost var handled := manager.bus.replies;
      outcome := HandleLoopException(failure.value);
      if read.Some? {
        RepliedStays(old(manager.bus.replies), handled, manager.bus.replies, 0, Words([read.value.Code()]));
      }
    }

    /** `_main_processing_loop` for at most `ticks` passes: it stops when
        the `while` condition fails or an exception escapes. Each pass counts
        at most one operation or one error. */
    method Run(ticks: nat) returns (outcome: TickOutcome, passes: nat)
      requires Valid()
      modifies this, manager, status, manager.bus, manager.cloud, manager.zanasi,
               manager.zanasi.printhead1, manager.zanasi.printhead2
      ensures Valid()
      ensures passes <= ticks && (passes < ticks ==> outcome != Continued)
      ensures old(operationCount) <= operationCount && old(errorCount) <= errorCount
      ensures operationCount + errorCount <= old(operationCount) + old(errorCount) + passes
    {
      outcome, passes := Continued, 0;
      while passes < ticks && outcome == Continued
        invariant Valid() && passes <= ticks
        invariant old(operationCount) <= operationCount && old(errorCount) <= errorCount
        invariant operationCount + errorCount <= old(operationCount) + old(errorCount) + passes
      {
        ghost var read, caught;
        outcome, read, caught := Tick();
        passes := passes + 1;
      }
    }
  }
}
