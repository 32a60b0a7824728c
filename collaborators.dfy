/** The two outside parties the operation handlers talk to, seen only
    through their interfaces: the controller's holding registers
    (communication/modbus_client.py) and the cloud batch list
    (communication/firebase_client.py, `fetch_batch_data`). What the wire
    does is left open: every call may succeed or fail, and the model only
    fixes what the interface promises about each outcome. Both keep a
    model-only record of the requests that reached the other side and of
    what came back, so that callers can state the order of their register
    traffic and tie what they return to what they were answered. */
module Collaborators {
  import opened Base
  import opened Values
  import opened Exceptions
  import FirebaseResponse

  /** A request that reached the controller. */
  datatype BusOp = ReadOp(register: nat, count: nat) | WriteOp(register: nat, values: seq<int>)

  /** The controller's answer to a request that reached it: the words read,
      the success flag of a write, or the exception the call raised. */
  datatype Reply = Words(words: seq<int>) | Accepted(accepted: bool) | Raised(error: Thrown)

  /** `after` is `before` with more entries appended. */
  predicate Extends<T(==)>(before: seq<T>, after: seq<T>)
  {
    |before| <= |after| && after[..|before|] == before
  }

  /** Appending twice is appending. */
  lemma ExtendsTrans<T>(a: seq<T>, b: seq<T>, c: seq<T>)
    requires Extends(a, b) && Extends(b, c)
    ensures Extends(a, c)
  {
    assert c[..|a|] == c[..|b|][..|a|];
  }

  /** The reply `k` places after `before` in `after` is `reply`. */
  ghost predicate RepliedAt(before: seq<Reply>, after: seq<Reply>, k: nat, reply: Reply)
  {
    |before| + k < |after| && after[|before| + k] == reply
  }

  /** A reply stays where it is when more replies are appended. */
  lemma RepliedStays(before: seq<Reply>, mid: seq<Reply>, after: seq<Reply>, k: nat, reply: Reply)
    requires RepliedAt(before, mid, k, reply) && Extends(mid, after)
    ensures RepliedAt(before, after, k, reply)
  {
    assert after[|before| + k] == after[..|mid|][|before| + k];
  }

  /** What a register call may raise: a ModbusException, or the
      RetryExhaustedException of a failed reconnection; neither carries an
      error code. */
  predicate BusError(t: Thrown)
  {
    t.Lakeland? && (t.e.kind == Modbus || t.e.kind == RetryExhausted) && t.e.errorCode == None
  }

  /** `ModbusException(message, register=register)`. */
  function ModbusError(message: string, register: int): (t: Thrown)
    ensures t.Lakeland? && t.e.kind == Modbus && t.e.message == message && t.e.errorCode == None
  {
    Raise(message, ModbusCtx(Some(register), None, None, None), NoKwargs)
  }

  /** The RetryExhaustedException `connect` raises after its last attempt. */
  function ReconnectFailed(attempts: nat): (t: Thrown)
    ensures t.Lakeland? && t.e.kind == RetryExhausted && t.e.errorCode == None
  {
    Raise("Failed to connect to PLC after " + NatToDecimal(attempts) + " attempts",
          RetryExhaustedCtx(Some(attempts), None), NoKwargs)
  }

  predicate IsWord(v: int) { 0 <= v <= 65535 }

  /** The index of the first value a multi-register write refuses, if any. */
  function FirstBadValue(values: seq<int>): (k: nat)
    ensures k <= |values|
    ensures forall j :: 0 <= j < k ==> IsWord(values[j])
    ensures k < |values| ==> !IsWord(values[k])
  {
    FirstFailure(values, IsWord)
  }

  /** The controller's holding registers. */
  class RegisterBus
  {
    const retryAttempts: nat
    /** Model-only: the requests that reached the controller, oldest first. */
    var log: seq<BusOp>
    /** Model-only: the answer to each request of `log`, at the same position. */
    var replies: seq<Reply>
    /** Model-only: how many calls raised before their request went out
        (a failed reconnection, or a value refused before sending). */
    var unsent: nat

    /** Every request in the log has its answer beside it. */
    predicate Paired()
      reads this
    {
      |replies| == |log|
    }

    constructor(retryAttempts: nat)
      ensures this.retryAttempts == retryAttempts && log == [] && replies == [] && unsent == 0
      ensures Paired()
    {
      this.retryAttempts := retryAttempts;
      log := [];
      replies := [];
      unsent := 0;
    }

    /** `ensure_connected`: either the link is up or reconnection gives up. */
    method EnsureConnected() returns (failure: Option<Thrown>)
      ensures failure.Some? ==> failure.value == ReconnectFailed(retryAttempts)
    {
      var up: bool :| true;
      failure := if up then None else Some(ReconnectFailed(retryAttempts));
    }

    /** `read_holding_register(register, count)`: `count` words, or an error. */
    method ReadHoldingRegisters(register: nat, count: nat) returns (r: Result<seq<Word>, Thrown>)
      modifies this
      ensures r.Ok? ==> |r.value| == count && log == old(log) + [ReadOp(register, count)]
                        && replies == old(replies) + [Words(r.value)]
      ensures Extends(old(replies), replies) && |replies| - |log| == old(|replies| - |log|)
      ensures r.Err? ==> BusError(r.error)
      ensures r.Err? ==> (log == old(log) && replies == old(replies))
                         || (log == old(log) + [ReadOp(register, count)] && replies == old(replies) + [Raised(r.error)])
      ensures unsent == old(unsent) + if r.Err? && log == old(log) then 1 else 0
    {
      var failure := EnsureConnected();
      if failure.Some? {
        unsent := unsent + 1;
        return Err(failure.value);
      }
      log := log + [ReadOp(register, count)];
      r := ReadAnswer(register, count);
      replies := replies + [if r.Ok? then Words(r.value) else Raised(r.error)];
    }

    /** What the controller answers a read that went out: `count` words, or
        the ModbusException for an error response. */
    method ReadAnswer(register: nat, count: nat) returns (r: Result<seq<Word>, Thrown>)
      ensures r.Ok? ==> |r.value| == count
      ensures r.Err? ==> BusError(r.error)
    {
      var answered: bool :| true;
      if answered {
        var words: seq<Word> :| |words| == count by {
          assert |Zeros(count)| == count;
        }
        r := Ok(words);
      } else {
        var text: string :| true;
        r := Err(ModbusError(text, register));
      }
    }

    /** The one-register form, whose Python result is a bare int. */
    method ReadHoldingRegister(register: nat) returns (r: Result<Word, Thrown>)
      modifies this
      ensures r.Ok? ==> log == old(log) + [ReadOp(register, 1)] && replies == old(replies) + [Words([r.value])]
      ensures Extends(old(replies), replies) && |replies| - |log| == old(|replies| - |log|)
      ensures r.Err? ==> BusError(r.error)
      ensures r.Err? ==> (log == old(log) && replies == old(replies))
                         || (log == old(log) + [ReadOp(register, 1)] && replies == old(replies) + [Raised(r.error)])
      ensures unsent == old(unsent) + if r.Err? && log == old(log) then 1 else 0
    {
      var words := ReadHoldingRegisters(register, 1);
      r := if words.Ok? then Ok(words.value[0]) else Err(words.error);
      if words.Ok? {
        assert words.value == [words.value[0]];
      }
    }

    /** `write_holding_register`: a value outside 0..65535 is refused before
        anything is sent; otherwise the controller answers. */
    method WriteHoldingRegister(register: nat, value: int) returns (r: Result<bool, Thrown>)
      modifies this
      ensures !IsWord(value) ==> r.Err? && log == old(log) && replies == old(replies)
      ensures r.Ok? ==> log == old(log) + [WriteOp(register, [value])] && replies == old(replies) + [Accepted(r.value)]
      ensures Extends(old(replies), replies) && |replies| - |log| == old(|replies| - |log|)
      ensures r.Err? ==> BusError(r.error)
      ensures r.Err? ==> (log == old(log) && replies == old(replies))
                         || (log == old(log) + [WriteOp(register, [value])] && replies == old(replies) + [Raised(r.error)])
      ensures unsent == old(unsent) + if r.Err? && log == old(log) then 1 else 0
    {
      var failure := EnsureConnected();
      if failure.Some? {
        unsent := unsent + 1;
        return Err(failure.value);
      }
      if !IsWord(value) {
        unsent := unsent + 1;
        return Err(ModbusError("Register value out of range (0-65535): " + IntToDecimal(value), register));
      }
      log := log + [WriteOp(register, [value])];
      r := Answer(register);
      replies := replies + [if r.Ok? then Accepted(r.value) else Raised(r.error)];
    }

    /** `write_holding_registers`: every value is checked before anything is sent. */
    method WriteHoldingRegisters(start: nat, values: seq<int>) returns (r: Result<bool, Thrown>)
      modifies this
      ensures FirstBadValue(values) < |values| ==> r.Err? && log == old(log) && replies == old(replies)
      ensures r.Ok? ==> log == old(log) + [WriteOp(start, values)] && replies == old(replies) + [Accepted(r.value)]
      ensures Extends(old(replies), replies) && |replies| - |log| == old(|replies| - |log|)
      ensures r.Err? ==> BusError(r.error)
      ensures r.Err? ==> (log == old(log) && replies == old(replies))
                         || (log == old(log) + [WriteOp(start, values)] && replies == old(replies) + [Raised(r.error)])
      ensures unsent == old(unsent) + if r.Err? && log == old(log) then 1 else 0
    {
      var failure := EnsureConnected();
      if failure.Some? {
        unsent := unsent + 1;
        return Err(failure.value);
      }
      var i := 0;
      while i < |values|
        invariant 0 <= i <= |values|
        invariant forall j :: 0 <= j < i ==> IsWord(values[j])
      {
        if !IsWord(values[i]) {
          unsent := unsent + 1;
          return Err(ModbusError("Invalid value at index " + NatToDecimal(i) + ": " + IntToDecimal(values[i])
                                   + " (must be 0-65535)", start + i));
        }
        i := i + 1;
      }
      log := log + [WriteOp(start, values)];
      r := Answer(start);
      replies := replies + [if r.Ok? then Accepted(r.value) else Raised(r.error)];
    }

    /** The controller's reply to a write that was sent. */
    method Answer(register: nat) returns (r: Result<bool, Thrown>)
      ensures Extends(old(replies), replies) && |replies| - |log| == old(|replies| - |log|)
      ensures r.Err? ==> BusError(r.error)
    {
      var answered: bool :| true;
      if answered {
        var accepted: bool :| true;
        r := Ok(accepted);
      } else {
        var text: string :| true;
        r := Err(ModbusError(text, register));
      }
    }
  }

  /** What `fetch_batch_data` may raise to its caller. */
  predicate FetchError(t: Thrown)
  {
    IsInstance(t, Firebase) || IsInstance(t, RetryExhausted)
  }

  /** The cloud batch list. */
  class CloudSource
  {
    const retryAttempts: nat
    /** Model-only: the outcome of every fetch made, oldest first. */
    var responses: seq<Result<seq<Record>, Thrown>>

    constructor(retryAttempts: nat)
      ensures this.retryAttempts == retryAttempts && responses == []
    {
      this.retryAttempts := retryAttempts;
      responses := [];
    }

    /** `fetch_batch_data`: the normalised entries of some response, or the
        exception the HTTP layer ends with. */
    method FetchBatchData() returns (r: Result<seq<Record>, Thrown>)
      modifies this
      ensures responses == old(responses) + [r]
      ensures r.Ok? ==> exists p :: FirebaseResponse.ProcessedResponse(p) == Ok(r.value)
      ensures r.Ok? ==> |r.value| <= 5 && forall i :: 0 <= i < |r.value| ==> FirebaseResponse.Normalised(r.value[i])
      ensures r.Err? ==> FetchError(r.error)
    {
      var p: Payload :| true;
      var answered: bool :| true;
      var processed := FirebaseResponse.ProcessedResponse(p);
      if answered && processed.Ok? {
        FirebaseResponse.ProcessedNormalised(p);
        r := Ok(processed.value);
        responses := responses + [r];
        return;
      }
      // A 404, 401 or 403 answer, or an undecodable body, ends the fetch at once;
      // anything else is retried until the attempts run out.
      var refused: bool :| true;
      if refused {
        var text: string :| true;
        var status: int :| true;
        r := Err(Raise(text, FirebaseCtx(None, Some(status), None, None), NoKwargs));
      } else {
        r := Err(Raise("Failed to fetch batch data after " + NatToDecimal(retryAttempts) + " attempts",
                       RetryExhaustedCtx(Some(retryAttempts), None), NoKwargs));
      }
      responses := responses + [r];
    }
  }
}
