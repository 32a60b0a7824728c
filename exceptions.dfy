/** The exception taxonomy of the bridge (core/exceptions.py): which kind
    carries which error code and component, how `.details` is assembled from
    the keyword arguments, `__str__`, `to_dict` and the small wrapping helpers. */
module Exceptions {
  import opened Base
  import opened Values
  import opened Enums

  /** The exception classes; every one of them is a LakelandBatchException. */
  datatype Kind =
    | LakelandBatch | Connection | Modbus | Firebase | Zanasi | DataValidation | BatchProcessing
    | Register | Configuration | Timeout | RetryExhausted | State | CriticalSystem
  {
    function ClassName(): string
    {
      match this
      case LakelandBatch => "LakelandBatchException"
      case Connection => "ConnectionException"
      case Modbus => "ModbusException"
      case Firebase => "FirebaseException"
      case Zanasi => "ZanasiException"
      case DataValidation => "DataValidationException"
      case BatchProcessing => "BatchProcessingException"
      case Register => "RegisterException"
      case Configuration => "ConfigurationException"
      case Timeout => "TimeoutException"
      case RetryExhausted => "RetryExhaustedException"
      case State => "StateException"
      case CriticalSystem => "CriticalSystemException"
    }

    /** `issubclass(self, ConnectionException)`. */
    predicate IsConnection()
    {
      this == Connection || this == Modbus || this == Firebase || this == Zanasi
    }
  }

  /** `issubclass(k, parent)` within the taxonomy. */
  predicate SubclassOf(k: Kind, parent: Kind)
  {
    k == parent || parent == LakelandBatch || (parent == Connection && k.IsConnection())
  }

  /** The detail dictionary; list, tuple and dict values are carried as their text. */
  type Details = Record

  /** A raised LakelandBatchException (or subclass) as its attributes. */
  datatype LakelandError = LakelandError(
    kind: Kind, message: string, errorCode: Option<ErrorCode>, component: Option<Component>, details: Details)

  /** Anything raised: one of the taxonomy, or a built-in exception by type name and text. */
  datatype Thrown = Lakeland(e: LakelandError) | Foreign(typeName: string, text: string)

  /** A keyword argument of the base constructor: left out, or passed (possibly as None). */
  datatype Kwarg<T> = Omitted | Passed(v: Option<T>)

  function PassedValue<T>(k: Kwarg<T>): Option<T>
  {
    if k.Passed? then k.v else None
  }

  /** The `**kwargs` a caller may forward to the base constructor. */
  datatype Kwargs = Kwargs(errorCode: Kwarg<ErrorCode>, component: Kwarg<Component>, details: Kwarg<Details>)

  const NoKwargs := Kwargs(Omitted, Omitted, Omitted)

  /** Each class's own named parameters; the constructor chosen fixes the kind.
      `ConnectionCtx` also carries `component`, a named parameter of that class. */
  datatype Context =
    | BaseCtx
    | ConnectionCtx(host: Option<string>, port: Option<int>)
    | ModbusCtx(register: Option<int>, slaveId: Option<int>, mHost: Option<string>, mPort: Option<int>)
    | FirebaseCtx(url: Option<string>, statusCode: Option<int>, fHost: Option<string>, fPort: Option<int>)
    | ZanasiCtx(printhead: Option<int>, command: Option<string>, zHost: Option<string>, zPort: Option<int>)
    | DataValidationCtx(field: Option<string>, value: Option<Value>, validationErrors: seq<string>)
    | BatchProcessingCtx(batchIndex: Option<int>, operation: Option<string>)
    | RegisterCtx(reg: Option<int>, registerRange: Option<string>)
    | ConfigurationCtx(configSection: Option<string>, configKey: Option<string>)
    | TimeoutCtx(timeoutSeconds: Option<int>, tOperation: Option<string>)
    | RetryExhaustedCtx(maxAttempts: Option<int>, lastError: Option<Thrown>)
    | StateCtx(currentState: Option<string>, attemptedOperation: Option<string>)
    | CriticalCtx(requiresRestart: bool, systemState: Option<string>)
  {
    function Kind(): Kind
    {
      match this
      case BaseCtx => LakelandBatch
      case ConnectionCtx(_, _) => Connection
      case ModbusCtx(_, _, _, _) => Modbus
      case FirebaseCtx(_, _, _, _) => Firebase
      case ZanasiCtx(_, _, _, _) => Zanasi
      case DataValidationCtx(_, _, _) => DataValidation
      case BatchProcessingCtx(_, _) => BatchProcessing
      case RegisterCtx(_, _) => Register
      case ConfigurationCtx(_, _) => Configuration
      case TimeoutCtx(_, _) => Timeout
      case RetryExhaustedCtx(_, _) => RetryExhausted
      case StateCtx(_, _) => State
      case CriticalCtx(_, _) => CriticalSystem
    }
  }

  /** The named parameters all left at their defaults. */
  function DefaultContext(k: Kind): (c: Context)
    ensures c.Kind() == k
  {
    match k
    case LakelandBatch => BaseCtx
    case Connection => ConnectionCtx(None, None)
    case Modbus => ModbusCtx(None, None, None, None)
    case Firebase => FirebaseCtx(None, None, None, None)
    case Zanasi => ZanasiCtx(None, None, None, None)
    case DataValidation => DataValidationCtx(None, None, [])
    case BatchProcessing => BatchProcessingCtx(None, None)
    case Register => RegisterCtx(None, None)
    case Configuration => ConfigurationCtx(None, None)
    case Timeout => TimeoutCtx(None, None)
    case RetryExhausted => RetryExhaustedCtx(None, None)
    case State => StateCtx(None, None)
    case CriticalSystem => CriticalCtx(false, None)
  }

  predicate TruthyInt(x: Option<int>) { x.Some? && x.value != 0 }

  predicate TruthyStr(x: Option<string>) { x.Some? && x.value != "" }

  function IntEntry(key: string, x: Option<int>): Details
  {
    if TruthyInt(x) then map[key := VInt(x.value)] else map[]
  }

  function StrEntry(key: string, x: Option<string>): Details
  {
    if TruthyStr(x) then map[key := VStr(x.value)] else map[]
  }

  /** `str(e)` of a raised exception. */
  function ThrownText(t: Thrown): string
  {
    match t
    case Lakeland(e) => ToString(e)
    case Foreign(_, text) => text
  }

  function ThrownTypeName(t: Thrown): string
  {
    match t
    case Lakeland(e) => e.kind.ClassName()
    case Foreign(name, _) => name
  }

  /** The entries a class's own constructor writes into `details`, in order. */
  function ContextEntries(c: Context): Details
  {
    match c
    case BaseCtx => map[]
    case ConnectionCtx(h, p) => StrEntry("host", h) + IntEntry("port", p)
    case ModbusCtx(r, s, _, _) => IntEntry("register", r) + IntEntry("slave_id", s)
    case FirebaseCtx(u, s, _, _) => StrEntry("url", u) + IntEntry("status_code", s)
    case ZanasiCtx(p, cmd, _, _) => IntEntry("printhead", p) + StrEntry("command", cmd)
    case DataValidationCtx(f, v, errs) =>
      StrEntry("field", f)
      + (if v.Some? && v.value != VNone then map["value" := VStr(ToStr(v.value))] else map[])
      + (if errs != [] then map["validation_errors" := Nested(JoinList(errs))] else map[])
    case BatchProcessingCtx(i, op) => IntEntry("batch_index", i) + StrEntry("operation", op)
    case RegisterCtx(r, range) => IntEntry("register", r) + StrEntry("register_range", range)
    case ConfigurationCtx(s, k) => StrEntry("config_section", s) + StrEntry("config_key", k)
    case TimeoutCtx(t, op) => IntEntry("timeout_seconds", t) + StrEntry("operation", op)
    case RetryExhaustedCtx(m, last) =>
      IntEntry("max_attempts", m)
      + (if last.Some?
         then map["last_error" := VStr(ThrownText(last.value)), "last_error_type" := VStr(ThrownTypeName(last.value))]
         else map[])
    case StateCtx(s, op) =>
      (if s.Some? then map["current_state" := VStr(s.value)] else map[]) + StrEntry("attempted_operation", op)
    case CriticalCtx(restart, st) =>
      map["requires_restart" := VBool(restart)] + StrEntry("system_state", st)
  }

  /** The text of a list of strings, as `str()` prints it. */
  function JoinList(xs: seq<string>): string
  {
    "[" + JoinQuoted(xs) + "]"
  }

  function JoinQuoted(xs: seq<string>): string
  {
    if xs == [] then ""
    else if |xs| == 1 then "'" + xs[0] + "'"
    else "'" + xs[0] + "', " + JoinQuoted(xs[1..])
  }

  const DuplicateDetails := Foreign("TypeError", "__init__() got multiple values for keyword argument 'details'")
  const DuplicateComponent := Foreign("TypeError", "__init__() got multiple values for keyword argument 'component'")
  const DuplicateErrorCode := Foreign("TypeError", "__init__() got multiple values for keyword argument 'error_code'")
  const NoneItemAssignment := Foreign("TypeError", "'NoneType' object does not support item assignment")

  /** The error code a class passes to the base constructor itself, if any. */
  function FixedErrorCode(k: Kind): Option<ErrorCode>
  {
    match k
    case Firebase => Some(FirebaseFail)
    case Zanasi => Some(ZanasiCommFail)
    case DataValidation => Some(DataFormatError)
    case Register => Some(DataFormatError)
    case _ => None
  }

  /** The component a class passes to the base constructor itself, if any. */
  function FixedComponent(k: Kind): Option<Component>
  {
    match k
    case Modbus => Some(ModbusClient)
    case Firebase => Some(FirebaseClient)
    case Zanasi => Some(ZanasiClient)
    case BatchProcessing => Some(BatchManager)
    case _ => None
  }

  /** The host and port a connection-family constructor hands to ConnectionException. */
  function ConnectionPart(c: Context): Context
    requires c.Kind().IsConnection()
  {
    match c
    case ConnectionCtx(h, p) => c
    case ModbusCtx(_, _, h, p) => ConnectionCtx(h, p)
    case FirebaseCtx(_, _, h, p) => ConnectionCtx(h, p)
    case ZanasiCtx(_, _, h, p) => ConnectionCtx(h, p)
  }

  /** What `raise Cls(message, <named parameters>, **kw)` throws: the new
      exception, or the TypeError its constructor runs into. */
  function Raise(message: string, c: Context, kw: Kwargs): (t: Thrown)
    ensures t.Lakeland? ==> t.e.kind == c.Kind() && t.e.message == message
    ensures c.Kind().IsConnection() && kw.details.Passed? ==> t.Foreign?
    ensures t.Lakeland? && FixedErrorCode(c.Kind()).Some? ==> t.e.errorCode == FixedErrorCode(c.Kind())
    ensures t.Lakeland? && FixedComponent(c.Kind()).Some? ==> t.e.component == FixedComponent(c.Kind())
    ensures t.Lakeland? && kw.details.Omitted? ==>
              t.e.details == if c.Kind().IsConnection() then ContextEntries(ConnectionPart(c)) else map[]
    ensures kw == NoKwargs && !c.Kind().IsConnection() ==> t.Lakeland? && t.e.details == map[]
  {
    var k := c.Kind();
    var own := ContextEntries(c);
    if kw.details == Passed(None) && own != map[] && k != Connection then NoneItemAssignment
    else if FixedComponent(k).Some? && kw.component.Passed? then DuplicateComponent
    else if FixedErrorCode(k).Some? && kw.errorCode.Passed? then DuplicateErrorCode
    else if k.IsConnection() then
      // ConnectionException.__init__ builds its own dict from host and port.
      var conn := ContextEntries(ConnectionPart(c));
      if kw.details == Passed(None) && conn != map[] then NoneItemAssignment
      else if kw.details.Passed? then DuplicateDetails
      else
        var code := if FixedErrorCode(k).Some? then FixedErrorCode(k) else PassedValue(kw.errorCode);
        var comp := if FixedComponent(k).Some? then FixedComponent(k) else PassedValue(kw.component);
        Lakeland(LakelandError(k, message, code, comp, conn))
    else
      var code := if FixedErrorCode(k).Some? then FixedErrorCode(k) else PassedValue(kw.errorCode);
      var comp := if FixedComponent(k).Some? then FixedComponent(k) else PassedValue(kw.component);
      var details := match kw.details
        case Passed(Some(d)) => d + own
        case _ => map[];
      Lakeland(LakelandError(k, message, code, comp, details))
  }

  /** Context fields reach `.details` only through a dict the caller passed. */
  lemma ContextOnlyThroughPassedDetails(message: string, c: Context, d: Details)
    requires !c.Kind().IsConnection()
    ensures Raise(message, c, NoKwargs) == Lakeland(LakelandError(
              c.Kind(), message, FixedErrorCode(c.Kind()), FixedComponent(c.Kind()), map[]))
    ensures Raise(message, c, Kwargs(Omitted, Omitted, Passed(Some(d)))) == Lakeland(LakelandError(
              c.Kind(), message, FixedErrorCode(c.Kind()), FixedComponent(c.Kind()), d + ContextEntries(c)))
  {
  }

  /** Whether an error code counts as set: NO_ERROR is 0 and so falsy. */
  predicate CodeIsSet(code: Option<ErrorCode>)
  {
    code.Some? && code.value != NoError
  }

  /** `LakelandBatchException.__str__`: message, then component, then a
      truthy error code, joined by " | ". */
  function ToString(e: LakelandError): (s: string)
    ensures |s| >= |e.message| && s[..|e.message|] == e.message
    ensures |s| == |e.message| <==> e.component.None? && !CodeIsSet(e.errorCode)
  {
    var withComponent := if e.component.Some? then [e.message, "Component: " + e.component.value.Text()] else [e.message];
    var parts := if CodeIsSet(e.errorCode)
                 then withComponent + ["Error Code: " + NatToDecimal(e.errorCode.value.Code())]
                 else withComponent;
    JoinBar(parts)
  }

  /** `" | ".join(parts)`. */
  function JoinBar(parts: seq<string>): (s: string)
    requires |parts| >= 1
    ensures |s| >= |parts[0]| && s[..|parts[0]|] == parts[0]
    ensures |s| == |parts[0]| <==> |parts| == 1
    ensures |parts| > 1 ==> |s| >= |parts[0]| + 3
  {
    if |parts| == 1 then parts[0] else parts[0] + " | " + JoinBar(parts[1..])
  }

  /** A NO_ERROR code prints exactly like no code at all. */
  lemma NoErrorIsOmitted(e: LakelandError)
    ensures ToString(e.(errorCode := Some(NoError))) == ToString(e.(errorCode := None))
  {
  }

  /** The dictionary `to_dict` builds. */
  datatype ExceptionRecord =
    | Full(exceptionType: string, message: string, errorCode: Option<nat>, component: Option<string>, details: Details)
    | Brief(briefType: string, briefMessage: string)

  /** `to_dict`: a falsy error code is reported as None. */
  function ToDict(e: LakelandError): (r: ExceptionRecord)
    ensures r.Full? && r.exceptionType == e.kind.ClassName() && r.message == e.message && r.details == e.details
    ensures r.errorCode.Some? <==> CodeIsSet(e.errorCode)
    ensures r.errorCode.Some? ==> ErrorFromCode(r.errorCode.value) == e.errorCode
    ensures r.component.Some? <==> e.component.Some?
  {
    Full(e.kind.ClassName(), e.message,
         if CodeIsSet(e.errorCode) then Some(e.errorCode.value.Code()) else None,
         if e.component.Some? then Some(e.component.value.Text()) else None,
         e.details)
  }

  /** `format_exception_for_logging`. */
  function FormatForLogging(t: Thrown): (r: ExceptionRecord)
    ensures t.Lakeland? ==> r == ToDict(t.e)
    ensures t.Foreign? ==> r == Brief(t.typeName, t.text)
  {
    match t
    case Lakeland(e) => ToDict(e)
    case Foreign(name, text) => Brief(name, text)
  }

  /** `validate_and_raise`: raises iff the condition is false. */
  function ValidateAndRaise(condition: bool, message: string, c: Context, kw: Kwargs): (r: Option<Thrown>)
    ensures r.None? <==> condition
    ensures r.Some? ==> r.value == Raise(message, c, kw)
  {
    if condition then None else Some(Raise(message, c, kw))
  }

  /** `isinstance(t, LakelandBatchException subclass k)`. */
  predicate IsInstance(t: Thrown, k: Kind)
  {
    t.Lakeland? && SubclassOf(t.e.kind, k)
  }

  /** What leaves an `ExceptionContext` block. */
  datatype ExitOutcome = Propagate | RaiseNew(t: Thrown)

  /** `ExceptionContext.__exit__`: a foreign exception is wrapped by calling
      `reraise_as(message=..., component=..., details=...)`; a taxonomy
      exception, or none, goes on unchanged. */
  function ExceptionContextExit(operation: string, component: Option<Component>, reraiseAs: Option<Kind>,
                                exc: Option<Thrown>): (r: ExitOutcome)
    ensures exc.None? || exc.value.Lakeland? ==> r == Propagate
    ensures exc.Some? && exc.value.Foreign? ==> r.RaiseNew?
    ensures r.RaiseNew? && r.t.Lakeland? ==>
              r.t.e.kind == (if reraiseAs.Some? then reraiseAs.value else LakelandBatch)
              && "original_exception_type" in r.t.e.details
              && r.t.e.details["original_exception_type"] == VStr(exc.value.typeName)
    ensures r.RaiseNew? && reraiseAs.Some? && reraiseAs.value.IsConnection() ==> r.t.Foreign?
  {
    match exc
    case None => Propagate
    case Some(Lakeland(_)) => Propagate
    case Some(Foreign(name, text)) =>
      var k := if reraiseAs.Some? then reraiseAs.value else LakelandBatch;
      var details := map["original_exception" := VStr(text), "original_exception_type" := VStr(name)];
      var t := Raise("Error during " + operation + ": " + text, DefaultContext(k),
                     Kwargs(Omitted, Passed(component), Passed(Some(details))));
      assert t.Lakeland? ==> "original_exception_type" in t.e.details;
      RaiseNew(t)
  }

  /** `handle_connection_error`: what the wrapped call raises, given what
      the function itself raised (None when it returned). */
  function HandleConnectionError(funcName: string, raised: Option<Thrown>): (r: Option<Thrown>)
    ensures raised.None? ==> r.None?
    ensures raised.Some? && IsInstance(raised.value, Connection) ==> r == raised
    ensures raised.Some? && !IsInstance(raised.value, Connection) ==>
              r.Some? && r.value.Lakeland? && r.value.e.kind == Connection && r.value.e.details == map[]
  {
    match raised
    case None => None
    case Some(t) =>
      if IsInstance(t, Connection) then raised
      else Some(Raise("Connection error in " + funcName + ": " + ThrownText(t), ConnectionCtx(None, None), NoKwargs))
  }
}
