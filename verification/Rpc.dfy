/**
 JSON-RPC 2.0 between the agent and a sidecar: the wire objects, the sidecar
 server's dispatch, and a call through the framing in both directions.
 */
module Rpc {
  import opened Types
  import opened Codec

  // ---------------------------------------------------------------- JSON

  /** JSON values; a number that is not an integer is kept as text. */
  datatype Json =
    | Null
    | Bool(b: bool)
    | Num(n: int)
    | Decimal(text: string)
    | Str(s: string)
    | Arr(items: seq<Json>)
    | Obj(fields: map<string, Json>)

  type i32 = n: int | -0x8000_0000 <= n < 0x8000_0000

  type i64 = n: int | -0x8000_0000_0000_0000 <= n < 0x8000_0000_0000_0000

  function Get(fields: map<string, Json>, name: string): Option<Json> {
    if name in fields then Some(fields[name]) else None
  }

  /** An optional field: absent when it is `None`. */
  function Field(name: string, value: Option<Json>): map<string, Json> {
    if value.Some? then map[name := value.value] else map[]
  }

  /** What an optional JSON field reads as: `null` is taken for absent. */
  function DropNull(value: Option<Json>): Option<Json> {
    if value == Some(Null) then None else value
  }

  // ---------------------------------------------------------------- Wire objects

  const JSONRPC_VERSION := "2.0"

  datatype RequestId = Integer(n: i64) | Text(s: string)

  datatype Request = Request(jsonrpc: string, rpcMethod: string, params: Option<Json>, id: RequestId)

  datatype ErrorObject = ErrorObject(code: i32, message: string, data: Option<Json>)

  datatype Response = Response(jsonrpc: string, result: Option<Json>, error: Option<ErrorObject>, id: RequestId)

  function SuccessResponse(id: RequestId, result: Json): Response {
    Response(JSONRPC_VERSION, Some(result), None, id)
  }

  function ErrorResponse(id: RequestId, error: ErrorObject): Response {
    Response(JSONRPC_VERSION, None, Some(error), id)
  }

  function IdToJson(id: RequestId): Json {
    match id
    case Integer(n) => Num(n)
    case Text(s) => Str(s)
  }

  function IdFromJson(j: Json): Option<RequestId> {
    match j
    case Num(n) => if -0x8000_0000_0000_0000 <= n < 0x8000_0000_0000_0000 then Some(Integer(n)) else None
    case Str(s) => Some(Text(s))
    case _ => None
  }

  function RequestToJson(r: Request): Json {
    Obj(map["jsonrpc" := Str(r.jsonrpc), "method" := Str(r.rpcMethod), "id" := IdToJson(r.id)]
        + Field("params", r.params))
  }

  function RequestFromJson(j: Json): Option<Request> {
    if !j.Obj? then None
    else
      match (Get(j.fields, "jsonrpc"), Get(j.fields, "method"), Get(j.fields, "id"))
      case (Some(Str(version)), Some(Str(name)), Some(rawId)) =>
        var id := IdFromJson(rawId);
        if id.None? then None
        else Some(Request(version, name, DropNull(Get(j.fields, "params")), id.value))
      case _ => None
  }

  function ErrorToJson(e: ErrorObject): Json {
    Obj(map["code" := Num(e.code), "message" := Str(e.message)] + Field("data", e.data))
  }

  function ErrorFromJson(j: Json): Option<ErrorObject> {
    if !j.Obj? then None
    else
      match (Get(j.fields, "code"), Get(j.fields, "message"))
      case (Some(Num(code)), Some(Str(message))) =>
        if -0x8000_0000 <= code < 0x8000_0000
        then Some(ErrorObject(code, message, DropNull(Get(j.fields, "data"))))
        else None
      case _ => None
  }

  function ResponseToJson(r: Response): Json {
    Obj(map["jsonrpc" := Str(r.jsonrpc), "id" := IdToJson(r.id)]
        + Field("result", r.result)
        + Field("error", if r.error.Some? then Some(ErrorToJson(r.error.value)) else None))
  }

  function ResponseFromJson(j: Json): Option<Response> {
    if !j.Obj? then None
    else
      match (Get(j.fields, "jsonrpc"), Get(j.fields, "id"), DropNull(Get(j.fields, "error")))
      case (Some(Str(version)), Some(rawId), rawError) =>
        var id := IdFromJson(rawId);
        var error := if rawError.Some? then ErrorFromJson(rawError.value) else None;
        if id.None? || (rawError.Some? && error.None?) then None
        else Some(Response(version, DropNull(Get(j.fields, "result")), error, id.value))
      case _ => None
  }

  function DropNullParams(r: Request): Request {
    r.(params := DropNull(r.params))
  }

  function DropNullResult(r: Response): Response {
    r.(result := DropNull(r.result),
       error := if r.error.Some? then Some(r.error.value.(data := DropNull(r.error.value.data))) else None)
  }

  lemma RequestRoundTrip(r: Request)
    ensures RequestFromJson(RequestToJson(r)) == Some(DropNullParams(r))
  {
  }

  lemma ErrorRoundTrip(e: ErrorObject)
    ensures ErrorFromJson(ErrorToJson(e)) == Some(e.(data := DropNull(e.data)))
  {
  }

  /** The request object of section 4 of the JSON-RPC 2.0 Specification. */
  lemma RequestOnWire(r: Request)
    ensures RequestToJson(r).Obj?
    ensures var fields := RequestToJson(r).fields;
            && Get(fields, "jsonrpc") == Some(Str(r.jsonrpc)) && Get(fields, "method") == Some(Str(r.rpcMethod))
            && Get(fields, "params") == r.params
            && Get(fields, "id") == Some(if r.id.Integer? then Num(r.id.n) else Str(r.id.s))
            && fields.Keys <= {"jsonrpc", "method", "params", "id"}
  {
  }

  /** The response and error objects of sections 5 and 5.1. */
  lemma ResponseOnWire(r: Response)
    ensures ResponseToJson(r).Obj?
    ensures var fields := ResponseToJson(r).fields;
            && Get(fields, "jsonrpc") == Some(Str(r.jsonrpc)) && Get(fields, "result") == r.result
            && Get(fields, "id") == Some(if r.id.Integer? then Num(r.id.n) else Str(r.id.s))
            && fields.Keys <= {"jsonrpc", "result", "error", "id"}
            && ("error" in fields <==> r.error.Some?)
            && (r.error.Some? ==>
                  && fields["error"].Obj?
                  && var e := fields["error"].fields;
                     && Get(e, "code") == Some(Num(r.error.value.code))
                     && Get(e, "message") == Some(Str(r.error.value.message))
                     && Get(e, "data") == r.error.value.data && e.Keys <= {"code", "message", "data"})
  {
  }

  /** On the wire a response keeps everything but `null` in its optional fields. */
  lemma ResponseRoundTrip(r: Response)
    ensures ResponseFromJson(ResponseToJson(r)) == Some(DropNullResult(r))
  {
    if r.error.Some? {
      ErrorRoundTrip(r.error.value);
    }
  }

  // ---------------------------------------------------------------- Sidecar protocol

  datatype HealthStatus = HealthOk | Degraded | Unhealthy

  datatype HealthResponse = HealthResponse(
    status: HealthStatus, version: Option<string>, error: Option<string>, metadata: Option<Json>)

  datatype SubmitResponse =
    | SubmitCompleted(stdout: string, stderr: string, truncated: bool)
    | SubmitFailed(error: string, stderr: string)
    | SubmitAccepted(taskId: string)

  datatype StatusResponse =
    | StatusRunning
    | StatusCompleted(stdout: string, stderr: string, truncated: bool)
    | StatusFailed(error: string, stderr: string)
    | StatusCancelled

  datatype CancelResponse = CancelResponse(cancelled: bool)

  function OptStr(s: Option<string>): Option<Json> {
    if s.Some? then Some(Str(s.value)) else None
  }

  function HealthToJson(h: HealthResponse): Json {
    var status := match h.status case HealthOk => "ok" case Degraded => "degraded" case Unhealthy => "unhealthy";
    Obj(map["status" := Str(status)] + Field("version", OptStr(h.version))
        + Field("error", OptStr(h.error)) + Field("metadata", h.metadata))
  }

  function CompletedToJson(stdout: string, stderr: string, truncated: bool): Json {
    Obj(map["status" := Str("completed"), "stdout" := Str(stdout), "stderr" := Str(stderr),
            "truncated" := Bool(truncated)])
  }

  function FailedToJson(error: string, stderr: string): Json {
    Obj(map["status" := Str("failed"), "error" := Str(error), "stderr" := Str(stderr)])
  }

  function SubmitToJson(r: SubmitResponse): Json {
    match r
    case SubmitCompleted(stdout, stderr, truncated) => CompletedToJson(stdout, stderr, truncated)
    case SubmitFailed(error, stderr) => FailedToJson(error, stderr)
    case SubmitAccepted(taskId) => Obj(map["status" := Str("accepted"), "task_id" := Str(taskId)])
  }

  function StatusToJson(r: StatusResponse): Json {
    match r
    case StatusRunning => Obj(map["status" := Str("running")])
    case StatusCompleted(stdout, stderr, truncated) => CompletedToJson(stdout, stderr, truncated)
    case StatusFailed(error, stderr) => FailedToJson(error, stderr)
    case StatusCancelled => Obj(map["status" := Str("cancelled")])
  }

  function CancelToJson(r: CancelResponse): Json {
    Obj(map["cancelled" := Bool(r.cancelled)])
  }

  /** A string field with a default. */
  function StrOr(fields: map<string, Json>, name: string): Option<string> {
    if name !in fields then Some("")
    else if fields[name].Str? then Some(fields[name].s) else None
  }

  function BoolOr(fields: map<string, Json>, name: string): Option<bool> {
    if name !in fields then Some(false)
    else if fields[name].Bool? then Some(fields[name].b) else None
  }

  function Tag(j: Json): string {
    if j.Obj? && "status" in j.fields && j.fields["status"].Str? then j.fields["status"].s else ""
  }

  function CompletedFromJson(j: Json): Option<(string, string, bool)>
    requires j.Obj?
  {
    match (StrOr(j.fields, "stdout"), StrOr(j.fields, "stderr"), BoolOr(j.fields, "truncated"))
    case (Some(stdout), Some(stderr), Some(truncated)) => Some((stdout, stderr, truncated))
    case _ => None
  }

  function FailedFromJson(j: Json): Option<(string, string)>
    requires j.Obj?
  {
    match (Get(j.fields, "error"), StrOr(j.fields, "stderr"))
    case (Some(Str(error)), Some(stderr)) => Some((error, stderr))
    case _ => None
  }

  function SubmitFromJson(j: Json): Option<SubmitResponse> {
    if Tag(j) == "completed" then
      var c := CompletedFromJson(j);
      if c.Some? then Some(SubmitCompleted(c.value.0, c.value.1, c.value.2)) else None
    else if Tag(j) == "failed" then
      var f := FailedFromJson(j);
      if f.Some? then Some(SubmitFailed(f.value.0, f.value.1)) else None
    else if Tag(j) == "accepted" then
      match Get(j.fields, "task_id") case Some(Str(id)) => Some(SubmitAccepted(id)) case _ => None
    else None
  }

  function StatusFromJson(j: Json): Option<StatusResponse> {
    if Tag(j) == "running" then Some(StatusRunning)
    else if Tag(j) == "completed" then
      var c := CompletedFromJson(j);
      if c.Some? then Some(StatusCompleted(c.value.0, c.value.1, c.value.2)) else None
    else if Tag(j) == "failed" then
      var f := FailedFromJson(j);
      if f.Some? then Some(StatusFailed(f.value.0, f.value.1)) else None
    else if Tag(j) == "cancelled" then Some(StatusCancelled)
    else None
  }

  lemma SubmitRoundTrip(r: SubmitResponse)
    ensures SubmitFromJson(SubmitToJson(r)) == Some(r)
  {
  }

  lemma StatusRoundTrip(r: StatusResponse)
    ensures StatusFromJson(StatusToJson(r)) == Some(r)
  {
  }

  /** The tags and fields of the replies to `submit`. */
  lemma SubmitOnWire(r: SubmitResponse)
    ensures match r
            case SubmitCompleted(stdout, stderr, truncated) =>
              SubmitToJson(r) == Obj(map["status" := Str("completed"), "stdout" := Str(stdout),
                                         "stderr" := Str(stderr), "truncated" := Bool(truncated)])
            case SubmitFailed(error, stderr) =>
              SubmitToJson(r) == Obj(map["status" := Str("failed"), "error" := Str(error), "stderr" := Str(stderr)])
            case SubmitAccepted(taskId) =>
              SubmitToJson(r) == Obj(map["status" := Str("accepted"), "task_id" := Str(taskId)])
  {
  }

  /** The tags of the replies to `status`; those that end a task are the same objects as for `submit`. */
  lemma StatusOnWire(r: StatusResponse)
    ensures match r
            case StatusRunning => StatusToJson(r) == Obj(map["status" := Str("running")])
            case StatusCancelled => StatusToJson(r) == Obj(map["status" := Str("cancelled")])
            case StatusCompleted(stdout, stderr, truncated) =>
              StatusToJson(r) == SubmitToJson(SubmitCompleted(stdout, stderr, truncated))
            case StatusFailed(error, stderr) => StatusToJson(r) == SubmitToJson(SubmitFailed(error, stderr))
  {
  }

  // ---------------------------------------------------------------- Server

  const PARSE_ERROR: i32 := -32700
  const INVALID_REQUEST: i32 := -32600
  const METHOD_NOT_FOUND: i32 := -32601
  const INVALID_PARAMS: i32 := -32602

  /** Serialisation to bytes and back, and the error texts it produces. */
  datatype Wire = Wire(
    encode: Json -> seq<byte>,
    decode: seq<byte> -> Option<Json>,
    parseText: seq<byte> -> string,
    paramsText: Json -> string,
    quoted: string -> string)

  ghost predicate Faithful(wire: Wire) {
    forall j :: wire.decode(wire.encode(j)) == Some(j)
  }

  /** A sidecar's own logic, which may keep state between calls. */
  datatype Handler<!S> = Handler(
    health: S -> (HealthResponse, S),
    submit: (S, Json) -> (Result<SubmitResponse, ErrorObject>, S),
    status: (S, string) -> (Result<StatusResponse, ErrorObject>, S),
    cancel: (S, string) -> (Result<CancelResponse, ErrorObject>, S))

  function Answer(id: RequestId, r: Result<Json, ErrorObject>): Response {
    match r
    case Ok(j) => SuccessResponse(id, j)
    case Err(e) => ErrorResponse(id, e)
  }

  /** The record may also come as an array of its one field. */
  function ExtractTaskId(wire: Wire, params: Json): Result<string, ErrorObject> {
    if params.Obj? && "task_id" in params.fields && params.fields["task_id"].Str?
    then Ok(params.fields["task_id"].s)
    else if params.Arr? && |params.items| == 1 && params.items[0].Str? then Ok(params.items[0].s)
    else Err(ErrorObject(INVALID_PARAMS, wire.paramsText(params), None))
  }

  function Dispatch<S>(wire: Wire, h: Handler<S>, s: S, req: Request): (Response, S) {
    var params := if req.params.Some? then req.params.value else Null;
    match req.rpcMethod
    case "health" =>
      var (r, s') := h.health(s);
      (SuccessResponse(req.id, HealthToJson(r)), s')
    case "submit" =>
      var (r, s') := h.submit(s, params);
      (Answer(req.id, match r case Ok(v) => Ok(SubmitToJson(v)) case Err(e) => Err(e)), s')
    case "status" =>
      (match ExtractTaskId(wire, params)
       case Err(e) => (ErrorResponse(req.id, e), s)
       case Ok(taskId) =>
         var (r, s') := h.status(s, taskId);
         (Answer(req.id, match r case Ok(v) => Ok(StatusToJson(v)) case Err(e) => Err(e)), s'))
    case "cancel" =>
      (match ExtractTaskId(wire, params)
       case Err(e) => (ErrorResponse(req.id, e), s)
       case Ok(taskId) =>
         var (r, s') := h.cancel(s, taskId);
         (Answer(req.id, match r case Ok(v) => Ok(CancelToJson(v)) case Err(e) => Err(e)), s'))
    case other =>
      (ErrorResponse(req.id, ErrorObject(METHOD_NOT_FOUND, "method not found: " + other, None)), s)
  }

  /** Every answer echoes the id and carries exactly one of a result, never `null`, and an error. */
  lemma DispatchAnswers<S>(wire: Wire, h: Handler<S>, s: S, req: Request)
    ensures var r := Dispatch(wire, h, s, req).0;
            && r.id == req.id && r.jsonrpc == "2.0"
            && (r.result.Some? <==> r.error.None?)
            && r.result != Some(Null)
  {
  }

  /** Absent and `null` parameters are the same to a handler. */
  lemma DispatchIgnoresNull<S>(wire: Wire, h: Handler<S>, s: S, req: Request)
    ensures Dispatch(wire, h, s, DropNullParams(req)) == Dispatch(wire, h, s, req)
  {
  }

  predicate HasTaskId(params: Json) {
    match params
    case Obj(fields) => "task_id" in fields && fields["task_id"].Str?
    case Arr(items) => |items| == 1 && items[0].Str?
    case _ => false
  }

  /** What no handler is asked about: an unknown method, or a task method without a task id. */
  predicate Unroutable(req: Request) {
    if req.rpcMethod == "status" || req.rpcMethod == "cancel" then
      !(req.params.Some? && HasTaskId(req.params.value))
    else
      req.rpcMethod != "health" && req.rpcMethod != "submit"
  }

  /** Two sidecars answer an unroutable request alike, with an error of the standard code, and keep their state. */
  lemma UnroutableIsRefused<S, T>(wire: Wire, h: Handler<S>, s: S, g: Handler<T>, t: T, req: Request)
    requires Unroutable(req)
    ensures var (r, s') := Dispatch(wire, h, s, req);
            && s' == s && (r, t) == Dispatch(wire, g, t, req)
            && r.error.Some?
            && r.error.value.code == if req.rpcMethod in {"status", "cancel"} then -32602 else -32601
  {
  }

  /** These parameters name this task. */
  predicate Names(params: Option<Json>, taskId: string) {
    || (params.Some? && params.value.Obj? && Get(params.value.fields, "task_id") == Some(Str(taskId)))
    || params == Some(Arr([Str(taskId)]))
  }

  /**
   Each method asks the handler's function of that name, once, with the request's
   own parameters or task id: the handler's state is the one that leaves, and the
   answer is the one that gives, error for error.
   */
  lemma DispatchAsksHandler<S>(wire: Wire, h: Handler<S>, s: S, req: Request, taskId: string)
    ensures var (r, after) := Dispatch(wire, h, s, req);
            var params := if req.params.Some? then req.params.value else Null;
            && (req.rpcMethod == "submit" ==>
                  && after == h.submit(s, params).1
                  && match h.submit(s, params).0
                     case Ok(v) => r.result.Some? && SubmitFromJson(r.result.value) == Some(v)
                     case Err(e) => r.error == Some(e))
            && (req.rpcMethod == "status" && Names(req.params, taskId) ==>
                  && after == h.status(s, taskId).1
                  && match h.status(s, taskId).0
                     case Ok(v) => r.result.Some? && StatusFromJson(r.result.value) == Some(v)
                     case Err(e) => r.error == Some(e))
            && (req.rpcMethod == "cancel" && Names(req.params, taskId) ==>
                  && after == h.cancel(s, taskId).1
                  && match h.cancel(s, taskId).0
                     case Ok(v) => r.result == Some(Obj(map["cancelled" := Bool(v.cancelled)]))
                     case Err(e) => r.error == Some(e))
  {
    hide SubmitToJson, StatusToJson, SubmitFromJson, StatusFromJson;
    var params := if req.params.Some? then req.params.value else Null;
    if req.rpcMethod == "submit" {
      var r := h.submit(s, params).0;
      if r.Ok? {
        SubmitRoundTrip(r.value);
      }
    } else if req.rpcMethod == "status" {
      var r := h.status(s, taskId).0;
      if r.Ok? {
        StatusRoundTrip(r.value);
      }
    }
  }

  /** A health check asks the handler and passes on its status and whatever else it gave. */
  lemma DispatchAsksHealth<S>(wire: Wire, h: Handler<S>, s: S, req: Request)
    requires req.rpcMethod == "health"
    ensures var (r, after) := Dispatch(wire, h, s, req);
            var health := h.health(s).0;
            && after == h.health(s).1 && r.result.Some? && r.result.value.Obj?
            && var fields := r.result.value.fields;
               && Get(fields, "status") == Some(Str(match health.status
                                                    case HealthOk => "ok"
                                                    case Degraded => "degraded"
                                                    case Unhealthy => "unhealthy"))
               && Get(fields, "version") == (if health.version.Some? then Some(Str(health.version.value)) else None)
               && Get(fields, "error") == (if health.error.Some? then Some(Str(health.error.value)) else None)
               && Get(fields, "metadata") == health.metadata
  {
  }

  function ParseRequest(wire: Wire, bytes: seq<byte>): Option<Request> {
    var j := wire.decode(bytes);
    if j.Some? then RequestFromJson(j.value) else None
  }

  function VersionError(wire: Wire, req: Request): Response {
    ErrorResponse(req.id, ErrorObject(INVALID_REQUEST,
                                      "expected jsonrpc \"2.0\", got " + wire.quoted(req.jsonrpc), None))
  }

  function ParseError(wire: Wire, bytes: seq<byte>): Response {
    ErrorResponse(Integer(0), ErrorObject(PARSE_ERROR, wire.parseText(bytes), None))
  }

  /** A frame that is no request is answered under id 0, a request of another version under its own id. */
  lemma BadRequestsAreAnswered(wire: Wire, bytes: seq<byte>, req: Request)
    ensures var r := ParseError(wire, bytes);
            && r.id == Integer(0) && r.jsonrpc == "2.0" && r.result == None
            && r.error == Some(ErrorObject(-32700, wire.parseText(bytes), None))
    ensures var r := VersionError(wire, req);
            && r.id == req.id && r.jsonrpc == "2.0" && r.result == None
            && r.error.Some? && r.error.value.code == -32600 && r.error.value.data == None
  {
  }

  /** A response over the limit is not sent at all. */
  function ReplyBytes(wire: Wire, r: Response): seq<byte> {
    var payload := wire.encode(ResponseToJson(r));
    if |payload| <= MAX_MESSAGE_SIZE then Frame(payload) else []
  }

  class Sidecar<S> {
    const wire: Wire
    const handler: Handler<S>
    var state: S
    var dispatched: seq<Request>

    constructor (wire: Wire, handler: Handler<S>, state: S)
      ensures this.wire == wire && this.handler == handler && this.state == state && dispatched == []
    {
      this.wire := wire;
      this.handler := handler;
      this.state := state;
      this.dispatched := [];
    }

    method SendResponse(r: Response, output: Buffer)
      modifies output`data
      ensures output.data == old(output.data) + ReplyBytes(wire, r)
    {
      var codec := new LengthPrefixCodec();
      var _ := codec.Encode(wire.encode(ResponseToJson(r)), output);
    }

    /** One request per connection: only a well-formed version 2.0 request reaches the handler. */
    method HandleConnection(conn: Framed, output: Buffer)
      requires conn.codec.maxSize == MAX_MESSAGE_SIZE && output != conn.buffer
      modifies this`state, this`dispatched, conn`incoming, conn.buffer`data, output`data
      ensures var frame := FirstFrame(MAX_MESSAGE_SIZE, old(conn.Remaining()));
              if !frame.Read? then
                state == old(state) && dispatched == old(dispatched) && output.data == old(output.data)
              else
                match ParseRequest(wire, frame.payload)
                case None =>
                  && state == old(state) && dispatched == old(dispatched)
                  && output.data == old(output.data) + ReplyBytes(wire, ParseError(wire, frame.payload))
                case Some(req) =>
                  if req.jsonrpc != JSONRPC_VERSION then
                    && state == old(state) && dispatched == old(dispatched)
                    && output.data == old(output.data) + ReplyBytes(wire, VersionError(wire, req))
                  else
                    && state == Dispatch(wire, handler, old(state), req).1
                    && dispatched == old(dispatched) + [req]
                    && output.data == old(output.data) + ReplyBytes(wire, Dispatch(wire, handler, old(state), req).0)
    {
      hide Dispatch, ReplyBytes, RequestFromJson, FirstFrame;
      var frame := conn.Next();
      if !frame.Read? {
        return;
      }
      var request := ParseRequest(wire, frame.payload);
      if request.None? {
        SendResponse(ParseError(wire, frame.payload), output);
      } else if request.value.jsonrpc != JSONRPC_VERSION {
        SendResponse(VersionError(wire, request.value), output);
      } else {
        var (response, next) := Dispatch(wire, handler, state, request.value);
        state := next;
        dispatched := dispatched + [request.value];
        SendResponse(response, output);
      }
    }
  }

  // ---------------------------------------------------------------- Client

  /** A way of cutting bytes into the chunks they arrive in. */
  ghost predicate Splits(split: seq<byte> -> seq<seq<byte>>) {
    forall b :: Concat(split(b)) == b
  }

  function NewRequest(rpcMethod: string, params: Option<Json>): Request {
    Request(JSONRPC_VERSION, rpcMethod, params, Integer(1))
  }

  /** A frame alone on the wire is read back whole. */
  lemma FrameAlone(payload: seq<byte>)
    requires |payload| <= MAX_MESSAGE_SIZE
    ensures FirstFrame(MAX_MESSAGE_SIZE, Frame(payload)) == Read(payload)
  {
    FrameRoundTripIff(MAX_MESSAGE_SIZE, payload, []);
    assert Frame(payload) + [] == Frame(payload);
  }

  function ParseResponse(wire: Wire, bytes: seq<byte>): Result<Response, string> {
    var j := wire.decode(bytes);
    if j.None? then Err("bad response")
    else
      var r := ResponseFromJson(j.value);
      if r.None? then Err("bad response") else Ok(r.value)
  }

  /** The client's reading of the bytes of a reply. */
  function ReplyOf(wire: Wire, bytes: seq<byte>): Result<Response, string> {
    match FirstFrame(MAX_MESSAGE_SIZE, bytes)
    case Read(payload) => ParseResponse(wire, payload)
    case Eof => Err("sidecar closed connection without responding")
    case _ => Err("failed to read sidecar response")
  }

  lemma ReplyRead(wire: Wire, r: Response)
    requires Faithful(wire)
    ensures var reply := ReplyOf(wire, ReplyBytes(wire, r));
            if |wire.encode(ResponseToJson(r))| <= MAX_MESSAGE_SIZE then reply == Ok(DropNullResult(r)) else reply.Err?
  {
    hide ResponseToJson, ResponseFromJson, DropNullResult;
    var payload := wire.encode(ResponseToJson(r));
    assert wire.decode(wire.encode(ResponseToJson(r))) == Some(ResponseToJson(r));
    ResponseRoundTrip(r);
    if |payload| <= MAX_MESSAGE_SIZE {
      FrameAlone(payload);
    }
  }

  method ReadReply(wire: Wire, bytes: seq<byte>, split: seq<byte> -> seq<seq<byte>>) returns (r: Result<Response, string>)
    requires Splits(split)
    ensures r == ReplyOf(wire, bytes)
  {
    hide FirstFrame, ParseResponse;
    var framed := new Framed(split(bytes));
    var frame := framed.Next();
    match frame {
      case Read(payload) => r := ParseResponse(wire, payload);
      case Eof => r := Err("sidecar closed connection without responding");
      case _ => r := Err("failed to read sidecar response");
    }
  }

  /** A request within the limit is what the server reads. */
  lemma RequestArrives(wire: Wire, req: Request)
    requires Faithful(wire)
    ensures var payload := wire.encode(RequestToJson(req));
            && ParseRequest(wire, payload) == Some(DropNullParams(req))
            && (|payload| <= MAX_MESSAGE_SIZE ==> FirstFrame(MAX_MESSAGE_SIZE, Frame(payload)) == Read(payload))
  {
    var payload := wire.encode(RequestToJson(req));
    assert wire.decode(wire.encode(RequestToJson(req))) == Some(RequestToJson(req));
    RequestRoundTrip(req);
    if |payload| <= MAX_MESSAGE_SIZE {
      FrameAlone(payload);
    }
  }

  /**
   RPC transparency. A call through serialisation, framing and any chunking in
   both directions gives what dispatching the request directly gives, up to
   `null` error data; an oversized request or an unreachable socket never
   reaches the handler; an oversized response is an error after the fact.
   */
  method CallRaw<S>(sidecar: Sidecar<S>, reachable: bool, rpcMethod: string, params: Option<Json>,
                    split: seq<byte> -> seq<seq<byte>>, splitBack: seq<byte> -> seq<seq<byte>>)
    returns (r: Result<Response, string>)
    requires Faithful(sidecar.wire) && Splits(split) && Splits(splitBack)
    modifies sidecar`state, sidecar`dispatched
    ensures var req := Request("2.0", rpcMethod, params, Integer(1));
            var direct := Dispatch(sidecar.wire, sidecar.handler, old(sidecar.state), req);
            if !reachable || |sidecar.wire.encode(RequestToJson(req))| > MAX_MESSAGE_SIZE then
              r.Err? && sidecar.state == old(sidecar.state) && sidecar.dispatched == old(sidecar.dispatched)
            else
              && sidecar.state == direct.1
              && sidecar.dispatched == old(sidecar.dispatched) + [DropNullParams(req)]
              && if |sidecar.wire.encode(ResponseToJson(direct.0))| > MAX_MESSAGE_SIZE then r.Err?
                 else r == Ok(DropNullResult(direct.0))
    ensures r.Ok? ==> r.value.id == Integer(1) && (r.value.result.Some? <==> r.value.error.None?)
  {
    hide Dispatch, ReplyBytes, ReplyOf, RequestToJson, ResponseToJson, ParseRequest, FirstFrame, DropNullResult, Frame;
    if !reachable {
      return Err("failed to connect to sidecar");
    }
    var wire := sidecar.wire;
    var req := NewRequest(rpcMethod, params);
    var payload := wire.encode(RequestToJson(req));
    var codec := new LengthPrefixCodec();
    var outbound := new Buffer([]);
    var sent := codec.Encode(payload, outbound);
    if sent.Err? {
      return Err("failed to send to sidecar");
    }
    assert [] + Frame(payload) == Frame(payload);
    var conn := new Framed(split(outbound.data));
    var inbound := new Buffer([]);
    RequestArrives(wire, req);
    DispatchIgnoresNull(wire, sidecar.handler, sidecar.state, req);
    ghost var response := Dispatch(wire, sidecar.handler, sidecar.state, req).0;
    DispatchAnswers(wire, sidecar.handler, sidecar.state, req);
    sidecar.HandleConnection(conn, inbound);
    assert inbound.data == ReplyBytes(wire, response);
    ReplyRead(wire, response);
    r := ReadReply(wire, inbound.data, splitBack);
    OneOfTwo(response);
  }

  lemma OneOfTwo(r: Response)
    requires (r.result.Some? <==> r.error.None?) && r.result != Some(Null)
    ensures DropNullResult(r).id == r.id
    ensures DropNullResult(r).result.Some? <==> DropNullResult(r).error.None?
  {
  }
}