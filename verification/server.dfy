/**
 * The request callback of server.js over the module-level `tasks` array:
 * a TaskServer object owns the array and mutates it in place, one request
 * at a time; Serve says what one request does to it.
 */
module Server {
  import opened Wrappers
  import opened Tasks
  import opened Routing
  import opened Responses
  import opened Handlers

  /** The parts of an incoming request the callback reads; the body is already decoded. */
  datatype Request = Request(verb: string, url: string, origin: Option<string>, payload: Payload)

  /** The collection after a request and the response written (None: nothing is written). */
  datatype Outcome = Outcome(tasks: seq<Task>, response: Option<Response>)

  /**
   * One request against the collection `ts`. `upstream` is what the relay's
   * outbound fetch yields once decoded; None when the fetch or the decoding
   * fails (also when the URL has no `url=` parameter). The promise chain
   * then rejects with no handler, which ends the Node process: this request
   * and every later one go unanswered and the collection is lost. The model
   * records only the missing response for this request.
   */
  function Serve(ts: seq<Task>, req: Request, upstream: Option<string>): Outcome {
    match Dispatch(req.verb, req.url)
    case Preflight => Outcome(ts, Some(PreflightResponse(req.origin)))
    case ListTasks => Outcome(ts, Some(ServerResponse(req.origin, Envelope(200, None, TaskList(ts)))))
    case GetTask => Outcome(ts, Some(ServerResponse(req.origin, LookupStep(ts, RequestId(req.url)))))
    case CreateTask =>
      var s := CreateStep(ts, req.payload);
      Outcome(s.tasks, Some(ServerResponse(req.origin, s.envelope)))
    case UpdateTask =>
      var s := UpdateStep(ts, RequestId(req.url), req.payload);
      Outcome(s.tasks, Some(ServerResponse(req.origin, s.envelope)))
    case DeleteTask =>
      var s := DeleteStep(ts, RequestId(req.url));
      Outcome(s.tasks, Some(ServerResponse(req.origin, s.envelope)))
    case Relay =>
      Outcome(ts, if upstream.Some?
                  then Some(ServerResponse(req.origin, Envelope(200, None, Relayed(upstream.value))))
                  else None)
    case NotFound => Outcome(ts, Some(ServerResponse(req.origin, NOT_FOUND)))
  }

  class TaskServer {
    /** The module-level `tasks` array. */
    var tasks: seq<Task>

    constructor ()
      ensures tasks == SEED
    {
      tasks := SEED;
    }

    /** Get-by-id: reads the collection and leaves it as it is. */
    method GetById(id: Option<int>) returns (env: Envelope)
      ensures env == LookupStep(tasks, id)
    {
      var k := FindIndex(tasks, id);
      if k == -1 {
        env := NOT_FOUND;
      } else {
        FirstMatchIsFindIndex(tasks, id, k);
        env := Envelope(200, None, OneTask(tasks[k]));
      }
    }

    /** `tasks.push(newTask)`. */
    method Create(p: Payload) returns (env: Envelope)
      modifies this
      ensures Step(tasks, env) == CreateStep(old(tasks), p)
    {
      var t := Task(|tasks| + 1, p.title, false);
      tasks := tasks + [t];
      env := Envelope(201, Some(CREATED_MESSAGE), OneTask(t));
    }

    /** `tasks[index] = {...tasks[index], ...payload}` at the first matching index. */
    method Update(id: Option<int>, p: Payload) returns (env: Envelope)
      modifies this
      ensures Step(tasks, env) == UpdateStep(old(tasks), id, p)
    {
      var index := FindIndex(tasks, id);
      if index != -1 {
        tasks := tasks[index := Merge(tasks[index], p)];
        env := Envelope(200, Some(UPDATED_MESSAGE), OneTask(tasks[index]));
      } else {
        env := NOT_FOUND;
      }
    }

    /** `tasks.splice(index, 1)` at the first matching index. */
    method Delete(id: Option<int>) returns (env: Envelope)
      modifies this
      ensures Step(tasks, env) == DeleteStep(old(tasks), id)
    {
      var index := FindIndex(tasks, id);
      if index != -1 {
        tasks := tasks[..index] + tasks[index + 1..];
        env := Envelope(200, Some(DELETED_MESSAGE), NoData);
      } else {
        env := NOT_FOUND;
      }
    }

    /** The request callback: choose the branch, run it, write the response. */
    method Handle(req: Request, upstream: Option<string>) returns (res: Option<Response>)
      modifies this
      ensures Outcome(tasks, res) == Serve(old(tasks), req, upstream)
    {
      var handler := Dispatch(req.verb, req.url);
      match handler {
        case Preflight =>
          res := Some(PreflightResponse(req.origin));
        case ListTasks =>
          res := Some(ServerResponse(req.origin, Envelope(200, None, TaskList(tasks))));
        case GetTask =>
          var env := GetById(RequestId(req.url));
          res := Some(ServerResponse(req.origin, env));
        case CreateTask =>
          var env := Create(req.payload);
          res := Some(ServerResponse(req.origin, env));
        case UpdateTask =>
          var env := Update(RequestId(req.url), req.payload);
          res := Some(ServerResponse(req.origin, env));
        case DeleteTask =>
          var env := Delete(RequestId(req.url));
          res := Some(ServerResponse(req.origin, env));
        case Relay =>
          if upstream.Some? {
            res := Some(ServerResponse(req.origin, Envelope(200, None, Relayed(upstream.value))));
          } else {
            res := None;
          }
        case NotFound =>
          res := Some(ServerResponse(req.origin, NOT_FOUND));
      }
    }
  }

  /** OPTIONS on any path: 204, collection untouched, origin echoed only for the local dev origin. */
  lemma PreflightOnAnyPath(ts: seq<Task>, req: Request, upstream: Option<string>)
    requires req.verb == "OPTIONS"
    ensures var o := Serve(ts, req, upstream);
      o.tasks == ts && o.response.Some? && o.response.value.status == 204 &&
      o.response.value.body == None &&
      (o.response.value.allowOrigin.Some? <==> req.origin == Some(LOCAL_ORIGIN))
  {
  }

  /** Only the create, update and delete branches can change the collection. */
  lemma ReadOnlyRoutes(ts: seq<Task>, req: Request, upstream: Option<string>)
    requires Dispatch(req.verb, req.url) !in {CreateTask, UpdateTask, DeleteTask}
    ensures Serve(ts, req, upstream).tasks == ts
  {
  }

  /**
   * Every response but the preflight is JSON, carries the envelope's status
   * (never 0), and echoes the origin exactly when it is on the two-entry list.
   */
  lemma OrdinaryResponseHeaders(ts: seq<Task>, req: Request, upstream: Option<string>)
    requires req.verb != "OPTIONS"
    requires Serve(ts, req, upstream).response.Some?
    ensures var r := Serve(ts, req, upstream).response.value;
      r.contentType == Some(JSON_TYPE) && r.body.Some? && r.status == r.body.value.status &&
      (r.allowOrigin.Some? <==> req.origin.Some? && req.origin.value in ALLOWED_ORIGINS) &&
      (r.allowOrigin.Some? ==> r.allowOrigin == req.origin)
  {
  }

  /** Every status the server can send. */
  lemma StatusCodes(ts: seq<Task>, req: Request, upstream: Option<string>)
    requires Serve(ts, req, upstream).response.Some?
    ensures Serve(ts, req, upstream).response.value.status in {200, 201, 204, 404}
  {
    var id := RequestId(req.url);
    match Dispatch(req.verb, req.url)
    case GetTask =>
      if FindIndex(ts, id) != -1 { FirstMatchIsFindIndex(ts, id, FindIndex(ts, id)); }
    case UpdateTask =>
      if FindIndex(ts, id) != -1 { FirstMatchIsFindIndex(ts, id, FindIndex(ts, id)); }
    case DeleteTask =>
      if FindIndex(ts, id) != -1 { FirstMatchIsFindIndex(ts, id, FindIndex(ts, id)); }
    case _ =>
  }

  /** A request matching no route gets the 404 envelope and changes nothing. */
  lemma UnmatchedIsNotFound(ts: seq<Task>, req: Request, upstream: Option<string>)
    requires Dispatch(req.verb, req.url) == NotFound
    ensures Serve(ts, req, upstream) == Outcome(ts, Some(ServerResponse(req.origin, NOT_FOUND)))
    ensures Serve(ts, req, upstream).response.value.status == 404
  {
  }

  /**
   * Every request is answered exactly once, except a relay whose upstream
   * fails (after which the process has ended; see Serve).
   */
  lemma AnsweredUnlessRelayFails(ts: seq<Task>, req: Request, upstream: Option<string>)
    ensures Serve(ts, req, upstream).response.None? <==>
            Dispatch(req.verb, req.url) == Relay && upstream.None?
  {
  }
}
