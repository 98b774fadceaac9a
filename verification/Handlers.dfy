/** Requests, their contexts, and middleware chains (request.go, context.go, handler.go). */
module Handlers {
  import opened Wrappers
  import opened Tasks

  /** The values of a request's context: the recovered error, the after-request functions, and whatever else. */
  datatype Context = Context(error: Option<Failure>, after: seq<nat>, entries: map<string, string>) {
    function WithError(failure: Failure): Context {
      this.(error := Some(failure))
    }

    /** What a middleware adds: after-request functions and entries of its own. */
    function With(more: seq<nat>, added: map<string, string>): Context {
      this.(after := after + more, entries := entries + added)
    }
  }

  /** What a middleware does with the request before and after the handler it wraps. */
  datatype Middleware =
    | Recoverer                                                   // recovers a panic into the request's context
    | Derive(more: seq<nat>, added: map<string, string>)          // hands on a new request made by WithContext
    | Stamp(more: seq<nat>, added: map<string, string>)           // overwrites the request in place and hands it on
    | HandleRequest                                               // the consumer's own: calls handleError

  datatype Handler = Base | Wrap(middleware: Middleware, inner: Handler)

  /** The first middleware outermost. */
  function Nest(middlewares: seq<Middleware>, sub: Handler): Handler {
    if middlewares == [] then sub else Wrap(middlewares[0], Nest(middlewares[1..], sub))
  }

  /** `chain`: wraps from the last middleware down to the first. */
  method Chain(middlewares: seq<Middleware>, sub: Handler) returns (h: Handler)
    ensures h == Nest(middlewares, sub)
  {
    if |middlewares| == 0 {
      return sub;
    }
    h := Wrap(middlewares[|middlewares| - 1], sub);
    assert Nest(middlewares[|middlewares| - 1..][1..], sub) == sub;
    var i := |middlewares| - 2;
    while i >= 0
      invariant -1 <= i <= |middlewares| - 2
      invariant h == Nest(middlewares[i + 1..], sub)
    {
      h := Wrap(middlewares[i], h);
      assert middlewares[i..][1..] == middlewares[i + 1..];
      i := i - 1;
    }
    assert middlewares[0..] == middlewares;
  }

  class Request {
    var ctx: Context
    const task: Task

    constructor (ctx: Context, task: Task)
      ensures this.ctx == ctx && this.task == task
    {
      this.ctx, this.task := ctx, task;
    }

    /** A new request for the same task. */
    method WithContext(ctx: Context) returns (r: Request)
      ensures fresh(r) && r.ctx == ctx && r.task == task
    {
      r := new Request(ctx, task);
    }

    /** `*r = *other`. */
    method Assign(other: Request)
      requires other.task == task
      modifies this
      ensures ctx == old(other.ctx)
    {
      ctx := other.ctx;
    }
  }

  /** How a handler's call ends. */
  datatype Outcome = Done(err: Option<Failure>) | Panicked(failure: Failure)

  /**
   A handler's call: how it ends, what it registers in place on the request it is given, and, for a panic nobody
   recovers, how many more steps the worker takes before the panic has brought the process down.
   */
  datatype Script = Script(outcome: Outcome, more: seq<nat>, steps: nat)
}
