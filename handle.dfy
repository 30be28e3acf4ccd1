/** internal/bot/handle.go: the bot's view of an update and the middleware stack
    that every update runs through. */
module Handle {
  import opened Wrappers
  import opened Transport

  /** The context key under which the user-upsert middleware stores the user's id. */
  const UserIDCtxKey := "user_id"

  /** `Update`: a Telegram update with the request context that middlewares rewrite. */
  class Update {
    var ctx: Context
    const message: Option<TgMessage>
    const callbackQuery: Option<CallbackQuery>

    constructor (ctx: Context, message: Option<TgMessage>, callbackQuery: Option<CallbackQuery>)
      ensures this.ctx == ctx && this.message == message && this.callbackQuery == callbackQuery
    {
      this.ctx := ctx;
      this.message := message;
      this.callbackQuery := callbackQuery;
    }
  }

  /** `chatID`: the chat of the callback's message for a callback query, otherwise the
      chat of the message. None stands for the nil dereference of a missing message. */
  function ChatID(u: Update): (r: Option<int>)
    ensures u.callbackQuery.Some? && u.callbackQuery.value.message.Some? ==>
              r == Some(u.callbackQuery.value.message.value.chat.id)
    ensures u.callbackQuery.Some? && u.callbackQuery.value.message.None? ==> r.None?
    ensures u.callbackQuery.None? ==> r == if u.message.Some? then Some(u.message.value.chat.id) else None
  {
    match u.callbackQuery
    case Some(cq) => if cq.message.Some? then Some(cq.message.value.chat.id) else None
    case None => if u.message.Some? then Some(u.message.value.chat.id) else None
  }

  /** `User`: the sender of the callback query if there is one, else the message's sender. */
  function User(u: Update): (r: Option<TgUser>)
    ensures u.callbackQuery.Some? ==> r == Some(u.callbackQuery.value.from)
    ensures u.callbackQuery.None? ==> r == if u.message.Some? then Some(u.message.value.from) else None
  {
    match u.callbackQuery
    case Some(cq) => Some(cq.from)
    case None => if u.message.Some? then Some(u.message.value.from) else None
  }

  /** The user id that the upsert middleware attached to the update's context. */
  function UserID(u: Update): Option<int>
    reads u
  {
    Value(u.ctx, UserIDCtxKey)
  }

  /** A middleware, by what it does with its continuation: `Pass` always calls it
      (recovery, user insert), `Halt` never does, `Wrapped` is `wrap(h)` (runs the
      handler and ignores `next`), `Nop` is the tail of every stack, and `UserUpsert`
      calls it only when the upsert of the sender succeeds. */
  datatype Middleware =
    | Pass(name: string)
    | Halt(name: string)
    | Wrapped(handler: string)
    | Nop
    | UserUpsert

  /** What a run records: a middleware entered, a handler run, the upsert's outcome. */
  datatype Event = Entered(name: string) | Handled(handler: string) | Upserted | UpsertFailed

  /** The linked `stack` values: a middleware and the stack its `next` runs.
      `Empty` is the zero `stack{}` whose `Handle` would dereference a nil middleware. */
  datatype Chain = Empty | Link(middleware: Middleware, next: Chain)

  /** The result of `stack.Handle`: the events in order, and whether it hit a nil dereference. */
  datatype Outcome = Outcome(trace: seq<Event>, panicked: bool)

  /** `newStack`: `mdl` in front of `next`, whose run is what `mdl`'s continuation does. */
  function NewStack(mdl: Middleware, next: Chain): (c: Chain)
    ensures Members(c) == [mdl] + Members(next)
  {
    Link(mdl, next)
  }

  /** `newNopStack`: a do-nothing middleware in front of an empty stack. */
  function NewNopStack(): (c: Chain)
    ensures Members(c) == [Nop]
  {
    NewStack(Nop, Empty)
  }

  /** The middlewares of a chain, front to back. */
  function Members(c: Chain): seq<Middleware> {
    match c
    case Empty => []
    case Link(m, next) => [m] + Members(next)
  }

  /** `buildStack`: the middlewares in registration order, then the no-op tail.
      It indexes `ms[0]`, so it needs at least one middleware. */
  function BuildStack(ms: seq<Middleware>): (c: Chain)
    requires |ms| > 0
    ensures Members(c) == ms + [Nop]
  {
    var next := if |ms| > 1 then BuildStack(ms[1..]) else NewNopStack();
    NewStack(ms[0], next)
  }

  /** `wrap`: a handler as a middleware that never calls `next`. */
  function Wrap(h: string): (m: Middleware)
    ensures forall next: Chain, upsertOk: bool :: Run(Link(m, next), upsertOk) == Outcome([Handled(h)], false)
  {
    Wrapped(h)
  }

  /** `stack.Handle`; `upsertOk` is the outcome of the user upsert for this update. */
  function Run(c: Chain, upsertOk: bool): Outcome {
    match c
    case Empty => Outcome([], true)
    case Link(m, next) =>
      match m
      case Pass(n) => var o := Run(next, upsertOk); Outcome([Entered(n)] + o.trace, o.panicked)
      case Halt(n) => Outcome([Entered(n)], false)
      case Wrapped(h) => Outcome([Handled(h)], false)
      case Nop => Outcome([], false)
      case UserUpsert =>
        if upsertOk then var o := Run(next, upsertOk); Outcome([Upserted] + o.trace, o.panicked)
        else Outcome([UpsertFailed], false)
  }

  /** Whether a middleware hands the update on to the rest of the stack. */
  predicate Continues(m: Middleware, upsertOk: bool) {
    m.Pass? || (m.UserUpsert? && upsertOk)
  }

  /** The events one middleware itself records. */
  function EventsOf(m: Middleware, upsertOk: bool): seq<Event> {
    match m
    case Pass(n) => [Entered(n)]
    case Halt(n) => [Entered(n)]
    case Wrapped(h) => [Handled(h)]
    case Nop => []
    case UserUpsert => if upsertOk then [Upserted] else [UpsertFailed]
  }

  /** The events of a list of middlewares, concatenated in order. */
  function AllEvents(ms: seq<Middleware>, upsertOk: bool): seq<Event> {
    if ms == [] then [] else EventsOf(ms[0], upsertOk) + AllEvents(ms[1..], upsertOk)
  }

  /** How many middlewares run: all up to and including the first one that does not continue. */
  function Invoked(ms: seq<Middleware>, upsertOk: bool): (k: nat)
    ensures k <= |ms|
    ensures forall j :: 0 <= j < k - 1 ==> Continues(ms[j], upsertOk)
    ensures k < |ms| ==> k > 0 && !Continues(ms[k - 1], upsertOk)
    ensures k == |ms| ==> (forall j :: 0 <= j < |ms| - 1 ==> Continues(ms[j], upsertOk))
  {
    if ms == [] then 0
    else if !Continues(ms[0], upsertOk) then 1
    else 1 + Invoked(ms[1..], upsertOk)
  }

  /** One step of a run: a continuing middleware records its events and runs the rest;
      any other records its events and stops. */
  lemma RunStep(m: Middleware, next: Chain, upsertOk: bool)
    ensures Continues(m, upsertOk) ==>
              Run(Link(m, next), upsertOk)
              == Outcome(EventsOf(m, upsertOk) + Run(next, upsertOk).trace, Run(next, upsertOk).panicked)
    ensures !Continues(m, upsertOk) ==> Run(Link(m, next), upsertOk) == Outcome(EventsOf(m, upsertOk), false)
  {
  }

  /** `Handle` invokes the registered middlewares in registration order, each `next`
      running the remaining suffix: the trace is the events of exactly the middlewares
      invoked, and the run never panics because the no-op tail stops every run. */
  lemma {:induction false} Dispatch(ms: seq<Middleware>, upsertOk: bool)
    requires |ms| > 0
    ensures Run(BuildStack(ms), upsertOk) == Outcome(AllEvents(ms[..Invoked(ms, upsertOk)], upsertOk), false)
  {
    var next := if |ms| > 1 then BuildStack(ms[1..]) else NewNopStack();
    RunStep(ms[0], next, upsertOk);
    var k := Invoked(ms, upsertOk);
    if Continues(ms[0], upsertOk) && |ms| > 1 {
      Dispatch(ms[1..], upsertOk);
      assert ms[..k][1..] == ms[1..][..k - 1];
    } else {
      assert ms[..k] == [ms[0]];
      assert AllEvents(ms[..k], upsertOk) == EventsOf(ms[0], upsertOk) + AllEvents([], upsertOk);
    }
  }

  lemma {:induction false} AllEventsAppend(a: seq<Middleware>, b: seq<Middleware>, upsertOk: bool)
    ensures AllEvents(a + b, upsertOk) == AllEvents(a, upsertOk) + AllEvents(b, upsertOk)
  {
    if a == [] {
      assert a + b == b;
    } else {
      calc {
        AllEvents(a + b, upsertOk);
        { assert (a + b)[0] == a[0] && (a + b)[1..] == a[1..] + b; }
        EventsOf(a[0], upsertOk) + AllEvents(a[1..] + b, upsertOk);
        { AllEventsAppend(a[1..], b, upsertOk); }
        EventsOf(a[0], upsertOk) + (AllEvents(a[1..], upsertOk) + AllEvents(b, upsertOk));
      }
    }
  }

  /** The no-op tail does nothing and does not call the empty stack after it. */
  lemma NopTail(upsertOk: bool)
    ensures Run(NewNopStack(), upsertOk) == Outcome([], false)
  {
  }

  /** Middlewares registered after a non-continuing one never run: whatever follows a
      wrapped handler, or a failed upsert, leaves the trace unchanged. */
  lemma {:induction false} ShortCircuit(pre: seq<Middleware>, m: Middleware, post: seq<Middleware>, upsertOk: bool)
    requires !Continues(m, upsertOk)
    ensures Run(BuildStack(pre + [m] + post), upsertOk) == Run(BuildStack(pre + [m]), upsertOk)
  {
    if pre == [] {
      assert (pre + [m] + post)[0] == m;
      assert (pre + [m])[0] == m;
    } else {
      var a := pre + [m] + post;
      var b := pre + [m];
      assert a[0] == pre[0] && b[0] == pre[0];
      assert a[1..] == pre[1..] + [m] + post;
      assert b[1..] == pre[1..] + [m];
      ShortCircuit(pre[1..], m, post, upsertOk);
    }
  }

  /** `UseHandler` short-circuits the stack: a middleware added after it never runs. */
  lemma HandlerEndsStack(pre: seq<Middleware>, h: string, post: seq<Middleware>, upsertOk: bool)
    ensures Run(BuildStack(pre + [Wrap(h)] + post), upsertOk) == Run(BuildStack(pre + [Wrap(h)]), upsertOk)
  {
    ShortCircuit(pre, Wrap(h), post, upsertOk);
  }

  /** A failed upsert stops the run with the failure recorded last. */
  lemma UpsertFailureStops(pre: seq<Middleware>, post: seq<Middleware>)
    requires forall j :: 0 <= j < |pre| ==> pre[j].Pass?
    ensures Run(BuildStack(pre + [UserUpsert] + post), false).trace
            == AllEvents(pre, false) + [UpsertFailed]
  {
    ShortCircuit(pre, UserUpsert, post, false);
    var ms := pre + [UserUpsert];
    Dispatch(ms, false);
    InvokedThroughPasses(pre, UserUpsert, false);
    assert ms[..|pre| + 1] == ms;
    AllEventsAppend(pre, [UserUpsert], false);
    assert AllEvents([UserUpsert], false) == [UpsertFailed] + AllEvents([], false);
  }

  lemma {:induction false} InvokedThroughPasses(pre: seq<Middleware>, m: Middleware, upsertOk: bool)
    requires forall j :: 0 <= j < |pre| ==> pre[j].Pass?
    requires !Continues(m, upsertOk)
    ensures Invoked(pre + [m], upsertOk) == |pre| + 1
  {
    if pre != [] {
      assert (pre + [m])[1..] == pre[1..] + [m];
      InvokedThroughPasses(pre[1..], m, upsertOk);
    }
  }

  /** `Stack`: the registered middlewares and the chain built from them. */
  class Stack {
    var middlewares: seq<Middleware>
    var stack: Option<Chain>

    ghost predicate Valid()
      reads this
    {
      stack == if middlewares == [] then None else Some(BuildStack(middlewares))
    }

    /** `NewStack`: nothing registered, no chain yet. */
    constructor ()
      ensures Valid() && middlewares == [] && stack == None
    {
      middlewares := [];
      stack := None;
    }

    /** `Use`: append the middleware and rebuild the chain from the full list. */
    method Use(middleware: Middleware)
      requires Valid()
      modifies this
      ensures Valid()
      ensures middlewares == old(middlewares) + [middleware]
      ensures stack == Some(BuildStack(middlewares))
    {
      middlewares := middlewares + [middleware];
      stack := Some(BuildStack(middlewares));
    }

    /** `UseHandler`: register a handler wrapped so that it ignores `next`. */
    method UseHandler(handler: string)
      requires Valid()
      modifies this
      ensures Valid()
      ensures middlewares == old(middlewares) + [Wrap(handler)]
    {
      Use(Wrap(handler));
    }

    /** `Handle`: run the chain; before any `Use` the nil chain is dereferenced. */
    method Handle(upsertOk: bool) returns (o: Outcome)
      requires Valid()
      ensures middlewares == [] ==> o.panicked
      ensures middlewares != [] ==>
                o == Outcome(AllEvents(middlewares[..Invoked(middlewares, upsertOk)], upsertOk), false)
    {
      match stack
      case None => o := Outcome([], true);
      case Some(c) =>
        o := Run(c, upsertOk);
        Dispatch(middlewares, upsertOk);
    }
  }
}
