/**
 One forwarder: its accept loop, the goroutine of each connection, and its shutdown, interleaved in every
 possible way. Only the mutex sections are atomic; a shutdown in progress holds the mutex throughout.
 */
module Forwarder {
  import opened Pick

  type Conn = int

  /** Where the accept loop stands: in Accept, holding a connection not yet registered, refusing one, or returned. */
  datatype Loop = Accepting | Accepted(conn: Conn) | Refusing(conn: Conn) | Stopped

  /**
   Where the shutdown stands. Marked, with the listener still open, and sweeping, with `todo` left to close,
   it holds the mutex.
   */
  datatype Closing = Idle | Marked | Sweeping(todo: set<Conn>) | Finished

  /**
   `tracked` is the connection table, `forwarding` the goroutines that still relay, `leaving` those that have
   closed their connection and have yet to remove it from the table, `open` the client sockets that are open,
   `seen` every connection ever accepted and `served` every one ever handed to a goroutine.
   */
  datatype Proxy = Proxy(
    listening: bool, closed: bool, loop: Loop, closing: Closing,
    tracked: set<Conn>, forwarding: set<Conn>, leaving: set<Conn>,
    open: set<Conn>, seen: set<Conn>, served: set<Conn>)

  datatype Step =
    | Accept(conn: Conn)
    | AcceptError
    | Register
    | Refuse
    | RelayEnds(conn: Conn)
    | Forget(conn: Conn)
    | MarkClosed
    | CloseListener
    | CloseOne(conn: Conn)
    | EndClose

  const NEW := Proxy(true, false, Accepting, Idle, {}, {}, {}, {}, {}, {})

  predicate MutexFree(p: Proxy) {
    p.closing.Idle? || p.closing.Finished?
  }

  predicate Enabled(p: Proxy, step: Step) {
    match step
    case Accept(conn) => p.loop == Accepting && p.listening && conn !in p.seen
    case AcceptError => p.loop == Accepting
    case Register => p.loop.Accepted? && MutexFree(p)
    case Refuse => p.loop.Refusing?
    case RelayEnds(conn) => conn in p.forwarding
    case Forget(conn) => conn in p.leaving && MutexFree(p)
    case MarkClosed => p.closing.Idle?
    case CloseListener => p.closing.Marked?
    case CloseOne(conn) => p.closing.Sweeping? && conn in p.closing.todo
    case EndClose => p.closing == Sweeping({})
  }

  /** The mutex section of the accept loop: refuse the connection if closed, else track it and start its goroutine. */
  function Registered(p: Proxy): Proxy
    requires p.loop.Accepted?
  {
    var conn := p.loop.conn;
    if p.closed then p.(loop := Refusing(conn))
    else p.(loop := Accepting, tracked := p.tracked + {conn}, forwarding := p.forwarding + {conn},
      served := p.served + {conn})
  }

  function After(p: Proxy, step: Step): Proxy
    requires Enabled(p, step)
  {
    match step
    case Accept(conn) => p.(loop := Accepted(conn), open := p.open + {conn}, seen := p.seen + {conn})
    case AcceptError => p.(loop := Stopped)
    case Register => Registered(p)
    case Refuse => p.(loop := Stopped, open := p.open - {p.loop.conn})
    case RelayEnds(conn) =>
      p.(forwarding := p.forwarding - {conn}, leaving := p.leaving + {conn}, open := p.open - {conn})
    case Forget(conn) => p.(leaving := p.leaving - {conn}, tracked := p.tracked - {conn})
    case MarkClosed => p.(closed := true, closing := Marked)
    case CloseListener => p.(listening := false, closing := Sweeping(p.tracked))
    case CloseOne(conn) => p.(open := p.open - {conn}, closing := Sweeping(p.closing.todo - {conn}))
    case EndClose => p.(closing := Finished)
  }

  predicate ValidSteps(p: Proxy, steps: seq<Step>)
    decreases steps
  {
    steps == [] || (Enabled(p, steps[0]) && ValidSteps(After(p, steps[0]), steps[1..]))
  }

  function RunSteps(p: Proxy, steps: seq<Step>): Proxy
    requires ValidSteps(p, steps)
    decreases steps
  {
    if steps == [] then p else RunSteps(After(p, steps[0]), steps[1..])
  }

  function InHand(loop: Loop): set<Conn> {
    match loop
    case Accepted(conn) => {conn}
    case Refusing(conn) => {conn}
    case _ => {}
  }

  ghost predicate Sound(p: Proxy) {
    && p.tracked == p.forwarding + p.leaving
    && p.forwarding !! p.leaving
    && p.leaving !! p.open
    && p.open <= p.tracked + InHand(p.loop)
    && p.tracked <= p.served && p.served + InHand(p.loop) <= p.seen
    && InHand(p.loop) !! p.served
    && (p.closed <==> !p.closing.Idle?)
    && (p.listening <==> p.closing.Idle? || p.closing.Marked?)
    && (p.loop.Refusing? ==> p.closed)
    && (p.closing.Sweeping? ==> p.open * p.tracked <= p.closing.todo)
    && (p.closing.Finished? ==> p.open !! p.tracked)
  }

  lemma StepKeepsSound(p: Proxy, step: Step)
    requires Sound(p) && Enabled(p, step)
    ensures Sound(After(p, step))
    ensures p.closed ==> After(p, step).closed && After(p, step).served == p.served
    ensures !p.listening ==> !After(p, step).listening && After(p, step).seen == p.seen
  {
  }

  lemma {:induction false} RunKeepsSound(p: Proxy, steps: seq<Step>)
    requires Sound(p) && ValidSteps(p, steps)
    ensures Sound(RunSteps(p, steps))
    ensures p.closed ==> RunSteps(p, steps).closed && RunSteps(p, steps).served == p.served
    ensures !p.listening ==> !RunSteps(p, steps).listening && RunSteps(p, steps).seen == p.seen
    decreases steps
  {
    if steps != [] {
      StepKeepsSound(p, steps[0]);
      RunKeepsSound(After(p, steps[0]), steps[1..]);
    }
  }

  /**
   Under every interleaving: once the shutdown has finished, every tracked connection is closed, and at most
   the one connection the accept loop has in hand is still open; when that loop has returned, none is.
   */
  lemma ShutdownClosesAll(steps: seq<Step>)
    requires ValidSteps(NEW, steps) && RunSteps(NEW, steps).closing == Finished
    ensures var p := RunSteps(NEW, steps);
      && !p.listening
      && (forall conn :: conn in p.tracked ==> conn !in p.open)
      && p.open <= InHand(p.loop)
      && (p.loop == Stopped ==> p.open == {})
  {
    RunKeepsSound(NEW, steps);
    var p := RunSteps(NEW, steps);
    if p.loop == Stopped {
      forall conn ensures conn !in p.open { }
    }
  }

  /**
   From the moment a shutdown begins nothing more is forwarded: whatever happens next, a connection that is
   accepted but not registered is never served, and it is closed once the accept loop has returned. From the
   moment the listener is closed nothing more is accepted either.
   */
  lemma NothingServedAfterClose(steps: seq<Step>, more: seq<Step>, conn: Conn)
    requires ValidSteps(NEW, steps) && RunSteps(NEW, steps).closed
    requires ValidSteps(RunSteps(NEW, steps), more)
    ensures var p, q := RunSteps(NEW, steps), RunSteps(RunSteps(NEW, steps), more);
      && q.served == p.served
      && (!p.listening ==> q.seen == p.seen)
      && (conn !in p.served ==> conn !in q.served && conn !in q.tracked && (q.loop == Stopped ==> conn !in q.open))
      && (conn in InHand(p.loop) ==> conn !in p.served)
  {
    RunKeepsSound(NEW, steps);
    RunKeepsSound(RunSteps(NEW, steps), more);
  }

  /** Before a shutdown each connection accepted is served or in hand, and open while it is relayed or in hand. */
  predicate ServesAll(p: Proxy) {
    p.seen == p.served + InHand(p.loop) && p.open == p.forwarding + InHand(p.loop)
  }

  lemma StepServesAll(p: Proxy, step: Step)
    requires Sound(p) && Enabled(p, step) && ServesAll(p) && !After(p, step).closed
    ensures ServesAll(After(p, step))
  {
  }

  lemma {:induction false} RunServesAll(p: Proxy, steps: seq<Step>)
    requires Sound(p) && ServesAll(p) && ValidSteps(p, steps) && !RunSteps(p, steps).closed
    ensures ServesAll(RunSteps(p, steps))
    decreases steps
  {
    if steps != [] {
      StepKeepsSound(p, steps[0]);
      RunKeepsSound(After(p, steps[0]), steps[1..]);
      StepServesAll(p, steps[0]);
      RunServesAll(After(p, steps[0]), steps[1..]);
    }
  }

  /**
   Under every interleaving, until a shutdown begins: each connection ever accepted has been handed to a goroutine,
   but for the one in the accept loop's hand, and the open connections are that one and those still relayed, all of
   which are tracked.
   */
  lemma EveryClientIsServed(steps: seq<Step>)
    requires ValidSteps(NEW, steps) && !RunSteps(NEW, steps).closed
    ensures var p := RunSteps(NEW, steps);
      && p.listening
      && p.seen == p.served + InHand(p.loop)
      && p.open == p.forwarding + InHand(p.loop)
      && p.forwarding <= p.tracked
  {
    RunServesAll(NEW, steps);
    RunKeepsSound(NEW, steps);
  }

  /** How many more steps the accept loop can take once the listener is closed. */
  function LoopRank(loop: Loop): nat {
    match loop
    case Accepted(_) => 2
    case Refusing(_) => 1
    case Accepting => 1
    case Stopped => 0
  }

  predicate IsLoopStep(step: Step) {
    step.Accept? || step.AcceptError? || step.Register? || step.Refuse?
  }

  function LoopSteps(steps: seq<Step>): nat {
    if steps == [] then 0 else (if IsLoopStep(steps[0]) then 1 else 0) + LoopSteps(steps[1..])
  }

  /** Once the listener is closed, the accept loop takes at most two more steps in any run. */
  lemma {:induction false} LoopStopsSoon(p: Proxy, steps: seq<Step>)
    requires Sound(p) && !p.listening && ValidSteps(p, steps)
    ensures LoopSteps(steps) + LoopRank(RunSteps(p, steps).loop) <= LoopRank(p.loop) <= 2
    decreases steps
  {
    if steps != [] {
      StepKeepsSound(p, steps[0]);
      LoopStopsSoon(After(p, steps[0]), steps[1..]);
    }
  }

  /** The accept loop never hangs: until it has returned it can take a step whenever the mutex is free. */
  lemma LoopCanGoOn(p: Proxy)
    requires p.loop != Stopped && MutexFree(p)
    ensures exists step :: IsLoopStep(step) && Enabled(p, step)
  {
    match p.loop
    case Accepting => assert IsLoopStep(AcceptError) && Enabled(p, AcceptError);
    case Accepted(_) => assert IsLoopStep(Register) && Enabled(p, Register);
    case Refusing(_) => assert IsLoopStep(Refuse) && Enabled(p, Refuse);
  }

  // ----- the object

  /** The effect of a shutdown that nothing interrupts. */
  function Shut(p: Proxy): Proxy {
    p.(listening := false, closed := true, open := p.open - p.tracked, closing := Finished)
  }

  predicate OnlySweeps(steps: seq<Step>) {
    forall i :: 0 <= i < |steps| ==> steps[i].CloseOne? || steps[i].EndClose?
  }

  /** In whatever order it closes the connections, an uninterrupted sweep closes those it was to close, and no other. */
  lemma {:induction false} SweepAlone(p: Proxy, steps: seq<Step>)
    requires p.closing.Sweeping? && OnlySweeps(steps) && ValidSteps(p, steps)
    requires RunSteps(p, steps).closing == Finished
    ensures RunSteps(p, steps) == p.(open := p.open - p.closing.todo, closing := Finished)
    decreases steps
  {
    assert steps != [];
    match steps[0]
    case CloseOne(conn) =>
      SweepAlone(After(p, steps[0]), steps[1..]);
      assert p.open - {conn} - (p.closing.todo - {conn}) == p.open - p.closing.todo;
    case EndClose =>
      assert p.open - {} == p.open;
  }

  /** A shutdown from its first step on, its sweep not interrupted. */
  function ShutdownSteps(sweep: seq<Step>): seq<Step> {
    [MarkClosed] + ([CloseListener] + sweep)
  }

  ghost predicate IsShutdown(p: Proxy, sweep: seq<Step>) {
    OnlySweeps(sweep) && ValidSteps(p, ShutdownSteps(sweep)) && RunSteps(p, ShutdownSteps(sweep)).closing == Finished
  }

  lemma ShutdownBegins(p: Proxy, sweep: seq<Step>)
    requires p.closing.Idle?
    ensures var q := After(After(p, MarkClosed), CloseListener);
      && (ValidSteps(p, ShutdownSteps(sweep)) <==> ValidSteps(q, sweep))
      && (ValidSteps(q, sweep) ==> RunSteps(p, ShutdownSteps(sweep)) == RunSteps(q, sweep))
  {
    assert ShutdownSteps(sweep)[1..] == [CloseListener] + sweep && ([CloseListener] + sweep)[1..] == sweep;
  }

  /** Whatever order it sweeps in, an uninterrupted shutdown ends in the state the object's `Close` leaves. */
  lemma ShutdownIsShut(p: Proxy, sweep: seq<Step>)
    requires p.closing.Idle? && IsShutdown(p, sweep)
    ensures RunSteps(p, ShutdownSteps(sweep)) == Shut(p)
  {
    ShutdownBegins(p, sweep);
    SweepAlone(After(After(p, MarkClosed), CloseListener), sweep);
  }

  lemma {:induction false} SweepCanFinish(p: Proxy) returns (sweep: seq<Step>)
    requires p.closing.Sweeping?
    ensures OnlySweeps(sweep) && ValidSteps(p, sweep) && RunSteps(p, sweep).closing == Finished
    decreases |if p.closing.Sweeping? then p.closing.todo else {}|
  {
    if p.closing.todo == {} {
      return [EndClose];
    }
    var conn := SomeMember(p.closing.todo);
    var rest := SweepCanFinish(After(p, CloseOne(conn)));
    sweep := [CloseOne(conn)] + rest;
    assert sweep[1..] == rest;
  }

  /** There is such a shutdown from every state in which none has begun. */
  lemma ShutdownExists(p: Proxy)
    requires p.closing.Idle?
    ensures exists sweep :: IsShutdown(p, sweep) && RunSteps(p, ShutdownSteps(sweep)) == Shut(p)
  {
    var sweep := SweepCanFinish(After(After(p, MarkClosed), CloseListener));
    ShutdownBegins(p, sweep);
    ShutdownIsShut(p, sweep);
  }

  /** A goroutine that has closed its connection keeps its entry in the table until it removes it itself. */
  lemma {:induction false} StaysLeaving(p: Proxy, steps: seq<Step>, conn: Conn)
    requires conn in p.leaving && ValidSteps(p, steps) && Forget(conn) !in steps
    ensures conn in RunSteps(p, steps).leaving
    decreases steps
  {
    if steps != [] {
      assert steps[0] in steps;
      StaysLeaving(After(p, steps[0]), steps[1..], conn);
    }
  }

  /** The forwarder object with its fields, the client sockets, and the goroutines around it. */
  class Forwarder {
    var listening: bool
    var closed: bool
    var connections: set<Conn>
    var open: set<Conn>
    var around: Proxy

    function State(): Proxy
      reads this
    {
      around.(listening := listening, closed := closed, tracked := connections, open := open)
    }

    constructor ()
      ensures State() == NEW
    {
      listening, closed, connections, open := true, false, {}, {};
      around := NEW;
    }

    /** The accept loop with a client in hand: refuse and close it, or track it and start its goroutine. */
    method Admit(client: Conn) returns (started: bool)
      requires State().loop == Accepted(client) && Enabled(State(), Register)
      modifies this
      ensures started == !old(closed)
      ensures started ==> connections == old(connections) + {client} && open == old(open)
      ensures started ==> client in State().forwarding && client in State().served && State().loop == Accepting
      ensures !started ==> connections == old(connections) && open == old(open) - {client} && State().loop == Stopped
      ensures State()
        == (if started then After(old(State()), Register) else After(After(old(State()), Register), Refuse))
    {
      if closed {
        open := open - {client};
        around := around.(loop := Stopped);
        return false;
      }
      connections := connections + {client};
      around := around.(loop := Accepting, forwarding := around.forwarding + {client},
        served := around.served + {client});
      return true;
    }

    /** What other goroutines do while this one does not hold the mutex. */
    method Others(steps: seq<Step>)
      requires ValidSteps(State(), steps)
      modifies this
      ensures State() == RunSteps(old(State()), steps)
    {
      around := RunSteps(State(), steps);
      listening, closed, connections, open := around.listening, around.closed, around.tracked, around.open;
    }

    /**
     A goroutine that is done: it closes its client whoever holds the mutex, waits for the mutex while others go
     on, and removes the client from the table.
     */
    method Depart(client: Conn, meanwhile: seq<Step>)
      requires client in State().forwarding
      requires var left := After(State(), RelayEnds(client));
        ValidSteps(left, meanwhile) && Forget(client) !in meanwhile && MutexFree(RunSteps(left, meanwhile))
      modifies this
      ensures var left := After(old(State()), RelayEnds(client));
        && client !in connections
        && Enabled(RunSteps(left, meanwhile), Forget(client))
        && State() == After(RunSteps(left, meanwhile), Forget(client))
    {
      open := open - {client};
      around := around.(forwarding := around.forwarding - {client}, leaving := around.leaving + {client});
      StaysLeaving(State(), meanwhile, client);
      Others(meanwhile);
      connections := connections - {client};
      around := around.(leaving := around.leaving - {client});
    }

    method Close()
      requires State().closing.Idle?
      modifies this
      ensures closed && !listening && connections == old(connections) && open == old(open) - old(connections)
      ensures State() == Shut(old(State()))
      ensures exists sweep :: IsShutdown(old(State()), sweep) && RunSteps(old(State()), ShutdownSteps(sweep)) == State()
    {
      ShutdownExists(State());
      closed := true;
      listening := false;
      var todo := connections;
      while todo != {}
        invariant closed && !listening && connections == old(connections) && around == old(around)
        invariant todo <= connections
        invariant open == old(open) - (connections - todo)
        decreases todo
      {
        var connection := AnyOf(todo);
        open := open - {connection};
        todo := todo - {connection};
      }
      around := around.(closing := Finished);
    }
  }
}
