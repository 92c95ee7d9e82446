/**
 The life of a connection on the server: one handler per client, racing with
 kicks and evictions over four registries (session, stream manager, clock
 registry, latency reports). Every action is one critical section, or one close
 of a connection; the actions of all handlers and removals interleave freely.
 */
module Lifecycle {
  import opened Common

  type Id = string

  /** Where a handler stands, named after what it has done or will do next. */
  datatype Place =
    | Joined        // in the session; JOIN_ACCEPT is next
    | Accepted      // in the clock handshake
    | Answered      // all replies read; storing the offset is next
    | Measured      // offset stored; CLOCK_OFFSET is next
    | Synced        // joining the stream is next
    | Reading       // in the read loop
    | Removing      // clean-up: leaving the session is next
    | Closing       // clean-up: removed itself, closing is next
    | Streaming     // clean-up: leaving the stream is next
    | Forgetting    // clean-up: leaving the clock registry is next
    | Unreporting   // clean-up: leaving the reports is next
    | Aborting      // a failed start: leaving the session is next
    | AbortClosing  // a failed start: removed itself, closing is next
    | Returned

  /**
   A removal from outside: an eviction calls the session's `RemoveClient`, a
   kick (`streamToo`) the stream manager's after it.
   */
  datatype Task =
    | Remove(id: Id, streamToo: bool)
    | Close(id: Id, streamToo: bool)
    | Unstream(id: Id)

  datatype State = State(
    handlers: map<Id, Place>,
    session: set<Id>,
    stream: set<Id>,
    clock: set<Id>,
    reports: set<Id>,
    tasks: multiset<Task>,
    closed: multiset<Id>,   // one for each close by a `RemoveClient`
    unsent: set<Id>)        // clients whose CLOCK_OFFSET could not be written

  datatype Action =
    | Join(id: Id)
    | Handler(id: Id, ok: bool)   // the handler's next step; `ok`: the network lets its I/O through
    | Report(id: Id)              // the read loop processes a jitter report it has read
    | Start(task: Task)           // a kick or an eviction begins
    | Step(task: Task)            // one of them goes on

  function Init(): State {
    State(map[], {}, {}, {}, {}, multiset{}, multiset{}, {})
  }

  predicate Enabled(s: State, a: Action) {
    match a
    case Join(id) => id !in s.handlers
    case Handler(id, _) => id in s.handlers && s.handlers[id] != Returned
    case Report(id) => id in s.handlers && s.handlers[id] == Reading
    case Start(task) => task.Remove?
    case Step(task) => task in s.tasks
  }

  /** The handler moves on. */
  function At(s: State, id: Id, place: Place): State {
    s.(handlers := s.handlers[id := place])
  }

  /** The critical section of the session's `RemoveClient`. */
  function Unlist(s: State, id: Id): State {
    s.(session := s.session - {id})
  }

  /** The close that follows, for the call that found the client. */
  function Shut(s: State, id: Id): State {
    s.(closed := s.closed + multiset{id})
  }

  /** I/O of a handler succeeds only on a connection that no `RemoveClient` has closed. */
  predicate Passes(s: State, id: Id, ok: bool) {
    ok && s.closed[id] == 0
  }

  function HandlerStep(s: State, id: Id, ok: bool): State
    requires id in s.handlers
  {
    match s.handlers[id]
    case Joined => At(s, id, if Passes(s, id, ok) then Accepted else Aborting)
    case Accepted => At(s, id, if Passes(s, id, ok) then Answered else Aborting)
    case Answered => At(s.(clock := s.clock + {id}), id, Measured)
    case Measured =>
      if Passes(s, id, ok) then At(s, id, Synced) else At(s.(unsent := s.unsent + {id}), id, Aborting)
    case Synced => At(s.(stream := s.stream + {id}), id, Reading)
    case Reading => At(s, id, Removing)
    case Removing => At(Unlist(s, id), id, if id in s.session then Closing else Streaming)
    case Closing => At(Shut(s, id), id, Streaming)
    case Streaming => At(s.(stream := s.stream - {id}), id, Forgetting)
    case Forgetting => At(s.(clock := s.clock - {id}), id, Unreporting)
    case Unreporting => At(s.(reports := s.reports - {id}), id, Returned)
    case Aborting => At(Unlist(s, id), id, if id in s.session then AbortClosing else Returned)
    case AbortClosing => At(Shut(s, id), id, Returned)
    case Returned => s
  }

  /** What a removal does next, once its `RemoveClient` is over. */
  function After(task: Task): multiset<Task> {
    if !task.Unstream? && task.streamToo then multiset{Unstream(task.id)} else multiset{}
  }

  function TaskStep(s: State, task: Task): State {
    var rest := s.(tasks := s.tasks - multiset{task});
    match task
    case Remove(id, streamToo) =>
      if id in s.session then Unlist(rest, id).(tasks := rest.tasks + multiset{Close(id, streamToo)})
      else rest.(tasks := rest.tasks + After(task))
    case Close(id, _) => Shut(rest, id).(tasks := rest.tasks + After(task))
    case Unstream(id) => rest.(stream := rest.stream - {id})
  }

  function Apply(s: State, a: Action): State
    requires Enabled(s, a)
  {
    match a
    case Join(id) => At(s.(session := s.session + {id}), id, Joined)
    case Handler(id, ok) => HandlerStep(s, id, ok)
    case Report(id) => s.(reports := s.reports + {id})
    case Start(task) => s.(tasks := s.tasks + multiset{task})
    case Step(task) => TaskStep(s, task)
  }

  /** What is not enabled does not happen. */
  function Move(s: State, a: Action): State {
    if Enabled(s, a) then Apply(s, a) else s
  }

  function Run(actions: seq<Action>): State {
    if actions == [] then Init()
    else Move(Run(actions[..|actions| - 1]), actions[|actions| - 1])
  }

  // ---- Registries and handlers --------------------------------------------------------------

  /** The places from which a handler will still leave the session. */
  predicate Listed(p: Place) {
    p.Joined? || p.Accepted? || p.Answered? || p.Measured? || p.Synced? || p.Reading? || p.Removing? || p.Aborting?
  }

  /** The places from which a handler will still leave the stream. */
  predicate Streams(p: Place) {
    p.Reading? || p.Removing? || p.Closing? || p.Streaming?
  }

  /** The places from which a handler will still take back its reports. */
  predicate Reports(p: Place) {
    Streams(p) || p.Forgetting? || p.Unreporting?
  }

  /** The places from which a handler will still leave the clock registry. */
  predicate Clocked(p: Place) {
    Streams(p) || p.Measured? || p.Synced? || p.Forgetting?
  }

  predicate AbortsIn(p: Place) {
    p.Aborting? || p.AbortClosing? || p.Returned?
  }

  /** The calls of `RemoveClient` that took the client from the session and have not closed it yet. */
  function Pending(s: State, id: Id): nat {
    s.tasks[Close(id, true)] + s.tasks[Close(id, false)]
    + if id in s.handlers && (s.handlers[id].Closing? || s.handlers[id].AbortClosing?) then 1 else 0
  }

  /** The registries name clients only as long as their handlers will still remove them. */
  predicate Owned(s: State, id: Id) {
    && (id in s.session ==> id in s.handlers && Listed(s.handlers[id]))
    && (id in s.stream ==> id in s.handlers && Streams(s.handlers[id]))
    && (id in s.reports ==> id in s.handlers && Reports(s.handlers[id]))
    && (id in s.clock ==> id in s.handlers && (Clocked(s.handlers[id]) || (id in s.unsent && AbortsIn(s.handlers[id]))))
    && (id in s.unsent ==> id in s.clock)
    && (id in s.handlers && Clocked(s.handlers[id]) ==> id in s.clock && id !in s.unsent)
  }

  /** A client is in the session, or about to be closed, or closed: once. */
  predicate ClosedOnce(s: State, id: Id) {
    (if id in s.session then 1 else 0) + Pending(s, id) + s.closed[id] == if id in s.handlers then 1 else 0
  }

  lemma HandlerKeepsOwned(s: State, mover: Id, ok: bool, id: Id)
    requires mover in s.handlers && Owned(s, id)
    ensures Owned(HandlerStep(s, mover, ok), id)
  {
    if mover != id {
      OthersUntouched(s, mover, ok, id);
    } else {
      match s.handlers[id]
      case Joined | Reading | Removing | Closing | Aborting | AbortClosing | Returned =>
      case Accepted | Answered | Measured | Synced | Streaming | Forgetting | Unreporting =>
    }
  }

  /** A handler's step concerns its own client only. */
  lemma OthersUntouched(s: State, mover: Id, ok: bool, id: Id)
    requires mover in s.handlers && mover != id
    ensures var t := HandlerStep(s, mover, ok);
            && (id in t.handlers <==> id in s.handlers) && (id in s.handlers ==> t.handlers[id] == s.handlers[id])
            && (id in t.session <==> id in s.session) && (id in t.stream <==> id in s.stream)
            && (id in t.clock <==> id in s.clock) && (id in t.reports <==> id in s.reports)
            && (id in t.unsent <==> id in s.unsent) && t.closed[id] == s.closed[id] && t.tasks == s.tasks
  {
  }

  lemma TaskKeepsOwned(s: State, task: Task, id: Id)
    requires task in s.tasks && Owned(s, id)
    ensures Owned(TaskStep(s, task), id)
  {
  }

  lemma StepKeepsOwned(s: State, a: Action, id: Id)
    requires Enabled(s, a) && Owned(s, id)
    ensures Owned(Apply(s, a), id)
  {
    match a
    case Handler(mover, ok) => HandlerKeepsOwned(s, mover, ok, id);
    case Step(task) => TaskKeepsOwned(s, task, id);
    case Join(_) =>
    case Report(_) =>
    case Start(_) =>
  }

  lemma HandlerKeepsClosedOnce(s: State, mover: Id, ok: bool, id: Id)
    requires mover in s.handlers && ClosedOnce(s, id)
    ensures ClosedOnce(HandlerStep(s, mover, ok), id)
  {
  }

  lemma TaskKeepsClosedOnce(s: State, task: Task, id: Id)
    requires task in s.tasks && ClosedOnce(s, id)
    ensures ClosedOnce(TaskStep(s, task), id)
  {
    if task.id == id {
      OwnTaskKeepsClosedOnce(s, task);
    }
  }

  lemma OwnTaskKeepsClosedOnce(s: State, task: Task)
    requires task in s.tasks && ClosedOnce(s, task.id)
    ensures ClosedOnce(TaskStep(s, task), task.id)
  {
  }

  lemma StepKeepsClosedOnce(s: State, a: Action, id: Id)
    requires Enabled(s, a) && ClosedOnce(s, id)
    ensures ClosedOnce(Apply(s, a), id)
  {
    match a
    case Handler(mover, ok) => HandlerKeepsClosedOnce(s, mover, ok, id);
    case Step(task) => TaskKeepsClosedOnce(s, task, id);
    case Join(_) =>
    case Report(_) =>
    case Start(_) =>
  }

  lemma {:induction false} EveryRun(actions: seq<Action>, id: Id)
    ensures Owned(Run(actions), id) && ClosedOnce(Run(actions), id)
  {
    if actions != [] {
      var s, a := Run(actions[..|actions| - 1]), actions[|actions| - 1];
      EveryRun(actions[..|actions| - 1], id);
      if Enabled(s, a) {
        StepKeepsOwned(s, a, id);
        StepKeepsClosedOnce(s, a, id);
      }
    }
  }

  // ---- Over whole runs ------------------------------------------------------------------------

  /**
   In every run the stream and the reports name only clients whose handler is
   alive; once a handler has returned, its client is in neither of them, nor in
   the session, and it is in the clock registry exactly when its CLOCK_OFFSET
   could not be written. A kick between the handshake and the handler's own
   joining of the stream changes nothing of this.
   */
  lemma RegistriesNameLiveClients(actions: seq<Action>, id: Id)
    ensures var s := Run(actions);
            var returned := id in s.handlers && s.handlers[id] == Returned;
            && (id in s.session || id in s.stream || id in s.reports ==> id in s.handlers && !returned)
            && (returned ==> (id in s.clock <==> id in s.unsent))
  {
    EveryRun(actions, id);
  }

  /** As long as a client is in the read loop, the clock registry knows it. */
  lemma ReadersAreSynced(actions: seq<Action>, id: Id)
    requires var s := Run(actions); id in s.handlers && s.handlers[id] == Reading
    ensures id in Run(actions).clock
  {
    EveryRun(actions, id);
  }

  /** At most one `RemoveClient` closes a connection. */
  lemma AtMostOneCloses(actions: seq<Action>, id: Id)
    ensures Run(actions).closed[id] <= 1
  {
    EveryRun(actions, id);
  }

  /** Once the handler has returned, exactly one has, or is between its critical section and its close. */
  lemma ExactlyOneCloses(actions: seq<Action>, id: Id)
    ensures var s := Run(actions);
            id in s.handlers && s.handlers[id] == Returned ==> s.closed[id] + Pending(s, id) == 1
  {
    EveryRun(actions, id);
  }

  // ---- Undisturbed clients ---------------------------------------------------------------------

  /** No kick and no eviction of this client ever started. */
  predicate Undisturbed(actions: seq<Action>, id: Id) {
    forall k :: 0 <= k < |actions| ==> !(actions[k].Start? && actions[k].task.id == id)
  }

  /** The handler alone decides which registries name its client. */
  predicate Exact(s: State, id: Id) {
    && (forall task :: task in s.tasks ==> task.id != id)
    && (id in s.session <==> id in s.handlers && Listed(s.handlers[id]))
    && (id in s.stream <==> id in s.handlers && Streams(s.handlers[id]))
    && (id in s.clock <==> id in s.handlers && (Clocked(s.handlers[id]) || id in s.unsent))
  }

  lemma HandlerKeepsExact(s: State, mover: Id, ok: bool, id: Id)
    requires mover in s.handlers && Owned(s, id) && Exact(s, id)
    ensures Exact(HandlerStep(s, mover, ok), id)
  {
    if mover != id {
      OthersUntouched(s, mover, ok, id);
    } else {
      OwnStepKeepsExact(s, ok, id);
    }
  }

  lemma OwnStepKeepsExact(s: State, ok: bool, id: Id)
    requires id in s.handlers && Owned(s, id) && Exact(s, id)
    ensures Exact(HandlerStep(s, id, ok), id)
  {
    match s.handlers[id]
    case Joined | Reading | Removing | Closing | Aborting | AbortClosing | Returned =>
    case Accepted | Answered | Measured | Synced | Streaming | Forgetting | Unreporting =>
  }

  lemma TaskKeepsExact(s: State, task: Task, id: Id)
    requires task in s.tasks && Exact(s, id)
    ensures Exact(TaskStep(s, task), id)
  {
  }

  lemma StepKeepsExact(s: State, a: Action, id: Id)
    requires Enabled(s, a) && Owned(s, id) && Exact(s, id) && !(a.Start? && a.task.id == id)
    ensures Exact(Apply(s, a), id)
  {
    match a
    case Handler(mover, ok) => HandlerKeepsExact(s, mover, ok, id);
    case Step(task) => TaskKeepsExact(s, task, id);
    case Join(_) =>
    case Report(_) =>
    case Start(_) =>
  }

  /** Kicks and evictions of other clients leave a client in the registries it belongs in. */
  lemma {:induction false} UndisturbedIsExact(actions: seq<Action>, id: Id)
    requires Undisturbed(actions, id)
    ensures Exact(Run(actions), id)
  {
    if actions != [] {
      var before, a := actions[..|actions| - 1], actions[|actions| - 1];
      UndisturbedIsExact(before, id);
      EveryRun(before, id);
      if Enabled(Run(before), a) {
        StepKeepsExact(Run(before), a, id);
      }
    }
  }

  // ---- Progress --------------------------------------------------------------------------------

  /** The handler serves its client no more. */
  predicate Stops(p: Place) {
    !Listed(p) || p.Removing? || p.Aborting?
  }

  /** How many of its own steps a handler that stopped serving is away from returning. */
  function StepsLeft(p: Place): nat
    requires Stops(p)
  {
    match p
    case Removing => 5
    case Closing => 4
    case Streaming => 3
    case Forgetting => 2
    case Unreporting => 1
    case Aborting => 2
    case AbortClosing => 1
    case _ => 0
  }

  predicate Stopped(s: State, id: Id) {
    id in s.handlers && Stops(s.handlers[id])
  }

  /**
   Nothing from outside holds a clean-up up: each step of the handler brings it
   closer to its return, and steps of others never take it back.
   */
  lemma CleanupAdvances(s: State, a: Action, id: Id)
    requires Stopped(s, id)
    ensures var t := Move(s, a);
            && Stopped(t, id)
            && if a.Handler? && a.id == id then
                 t.handlers[id] == Returned || StepsLeft(t.handlers[id]) < StepsLeft(s.handlers[id])
               else t.handlers[id] == s.handlers[id]
  {
  }

  /** The turns a handler gets in a run. */
  function Turns(actions: seq<Action>, id: Id): nat {
    if actions == [] then 0
    else
      var a := actions[|actions| - 1];
      Turns(actions[..|actions| - 1], id) + if a.Handler? && a.id == id then 1 else 0
  }

  /** A stopped handler returns after at most five turns of its own, whatever happens in between. */
  lemma CleanupCompletes(before: seq<Action>, more: seq<Action>, id: Id)
    requires Stopped(Run(before), id) && Turns(more, id) >= 5
    ensures id in Run(before + more).handlers && Run(before + more).handlers[id] == Returned
  {
    TurnsCount(before, more, id);
  }

  lemma {:induction false} TurnsCount(before: seq<Action>, more: seq<Action>, id: Id)
    requires Stopped(Run(before), id)
    ensures var t := Run(before + more);
            && Stopped(t, id)
            && (t.handlers[id] == Returned
                || StepsLeft(t.handlers[id]) + Turns(more, id) <= StepsLeft(Run(before).handlers[id]))
    decreases |more|
  {
    if more == [] {
      assert before + more == before;
    } else {
      var shorter := more[..|more| - 1];
      TurnsCount(before, shorter, id);
      RunSplits(before, more);
      CleanupAdvances(Run(before + shorter), more[|more| - 1], id);
    }
  }

  lemma RunSplits(before: seq<Action>, more: seq<Action>)
    requires more != []
    ensures Run(before + more) == Move(Run(before + more[..|more| - 1]), more[|more| - 1])
  {
    RunUnfolds(before + more);
    FrontOfJoin(before, more);
  }

  lemma RunUnfolds(actions: seq<Action>)
    requires actions != []
    ensures Run(actions) == Move(Run(actions[..|actions| - 1]), actions[|actions| - 1])
  {
  }

  lemma OneMore(actions: seq<Action>, a: Action)
    requires Enabled(Run(actions), a)
    ensures Run(actions + [a]) == Apply(Run(actions), a)
  {
    assert (actions + [a])[..|actions|] == actions;
  }

  /** A client that has completed the handshake. */
  function Handshake(id: Id): seq<Action> {
    [Join(id)] + [Handler(id, true)] + [Handler(id, true)] + [Handler(id, true)] + [Handler(id, true)]
  }

  lemma AfterHandshake(id: Id)
    ensures Run(Handshake(id)) == State(map[id := Synced], {id}, {}, {id}, {}, multiset{}, multiset{}, {})
  {
    var ok := Handler(id, true);
    assert [] + [Join(id)] == [Join(id)];
    OneMore([], Join(id));
    OneMore([Join(id)], ok);
    OneMore([Join(id)] + [ok], ok);
    OneMore([Join(id)] + [ok] + [ok], ok);
    OneMore([Join(id)] + [ok] + [ok] + [ok], ok);
  }

  /** A whole kick, nothing in between. */
  function Kick(id: Id): seq<Action> {
    [Start(Remove(id, true))] + [Step(Remove(id, true))] + [Step(Close(id, true))] + [Step(Unstream(id))]
  }

  lemma AfterKick(id: Id, h: seq<Action>, joined: State)
    requires Run(h) == joined && joined == State(map[id := Synced], {id}, {}, {id}, {}, multiset{}, multiset{}, {})
    ensures Run(h + Kick(id)) == joined.(session := {}, closed := multiset{id})
  {
    Unlisted(id, h, joined);
    var removed := joined.(session := {}, tasks := multiset{Close(id, true)});
    ClosedAndUnstreamed(id, h + [Start(Remove(id, true))] + [Step(Remove(id, true))], removed);
    KickInSteps(id, h);
  }

  lemma KickInSteps(id: Id, h: seq<Action>)
    ensures h + Kick(id)
         == h + [Start(Remove(id, true))] + [Step(Remove(id, true))] + [Step(Close(id, true))] + [Step(Unstream(id))]
  {
  }

  lemma Unlisted(id: Id, h: seq<Action>, s: State)
    requires Run(h) == s && s.tasks == multiset{} && s.session == {id}
    ensures Run(h + [Start(Remove(id, true))] + [Step(Remove(id, true))])
         == s.(session := {}, tasks := multiset{Close(id, true)})
  {
    OneMore(h, Start(Remove(id, true)));
    assert Run(h + [Start(Remove(id, true))]) == s.(tasks := multiset{Remove(id, true)});
    OneMore(h + [Start(Remove(id, true))], Step(Remove(id, true)));
    assert s.session - {id} == {};
  }

  lemma ClosedAndUnstreamed(id: Id, h: seq<Action>, s: State)
    requires Run(h) == s && s.tasks == multiset{Close(id, true)} && id !in s.stream && s.closed == multiset{}
    ensures Run(h + [Step(Close(id, true))] + [Step(Unstream(id))]) == s.(tasks := multiset{}, closed := multiset{id})
  {
    OneMore(h, Step(Close(id, true)));
    assert Run(h + [Step(Close(id, true))]) == s.(tasks := multiset{Unstream(id)}, closed := multiset{id});
    OneMore(h + [Step(Close(id, true))], Step(Unstream(id)));
    assert s.stream - {id} == s.stream;
  }

  /**
   A kick that is over before the handler joins the stream does not keep the
   client out of it: the client is streamed to, without being in the session,
   until its handler notices the closed connection.
   */
  lemma KickBeforeStreaming(id: Id)
    ensures var s := Run(Handshake(id) + Kick(id) + [Handler(id, true)]);
            id in s.stream && id !in s.session && s.tasks == multiset{} && s.closed[id] == 1
  {
    AfterHandshake(id);
    AfterKick(id, Handshake(id), Run(Handshake(id)));
    OneMore(Handshake(id) + Kick(id), Handler(id, true));
  }

  // ---- How long a kick lasts -----------------------------------------------------------------------

  /** Before the handler has written CLOCK_OFFSET. */
  predicate Early(p: Place) {
    p.Joined? || p.Accepted? || p.Answered? || p.Measured?
  }

  /** The handler may still join the stream: it is about to, or I/O that leads there can still succeed. */
  predicate MayJoin(s: State, id: Id)
    requires id in s.handlers
  {
    s.handlers[id].Synced? || (Early(s.handlers[id]) && s.closed[id] == 0)
  }

  /** A client that is not in the stream. */
  predicate Out(s: State, id: Id) {
    id in s.handlers && id !in s.stream
  }

  /**
   A client out of the stream stays out of it, whatever happens next, exactly
   when its handler is neither about to join nor on its way there over a
   connection still open.
   */
  lemma StaysOutIff(before: seq<Action>, id: Id)
    requires Out(Run(before), id)
    ensures (forall more :: Out(Run(before + more), id)) <==> !MayJoin(Run(before), id)
  {
    if MayJoin(Run(before), id) {
      var more := JoinsLater(before, id);
      assert !Out(Run(before + more), id);
    } else {
      forall more
        ensures Out(Run(before + more), id)
      {
        StaysOut(before, more, id);
      }
    }
  }

  /**
   A kick that has closed the connection and taken the client out of the stream
   lasts, exactly unless it fell between the handler's writing of CLOCK_OFFSET
   and its joining of the stream.
   */
  lemma KickLastsIff(before: seq<Action>, id: Id)
    requires Out(Run(before), id) && Run(before).closed[id] > 0
    ensures (forall more :: Out(Run(before + more), id)) <==> !Run(before).handlers[id].Synced?
  {
    StaysOutIff(before, id);
  }

  /** The last step of a kick takes the client out of the stream, and nothing else changes for it. */
  lemma UnstreamTakesOut(s: State, id: Id)
    requires Unstream(id) in s.tasks
    ensures var t := Apply(s, Step(Unstream(id)));
            && id !in t.stream && t.handlers == s.handlers && t.closed == s.closed && t.session == s.session
            && t.tasks == s.tasks - multiset{Unstream(id)}
            && forall other :: other != id ==> (other in t.stream <==> other in s.stream)
  {
  }

  /** A kick that goes through to its last step over a closed connection: when it lasts, from the run it ends. */
  lemma FinishedKickLastsIff(before: seq<Action>, id: Id)
    requires id in Run(before).handlers && Run(before).closed[id] > 0 && Unstream(id) in Run(before).tasks
    ensures var done := before + [Step(Unstream(id))];
            && Out(Run(done), id)
            && ((forall more :: Out(Run(done + more), id)) <==> !Run(before).handlers[id].Synced?)
  {
    OneMore(before, Step(Unstream(id)));
    UnstreamTakesOut(Run(before), id);
    KickLastsIff(before + [Step(Unstream(id))], id);
  }

  lemma StepStaysOut(s: State, a: Action, id: Id)
    requires Out(s, id) && !MayJoin(s, id)
    ensures Out(Move(s, a), id) && !MayJoin(Move(s, a), id)
  {
    if a.Handler? && Enabled(s, a) {
      if a.id != id {
        OthersUntouched(s, a.id, a.ok, id);
      } else {
        OwnStepStaysOut(s, id, a.ok);
      }
    } else if a.Step? && Enabled(s, a) {
      TaskStaysOut(s, a.task, id);
    }
  }

  lemma OwnStepStaysOut(s: State, id: Id, ok: bool)
    requires Out(s, id) && !MayJoin(s, id)
    ensures Out(HandlerStep(s, id, ok), id) && !MayJoin(HandlerStep(s, id, ok), id)
  {
  }

  lemma TaskStaysOut(s: State, task: Task, id: Id)
    requires task in s.tasks && Out(s, id) && !MayJoin(s, id)
    ensures Out(TaskStep(s, task), id) && !MayJoin(TaskStep(s, task), id)
  {
  }

  lemma {:induction false} StaysOut(before: seq<Action>, more: seq<Action>, id: Id)
    requires Out(Run(before), id) && !MayJoin(Run(before), id)
    ensures Out(Run(before + more), id) && !MayJoin(Run(before + more), id)
    decreases |more|
  {
    if more == [] {
      assert before + more == before;
    } else {
      RunSplits(before, more);
      StaysOut(before, more[..|more| - 1], id);
      StepStaysOut(Run(before + more[..|more| - 1]), more[|more| - 1], id);
    }
  }

  function StepsToStream(p: Place): nat {
    match p
    case Joined => 5
    case Accepted => 4
    case Answered => 3
    case Measured => 2
    case Synced => 1
    case _ => 0
  }

  lemma GoesOn(s: State, id: Id)
    requires id in s.handlers && MayJoin(s, id)
    ensures var t := HandlerStep(s, id, true);
            if s.handlers[id].Synced? then id in t.stream
            else
              && id in t.handlers && MayJoin(t, id)
              && StepsToStream(t.handlers[id]) < StepsToStream(s.handlers[id])
  {
  }

  /** A run in which the handler goes on without a failure. */
  lemma {:induction false} JoinsLater(before: seq<Action>, id: Id) returns (more: seq<Action>)
    requires id in Run(before).handlers && MayJoin(Run(before), id)
    ensures id in Run(before + more).stream
    decreases StepsToStream(Run(before).handlers[id])
  {
    var a := Handler(id, true);
    OneMore(before, a);
    GoesOn(Run(before), id);
    if Run(before).handlers[id].Synced? {
      more := [a];
    } else {
      var rest := JoinsLater(before + [a], id);
      more := [a] + rest;
      assert before + more == before + [a] + rest;
    }
  }

  // ---- How long a kicked client is still streamed to ------------------------------------------------

  /** How many of its own steps a handler is away from having left the stream for good, its connection closed. */
  function StepsToLeave(p: Place): nat {
    match p
    case Synced => 5
    case Reading => 4
    case Removing => 3
    case Closing => 2
    case Streaming => 1
    case _ => 0
  }

  predicate ShutOut(s: State, id: Id) {
    id in s.handlers && s.closed[id] > 0
  }

  lemma LeavingAdvances(s: State, a: Action, id: Id)
    requires ShutOut(s, id)
    ensures var t, left := Move(s, a), StepsToLeave(s.handlers[id]);
            && ShutOut(t, id)
            && if a.Handler? && a.id == id then
                 StepsToLeave(t.handlers[id]) < left || (left == 0 && StepsToLeave(t.handlers[id]) == 0)
               else t.handlers[id] == s.handlers[id]
  {
    if a.Handler? && Enabled(s, a) {
      if a.id == id {
        OwnStepLeaves(s, id, a.ok);
      } else {
        OthersUntouched(s, a.id, a.ok, id);
      }
    }
  }

  lemma OwnStepLeaves(s: State, id: Id, ok: bool)
    requires ShutOut(s, id)
    ensures var t, left := HandlerStep(s, id, ok), StepsToLeave(s.handlers[id]);
            && ShutOut(t, id)
            && (StepsToLeave(t.handlers[id]) < left || (left == 0 && StepsToLeave(t.handlers[id]) == 0))
  {
  }

  lemma LeftForGood(s: State, id: Id)
    requires ShutOut(s, id) && StepsToLeave(s.handlers[id]) == 0 && Owned(s, id)
    ensures Out(s, id) && !MayJoin(s, id)
  {
  }

  lemma {:induction false} LeavingCounts(before: seq<Action>, more: seq<Action>, id: Id)
    requires ShutOut(Run(before), id)
    ensures var t := Run(before + more);
            && ShutOut(t, id)
            && (StepsToLeave(t.handlers[id]) == 0
                || StepsToLeave(t.handlers[id]) + Turns(more, id) <= StepsToLeave(Run(before).handlers[id]))
    decreases |more|
  {
    if more == [] {
      assert before + more == before;
    } else {
      var shorter := more[..|more| - 1];
      LeavingCounts(before, shorter, id);
      RunSplits(before, more);
      LeavingAdvances(Run(before + shorter), more[|more| - 1], id);
    }
  }

  /**
   A client whose connection was closed is out of the stream for good after at
   most five turns of its handler, wherever the kick found it and whatever
   happens in between.
   */
  lemma KickedClientLeaves(before: seq<Action>, more: seq<Action>, id: Id)
    requires ShutOut(Run(before), id) && Turns(more, id) >= 5
    ensures Out(Run(before + more), id)
    ensures forall later :: Out(Run(before + more + later), id)
  {
    LeavingCounts(before, more, id);
    EveryRun(before + more, id);
    LeftForGood(Run(before + more), id);
    forall later
      ensures Out(Run(before + more + later), id)
    {
      StaysOut(before + more, later, id);
    }
  }

  // ---- What a removal goes through ------------------------------------------------------------------

  /** Whoever finds the client in the session closes its connection next; the others have nothing to close. */
  lemma FinderCloses(s: State, id: Id, streamToo: bool)
    requires Remove(id, streamToo) in s.tasks
    ensures var t := Apply(s, Step(Remove(id, streamToo)));
            && id !in t.session && t.closed == s.closed && t.stream == s.stream && t.handlers == s.handlers
            && (id in s.session ==>
                  t.tasks == s.tasks - multiset{Remove(id, streamToo)} + multiset{Close(id, streamToo)})
            && (id !in s.session ==> t.tasks[Close(id, streamToo)] == s.tasks[Close(id, streamToo)])
  {
  }

  /** A kick goes on to the stream in either case, an eviction in none. */
  lemma OnlyKicksUnstream(s: State, id: Id, streamToo: bool)
    requires (Remove(id, streamToo) in s.tasks && id !in s.session) || Close(id, streamToo) in s.tasks
    ensures var task := if Close(id, streamToo) in s.tasks then Close(id, streamToo) else Remove(id, streamToo);
            Apply(s, Step(task)).tasks[Unstream(id)] == s.tasks[Unstream(id)] + if streamToo then 1 else 0
  {
  }

  /** A jitter report is kept until the handler takes it back as its last step. */
  lemma ReportsStay(s: State, a: Action, id: Id)
    requires Enabled(s, a)
    ensures a == Report(id) ==> id in Apply(s, a).reports
    ensures id in s.reports && id !in Apply(s, a).reports ==>
              a.Handler? && a.id == id && s.handlers[id].Unreporting? && Apply(s, a).handlers[id] == Returned
  {
  }

  /** I/O that fails, or meets a closed connection, ends the start; the handler then leaves the session and returns. */
  lemma FailedStartAborts(s: State, id: Id, ok: bool)
    requires id in s.handlers && (s.handlers[id].Joined? || s.handlers[id].Accepted? || s.handlers[id].Measured?)
    ensures var t := Apply(s, Handler(id, ok));
            && (t.handlers[id] == Aborting <==> !ok || s.closed[id] > 0)
            && t.session == s.session && t.stream == s.stream && t.clock == s.clock
            && (id in t.unsent && id !in s.unsent <==>
                  s.handlers[id].Measured? && t.handlers[id] == Aborting && id !in s.unsent)
  {
  }

  /** A start in which all I/O passes goes through the handshake into the read loop. */
  lemma GoodStartReads(id: Id)
    ensures var s := Run(Handshake(id) + [Handler(id, true)]);
            && s.handlers == map[id := Reading] && s.session == {id} && s.stream == {id} && s.clock == {id}
            && s.unsent == {} && s.closed == multiset{}
  {
    AfterHandshake(id);
    OneMore(Handshake(id), Handler(id, true));
  }
}
