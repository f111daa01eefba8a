/**
 * The host side of task bridging, the runtime registry and the mount
 * bookkeeping of one computer.
 *
 * A Lua script that asks the host for work issues a task with a fresh id
 * and then pulls completion events from its own queue until one carries
 * that id: `(name, id, true, values...)` on success, `(name, id, false,
 * message?)` on failure. Events that are malformed or carry another task's
 * id are dropped. The pulled events are an input sequence here; the
 * background scheduler that produces them is the `DelayedTasks` class
 * below, reduced to its id counter and its table of pending tasks.
 */
module LuaEnvironment {
  import opened Wrappers
  import opened JavaInts

  // ---------------------------------------------------------------------
  // Values carried by a completion event
  // ---------------------------------------------------------------------

  /**
   * A Java object found in a pulled event, as far as the correlation loop
   * looks at it: `Integer` (also `Short` and `Byte`), `Long` and `Double`
   * are the `Number` kinds; anything else is kept opaque.
   */
  datatype Value =
    | Null
    | Bool(b: bool)
    | Str(s: string)
    | IntNumber(i: Int32)
    | LongNumber(l: Int64)
    | DoubleNumber(d: real)
    | Other(tag: nat)
  {
    /** `instanceof Number`. */
    predicate IsNumber() {
      IntNumber? || LongNumber? || DoubleNumber?
    }
  }

  /** `Number.intValue()`: an int as is, a long cut to its low 32 bits, a double truncated and saturated. */
  function IntValue(v: Value): (r: Int32)
    requires v.IsNumber()
    ensures v.IntNumber? ==> r == v.i
    ensures v.LongNumber? ==> (r - v.l) % 0x1_0000_0000 == 0
    ensures v.LongNumber? && IntMin <= v.l <= IntMax ==> r == v.l
    ensures v.DoubleNumber? && IntMin <= Truncate(v.d) <= IntMax ==> r == Truncate(v.d)
  {
    match v
    case IntNumber(i) => i
    case LongNumber(l) => ToInt(l)
    case DoubleNumber(d) => DoubleToInt(d)
  }

  /**
   * The loop's exit test: at least three elements, a `Number` id, a
   * `Boolean` flag, and an id whose `intValue()` widened to `long` equals
   * the awaited id. Element 0 is the event name, which the pull has already
   * filtered on. Since the event's id is cut to an int first, a task whose
   * id lies outside the int range is never matched.
   */
  predicate Matches(response: seq<Value>, id: int): (r: bool)
    ensures r ==> IntMin <= id <= IntMax
  {
    |response| >= 3 && response[1].IsNumber() && response[2].Bool? && IntValue(response[1]) == id
  }

  // ---------------------------------------------------------------------
  // The correlation loop
  // ---------------------------------------------------------------------

  /** What one `pullEvent` call yields: an event, or one of the two exceptions it may throw. */
  datatype Pulled = Event(values: seq<Value>) | Raise(error: PullError)

  /** `InterruptedException`, or a `LuaException` (such as the one a terminate event causes) with its message. */
  datatype PullError = Interrupted | PullLuaError(message: Option<string>)

  /**
   * Where the loop stops in a queue of pulled events: at the event that
   * matches (its position and contents), at the exception the pull threw,
   * or nowhere, when the queue runs out and the Java code would block.
   */
  datatype Wait = Matched(index: nat, response: seq<Value>) | Aborted(index: nat, error: PullError) | Exhausted

  /** A pull the loop discards: an event that does not match the id. */
  predicate Skipped(p: Pulled, id: int) {
    p.Event? && !Matches(p.values, id)
  }

  /** The same stop, `n` events further down the queue. */
  function Shift(w: Wait, n: nat): Wait {
    match w
    case Matched(k, response) => Matched(k + n, response)
    case Aborted(k, e) => Aborted(k + n, e)
    case Exhausted => Exhausted
  }

  /**
   * The specification of the do-while loop: it stops at the first pull
   * that either throws or yields a matching event, having discarded every
   * event before it.
   */
  function Await(events: seq<Pulled>, id: int): (w: Wait)
    ensures w.Matched? ==> w.index < |events| && events[w.index] == Event(w.response) && Matches(w.response, id)
    ensures w.Aborted? ==> w.index < |events| && events[w.index] == Raise(w.error)
    ensures !w.Exhausted? ==> forall j :: 0 <= j < w.index ==> Skipped(events[j], id)
    ensures w.Exhausted? ==> forall j :: 0 <= j < |events| ==> Skipped(events[j], id)
    decreases |events|
  {
    if events == [] then Exhausted
    else match events[0]
      case Raise(e) => Aborted(0, e)
      case Event(response) =>
        if Matches(response, id) then Matched(0, response)
        else
          var w := Await(events[1..], id);
          assert forall j :: 0 <= j < |events| - 1 ==> events[1..][j] == events[j + 1];
          Shift(w, 1)
  }

  /** The stop is determined by the first pull that is not skipped. */
  lemma AwaitStopsAt(events: seq<Pulled>, id: int, k: nat)
    requires k < |events| && !Skipped(events[k], id)
    requires forall j :: 0 <= j < k ==> Skipped(events[j], id)
    ensures events[k].Raise? ==> Await(events, id) == Aborted(k, events[k].error)
    ensures events[k].Event? ==> Await(events, id) == Matched(k, events[k].values)
  {
    var w := Await(events, id);
    if w.Exhausted? {
      assert false;
    } else if w.index < k {
      assert false;
    } else if w.index > k {
      assert false;
    }
  }

  /**
   * `executeTask`'s do-while loop over `context.pullEvent`: pulls until an
   * event matches or the pull throws.
   */
  method PullResponse(events: seq<Pulled>, id: int) returns (w: Wait)
    ensures w == Await(events, id)
  {
    var i := 0;
    while i < |events|
      invariant 0 <= i <= |events|
      invariant forall j :: 0 <= j < i ==> Skipped(events[j], id)
    {
      match events[i]
      case Raise(e) =>
        AwaitStopsAt(events, id, i);
        return Aborted(i, e);
      case Event(response) =>
        if Matches(response, id) {
          AwaitStopsAt(events, id, i);
          return Matched(i, response);
        }
      i := i + 1;
    }
    return Exhausted;
  }

  /** How a task's wait ends for the script: the values, a `LuaException` or `InterruptedException`, or still waiting. */
  datatype TaskResult = Returned(values: seq<Value>) | Raised(error: TaskError) | Blocked

  /** A `LuaException` with its optional message, or an `InterruptedException`. */
  datatype TaskError = LuaError(message: Option<string>) | Interrupt

  /** The message `issueTask` throws when the scheduler refuses a task. */
  const TooManyTasks := "Too many tasks"

  /**
   * What `executeTask` makes of its matching event: on a true flag the
   * trailing values in their order, on a false flag an error carrying
   * element 3 when it is a string.
   */
  function Completion(response: seq<Value>): (r: TaskResult)
    requires |response| >= 3 && response[2].Bool?
    ensures r.Returned? <==> response[2].b
    ensures r.Returned? ==> |r.values| == |response| - 3 && forall j :: 0 <= j < |r.values| ==> r.values[j] == response[j + 3]
    ensures r.Raised? ==> r.error.LuaError?
    ensures r.Raised? ==> (r.error.message.Some? <==> |response| >= 4 && response[3].Str?)
    ensures r.Raised? && r.error.message.Some? ==> r.error.message.value == response[3].s
  {
    if !response[2].b then
      if |response| >= 4 && response[3].Str? then Raised(LuaError(Some(response[3].s))) else Raised(LuaError(None))
    else
      Returned(response[3..])
  }

  /** The error a pull exception becomes: it is rethrown unchanged. */
  function Rethrown(e: PullError): (r: TaskError)
    ensures r.Interrupt? <==> e.Interrupted?
    ensures r.LuaError? ==> r.message == e.message
  {
    match e
    case Interrupted => Interrupt
    case PullLuaError(m) => LuaError(m)
  }

  /**
   * What waiting for task `id` over the queue `events` ends in: still
   * blocked exactly when every event was discarded, an interrupt only when
   * a pull was interrupted, and values only from a matching event whose
   * flag is true.
   */
  function Outcome(events: seq<Pulled>, id: int): (r: TaskResult)
    ensures r.Blocked? <==> forall j :: 0 <= j < |events| ==> Skipped(events[j], id)
    ensures r == Raised(Interrupt) ==> Raise(Interrupted) in events
    ensures r.Returned? ==>
      exists k :: (0 <= k < |events| && events[k].Event? && Matches(events[k].values, id)
                   && events[k].values[2].b && r.values == events[k].values[3..])
  {
    match Await(events, id)
    case Matched(_, response) => Completion(response)
    case Aborted(_, e) => Raised(Rethrown(e))
    case Exhausted => Blocked
  }

  // ---------------------------------------------------------------------
  // Properties of the correlation loop
  // ---------------------------------------------------------------------

  /** A completion event for task `id`, as the scheduler builds it. */
  function CompletionEvent(id: int, success: bool, rest: seq<Value>): seq<Value>
    requires IntMin <= id <= IntMax
  {
    [Str("task_complete"), IntNumber(id), Bool(success)] + rest
  }

  /** Behind any number of discarded events, a successful completion returns exactly its trailing values. */
  lemma SuccessReturnsValues(events: seq<Pulled>, id: int, k: nat, values: seq<Value>)
    requires IntMin <= id <= IntMax
    requires k < |events| && events[k] == Event(CompletionEvent(id, true, values))
    requires forall j :: 0 <= j < k ==> Skipped(events[j], id)
    ensures Outcome(events, id) == Returned(values)
  {
    var response := CompletionEvent(id, true, values);
    assert Matches(response, id);
    AwaitStopsAt(events, id, k);
    assert response[3..] == values;
  }

  /** A failed completion raises an error with its message when it carries one, and without one otherwise. */
  lemma FailureRaisesMessage(events: seq<Pulled>, id: int, k: nat, message: Option<string>)
    requires IntMin <= id <= IntMax
    requires k < |events|
    requires events[k] == Event(CompletionEvent(id, false, if message.Some? then [Str(message.value)] else []))
    requires forall j :: 0 <= j < k ==> Skipped(events[j], id)
    ensures Outcome(events, id) == Raised(LuaError(message))
  {
    var response := events[k].values;
    assert Matches(response, id);
    AwaitStopsAt(events, id, k);
  }

  /**
   * Two tasks issued before either is awaited: when the other task's
   * completion arrives first, waiting for `mine` consumes and drops it and
   * returns `mine`'s own values.
   */
  lemma OtherTaskCompletionDropped(mine: int, other: int, mineValues: seq<Value>, otherValues: seq<Value>)
    requires IntMin <= mine <= IntMax && IntMin <= other <= IntMax && mine != other
    ensures
      var events := [Event(CompletionEvent(other, true, otherValues)), Event(CompletionEvent(mine, true, mineValues))];
      Await(events, mine).Matched? && Await(events, mine).index == 1 && Outcome(events, mine) == Returned(mineValues)
  {
    var events := [Event(CompletionEvent(other, true, otherValues)), Event(CompletionEvent(mine, true, mineValues))];
    assert Skipped(events[0], mine);
    SuccessReturnsValues(events, mine, 1, mineValues);
    AwaitStopsAt(events, mine, 1);
  }

  /** Events pulled after the stop do not matter; a queue with no stop hands the decision to what follows it. */
  lemma {:induction false} AwaitExtends(events: seq<Pulled>, more: seq<Pulled>, id: int)
    ensures !Await(events, id).Exhausted? ==> Await(events + more, id) == Await(events, id)
    ensures Await(events, id).Exhausted? ==> Await(events + more, id) == Shift(Await(more, id), |events|)
  {
    var w := Await(events, id);
    var all := events + more;
    if !w.Exhausted? {
      assert forall j :: 0 <= j < w.index ==> all[j] == events[j];
      AwaitStopsAt(all, id, w.index);
    } else {
      var v := Await(more, id);
      assert forall j :: 0 <= j < |events| ==> all[j] == events[j];
      assert forall j :: 0 <= j < |more| ==> all[|events| + j] == more[j];
      if v.Exhausted? {
        var u := Await(all, id);
        if !u.Exhausted? {
          assert false;
        }
      } else {
        AwaitStopsAt(all, id, |events| + v.index);
      }
    }
  }

  // ---------------------------------------------------------------------
  // The scheduler's side of a task
  // ---------------------------------------------------------------------

  /** The work a task stands for: the sleep task that returns nothing, or some other host task. */
  datatype Task = SleepTask | HostTask(tag: nat)

  /** A task the scheduler holds until it runs: the computer it belongs to, its work and its delay in ticks. */
  datatype PendingTask = PendingTask(computer: int, task: Task, delay: int)

  /**
   * `DelayedTasks` as `issueTask` and `executeTask` use it: a counter that
   * hands out ids, and a table of pending tasks with a size limit. The
   * scheduler's source is not part of this model; running a task and
   * queueing its completion event happen outside it.
   */
  class DelayedTasks {
    var nextId: int
    var pending: map<int, PendingTask>
    const limit: nat

    /** Every pending id was handed out before. */
    predicate Valid()
      reads this
    {
      forall id :: id in pending ==> id < nextId
    }

    constructor (limit: nat)
      ensures Valid()
      ensures this.limit == limit && nextId == 0 && pending == map[]
    {
      this.limit := limit;
      nextId := 0;
      pending := map[];
    }

    /** `getNextId`: the next id of the process; ids are never handed out twice. */
    method GetNextId() returns (id: int)
      requires Valid()
      modifies this
      ensures Valid()
      ensures id == old(nextId) && nextId == id + 1 && id !in pending
      ensures pending == old(pending)
    {
      id := nextId;
      nextId := nextId + 1;
    }

    /** `addTask`: registers a pending task unless the table is full. */
    method AddTask(task: PendingTask, id: int) returns (added: bool)
      modifies this
      ensures added <==> |old(pending)| < limit
      ensures pending == if added then old(pending)[id := task] else old(pending)
      ensures nextId == old(nextId)
    {
      added := |pending| < limit;
      if added {
        pending := pending[id := task];
      }
    }

    /** `cancel`: forgets whatever is pending under this id. */
    method Cancel(id: int)
      modifies this
      ensures pending == old(pending) - {id}
      ensures nextId == old(nextId)
    {
      pending := pending - {id};
    }
  }

  // ---------------------------------------------------------------------
  // The registry and task bridging
  // ---------------------------------------------------------------------

  /** A Lua runtime factory, known by its id (such as "luaj"). */
  datatype MachineFactory = MachineFactory(id: string, tag: nat)

  /** A host API object: its method names and, when it is an `IMethodDescriptor`, the methods it says may yield. */
  datatype Api = Api(methodNames: seq<string>, yielding: Option<set<int>>)

  /**
   * An API factory, known by its identity `tag` (the registry is a
   * `HashSet` of objects, compared by identity); `produces` is what its
   * `create` returns for a computer (`None` for null).
   */
  datatype ApiFactory = ApiFactory(tag: nat, names: seq<string>, produces: Option<Api>)

  /** `LuaAPI`: the adapter `inject` wraps around each created API. */
  datatype LuaApi = LuaApi(api: Api, factory: ApiFactory)

  /** Errors the host side throws outside Lua. */
  datatype HostError =
    | IllegalArgument(message: string)
    | NullPointer(message: string)
    | IllegalState(message: string)
    | RuntimeError(message: string)

  /** The message both registration methods give for a null factory. */
  const NullFactory := "factory cannot be null"

  /** The message `getUsedMachine` gives when no runtime is registered. */
  const NoRuntime := "Cannot find any runtime"

  /** The runtime `getUsedMachine` falls back to. */
  const DefaultRuntime := "luaj"

  /** A computer, as far as `inject` and `ComputerAccess` touch it: its APIs and its file system. */
  class Computer {
    var apis: seq<LuaApi>
    const fileSystem: FileSystem

    constructor (fileSystem: FileSystem)
      ensures apis == [] && this.fileSystem == fileSystem
    {
      apis := [];
      this.fileSystem := fileSystem;
    }

    /** `addAPI`. */
    method AddApi(api: LuaApi)
      modifies this
      ensures apis == old(apis) + [api]
    {
      apis := apis + [api];
    }
  }

  /** The factories in `apis` whose `create` returns an API. */
  function Producing(apis: set<ApiFactory>): set<ApiFactory> {
    set f | f in apis && f.produces.Some?
  }

  /** The factories behind a list of adapters. */
  function FactoriesOf(added: seq<LuaApi>): set<ApiFactory> {
    set a | a in added :: a.factory
  }

  /** Each factory's API is wrapped once, with the factory it came from. */
  predicate Wraps(added: seq<LuaApi>) {
    (forall a :: a in added ==> a.factory.produces == Some(a.api))
    && (forall i, j :: 0 <= i < j < |added| ==> added[i].factory != added[j].factory)
  }

  /**
   * The environment: the registered API factories, the runtime factories
   * by id, and the scheduler its tasks go to.
   */
  class LuaEnvironment {
    var apis: set<ApiFactory>
    var machines: map<string, MachineFactory>
    const tasks: DelayedTasks

    constructor (tasks: DelayedTasks)
      ensures apis == {} && machines == map[] && this.tasks == tasks
    {
      apis := {};
      machines := map[];
      this.tasks := tasks;
    }

    /**
     * `registerAPI`, with its null check on the factory; the factory joins
     * the set (a second registration of the same factory changes nothing).
     */
    method RegisterApi(factory: Option<ApiFactory>) returns (error: Option<HostError>)
      modifies this
      ensures factory.None? ==> error == Some(NullPointer(NullFactory)) && apis == old(apis)
      ensures factory.Some? ==> error.None? && apis == old(apis) + {factory.value}
      ensures machines == old(machines)
    {
      if factory.None? {
        return Some(NullPointer(NullFactory));
      }
      apis := apis + {factory.value};
      return None;
    }

    /** `registerMachine`: rejects null, otherwise the factory replaces any earlier one with its id. */
    method RegisterMachine(factory: Option<MachineFactory>) returns (error: Option<HostError>)
      modifies this
      ensures factory.None? ==> error == Some(IllegalArgument(NullFactory)) && machines == old(machines)
      ensures factory.Some? ==> error.None? && machines == old(machines)[factory.value.id := factory.value]
      ensures factory.Some? ==> UsedMachine(machines, factory.value.id) == Ok(factory.value)
      ensures apis == old(apis)
    {
      if factory.None? {
        return Some(IllegalArgument(NullFactory));
      }
      machines := machines[factory.value.id := factory.value];
      return None;
    }

    /** `issueTask`: draws an id, then either registers a pending task under it or throws "Too many tasks". */
    method IssueTask(computer: int, task: Task, delay: int) returns (r: Result<int, TaskError>)
      requires tasks.Valid()
      modifies tasks
      ensures tasks.Valid()
      ensures tasks.nextId == old(tasks.nextId) + 1
      ensures |old(tasks.pending)| < tasks.limit ==>
        r == Ok(old(tasks.nextId)) && old(tasks.nextId) !in old(tasks.pending)
        && tasks.pending == old(tasks.pending)[old(tasks.nextId) := PendingTask(computer, task, delay)]
      ensures |old(tasks.pending)| >= tasks.limit ==>
        r == Err(LuaError(Some(TooManyTasks))) && tasks.pending == old(tasks.pending)
    {
      var id := tasks.GetNextId();
      var added := tasks.AddTask(PendingTask(computer, task, delay), id);
      if !added {
        return Err(LuaError(Some(TooManyTasks)));
      }
      return Ok(id);
    }

    /**
     * `executeTask`: issues a task, then waits for its completion event
     * in `events`. A pull that throws cancels its id before the
     * exception goes on; otherwise the pending entry stays until the
     * scheduler runs it.
     */
    method ExecuteTask(computer: int, events: seq<Pulled>, task: Task, delay: int) returns (r: TaskResult)
      requires tasks.Valid()
      modifies tasks
      ensures tasks.Valid()
      ensures tasks.nextId == old(tasks.nextId) + 1
      ensures |old(tasks.pending)| >= tasks.limit ==>
        r == Raised(LuaError(Some(TooManyTasks))) && tasks.pending == old(tasks.pending)
      ensures |old(tasks.pending)| < tasks.limit ==>
        r == Outcome(events, old(tasks.nextId))
        && tasks.pending == if Await(events, old(tasks.nextId)).Aborted? then old(tasks.pending)
                            else old(tasks.pending)[old(tasks.nextId) := PendingTask(computer, task, delay)]
    {
      var issued := IssueTask(computer, task, delay);
      if issued.Err? {
        return Raised(issued.error);
      }
      var id := issued.value;
      var w := PullResponse(events, id);
      match w
      case Aborted(_, e) =>
        tasks.Cancel(id);
        assert tasks.pending == old(tasks.pending);
        r := Raised(Rethrown(e));
      case Matched(_, response) =>
        r := Completion(response);
      case Exhausted =>
        r := Blocked;
    }

    /**
     * `sleep`: `executeTask` on the sleep task, so a throwing pull cancels
     * it as well; whatever values its completion carries are dropped.
     */
    method Sleep(computer: int, events: seq<Pulled>, delay: int) returns (r: TaskResult)
      requires tasks.Valid()
      modifies tasks
      ensures tasks.Valid()
      ensures tasks.nextId == old(tasks.nextId) + 1
      ensures |old(tasks.pending)| >= tasks.limit ==>
        r == Raised(LuaError(Some(TooManyTasks))) && tasks.pending == old(tasks.pending)
      ensures |old(tasks.pending)| < tasks.limit ==>
        var outcome := Outcome(events, old(tasks.nextId));
        r == (if outcome.Returned? then Returned([]) else outcome)
        && tasks.pending == if Await(events, old(tasks.nextId)).Aborted? then old(tasks.pending)
                            else old(tasks.pending)[old(tasks.nextId) := PendingTask(computer, SleepTask, delay)]
    {
      r := ExecuteTask(computer, events, SleepTask, delay);
      if r.Returned? {
        r := Returned([]);
      }
    }

    /**
     * `inject`: every registered factory, in the set's own order, is asked
     * for an API; each one it gets is wrapped and added to the computer.
     */
    method Inject(computer: Computer)
      modifies computer
      ensures |computer.apis| >= |old(computer.apis)| && computer.apis[..|old(computer.apis)|] == old(computer.apis)
      ensures FactoriesOf(computer.apis[|old(computer.apis)|..]) == Producing(apis)
      ensures Wraps(computer.apis[|old(computer.apis)|..])
    {
      ghost var before := computer.apis;
      if |apis| == 0 {
        assert computer.apis[|before|..] == [];
        return;
      }
      var remaining := apis;
      ghost var added: seq<LuaApi> := [];
      while remaining != {}
        invariant remaining <= apis
        invariant computer.apis == before + added
        invariant FactoriesOf(added) == Producing(apis - remaining)
        invariant Wraps(added)
        decreases |remaining|
      {
        var factory :| factory in remaining;
        AddedFactory(added, apis, remaining, factory);
        if factory.produces.Some? {
          computer.AddApi(LuaApi(factory.produces.value, factory));
          added := added + [LuaApi(factory.produces.value, factory)];
        }
        remaining := remaining - {factory};
      }
      assert computer.apis[|before|..] == added;
    }
  }

  /** One more factory handled by `inject`'s loop. */
  lemma AddedFactory(added: seq<LuaApi>, apis: set<ApiFactory>, remaining: set<ApiFactory>, factory: ApiFactory)
    requires remaining <= apis && factory in remaining
    requires FactoriesOf(added) == Producing(apis - remaining)
    requires Wraps(added)
    ensures factory.produces.Some? ==>
      var next := added + [LuaApi(factory.produces.value, factory)];
      FactoriesOf(next) == Producing(apis - (remaining - {factory})) && Wraps(next)
    ensures factory.produces.None? ==> FactoriesOf(added) == Producing(apis - (remaining - {factory}))
  {
    assert apis - (remaining - {factory}) == (apis - remaining) + {factory};
    if factory.produces.Some? {
      var next := added + [LuaApi(factory.produces.value, factory)];
      assert FactoriesOf(next) == FactoriesOf(added) + {factory};
      forall i | 0 <= i < |added|
        ensures added[i].factory != factory
      {
        assert added[i] in added;
      }
    }
  }

  /** `getCurrentMachine`: the factory registered under the configured runtime, if any. */
  function CurrentMachine(machines: map<string, MachineFactory>, runtime: string): (r: Option<MachineFactory>)
    ensures r.Some? <==> runtime in machines
    ensures r.Some? ==> r.value == machines[runtime]
  {
    if runtime in machines then Some(machines[runtime]) else None
  }

  /**
   * `getUsedMachine`: the configured runtime, else "luaj" (after a
   * warning), else an `IllegalStateException`.
   */
  function UsedMachine(machines: map<string, MachineFactory>, runtime: string): (r: Result<MachineFactory, HostError>)
    ensures runtime in machines ==> r == Ok(machines[runtime])
    ensures runtime !in machines && DefaultRuntime in machines ==> r == Ok(machines[DefaultRuntime])
    ensures r.Err? <==> runtime !in machines && DefaultRuntime !in machines
    ensures r.Err? ==> r.error == IllegalState(NoRuntime)
  {
    match CurrentMachine(machines, runtime)
    case Some(factory) => Ok(factory)
    case None =>
      if DefaultRuntime in machines then Ok(machines[DefaultRuntime]) else Err(IllegalState(NoRuntime))
  }

  /**
   * With runtimes "fast" and "luaj" registered: "fast" resolves to its
   * own factory and an unregistered id falls back to "luaj"; without
   * "luaj" it fails.
   */
  lemma RuntimeResolution(fast: MachineFactory, luaj: MachineFactory)
    requires fast.id == "fast" && luaj.id == DefaultRuntime
    ensures
      var machines := map[fast.id := fast][luaj.id := luaj];
      UsedMachine(machines, "fast") == Ok(fast)
      && UsedMachine(machines, "missing") == Ok(luaj)
      && UsedMachine(map[fast.id := fast], "missing").Err?
  {
    assert "fast" != DefaultRuntime;
    assert "missing" != "fast" && "missing" != DefaultRuntime;
  }

  /**
   * `LuaAPI.willYield`: true for an API that is not an
   * `IMethodDescriptor`, otherwise the API's own answer.
   */
  function WillYield(adapter: LuaApi, index: int): (r: bool)
    ensures adapter.api.yielding.None? ==> r
    ensures adapter.api.yielding.Some? ==> (r <==> index in adapter.api.yielding.value)
  {
    adapter.api.yielding.None? || index in adapter.api.yielding.value
  }

  // ---------------------------------------------------------------------
  // registerAPI as written
  // ---------------------------------------------------------------------

  /**
   * `registerAPI` as written: the null check is applied to the message
   * string instead of the factory, so a null factory is stored like any
   * other (and `inject` later calls `create` on it).
   */
  function RegisterApiAsWritten(apis: set<Option<ApiFactory>>, factory: Option<ApiFactory>): (r: set<Option<ApiFactory>>)
    ensures factory.None? ==> None in r
    ensures forall f :: f in r <==> f in apis || f == factory
  {
    apis + {factory}
  }

  // ---------------------------------------------------------------------
  // Mount bookkeeping
  // ---------------------------------------------------------------------

  /** One binding in a computer's file system: the drive name, the mount behind it, whether it is writable. */
  datatype MountRecord = MountRecord(driveName: string, mount: nat, writable: bool)

  /**
   * A computer's file system as `ComputerAccess` sees it: the bound
   * locations, the paths that exist without a binding, the paths on which
   * `exists` throws, and the locations where a bind throws.
   */
  class FileSystem {
    var mounts: map<string, MountRecord>
    const files: set<string>
    const broken: set<string>
    const refused: set<string>

    constructor (files: set<string>, broken: set<string>, refused: set<string>)
      ensures mounts == map[] && this.files == files && this.broken == broken && this.refused == refused
    {
      mounts := map[];
      this.files := files;
      this.broken := broken;
      this.refused := refused;
    }

    /** `exists`: an error on a broken path, otherwise whether something is there. */
    function Exists(path: string): (r: Result<bool, HostError>)
      reads this
      ensures r.Err? <==> path in broken
      ensures r.Ok? ==> (r.value <==> path in files || path in mounts)
    {
      if path in broken then Err(RuntimeError("FileSystemException"))
      else Ok(path in files || path in mounts)
    }

    /** `mount` / `mountWritable`: binds the location, or throws where a bind is refused. */
    method Bind(driveName: string, location: string, mount: nat, writable: bool) returns (ok: bool)
      modifies this
      ensures ok <==> location !in refused
      ensures mounts == if ok then old(mounts)[location := MountRecord(driveName, mount, writable)] else old(mounts)
    {
      ok := location !in refused;
      if ok {
        mounts := mounts[location := MountRecord(driveName, mount, writable)];
      }
    }

    /** `unmount`: removes the binding at the location. */
    method Unbind(location: string)
      modifies this
      ensures mounts == old(mounts) - {location}
    {
      mounts := mounts - {location};
    }
  }

  /** The message `unmount` throws for a location this session did not mount. */
  const NotMounted := "You didn't mount this location"

  /**
   * `ComputerAccess`: the per-session view of one computer, remembering
   * which locations it mounted; the file system is looked up on first use.
   */
  class ComputerAccess {
    var mounts: set<string>
    var fs: FileSystem?
    const environmentFs: FileSystem

    constructor (computer: Computer)
      ensures mounts == {} && fs == null && environmentFs == computer.fileSystem
    {
      mounts := {};
      fs := null;
      environmentFs := computer.fileSystem;
    }

    /**
     * The cached file system is the environment's, and every location this
     * session owns is bound there, unless its bind was refused.
     */
    predicate Consistent()
      reads this, environmentFs
    {
      (fs == null || fs == environmentFs)
      && forall location :: location in mounts ==> location in environmentFs.mounts || location in environmentFs.refused
    }

    /** `getFs`: the environment's file system, fetched once and kept. */
    method GetFs() returns (result: FileSystem)
      requires fs == null || fs == environmentFs
      modifies this
      ensures result == environmentFs && fs == environmentFs
      ensures mounts == old(mounts)
    {
      if fs == null {
        fs := environmentFs;
      }
      return fs;
    }

    /** `findFreeLocation`: the desired location when nothing is there, null when something is or `exists` throws. */
    method FindFreeLocation(desired: string) returns (location: Option<string>)
      requires fs == null || fs == environmentFs
      modifies this
      ensures location == FreeLocation(environmentFs, desired)
      ensures fs == environmentFs && mounts == old(mounts)
    {
      var fileSystem := GetFs();
      var present := fileSystem.Exists(desired);
      if present.Err? || present.value {
        return None;
      }
      return Some(desired);
    }

    /**
     * The body shared by `mount` and `mountWritable`: a free location is
     * bound and recorded as owned, whether or not the bind succeeds; an
     * occupied one is left alone.
     */
    method MountAt(desired: string, mount: nat, driveName: string, writable: bool) returns (location: Option<string>)
      requires Consistent()
      modifies this, environmentFs
      ensures Consistent()
      ensures location == old(FreeLocation(environmentFs, desired))
      ensures location.None? ==> mounts == old(mounts) && environmentFs.mounts == old(environmentFs.mounts)
      ensures location.Some? ==>
        location.value == desired && mounts == old(mounts) + {desired}
        && environmentFs.mounts == if desired in environmentFs.refused then old(environmentFs.mounts)
                                   else old(environmentFs.mounts)[desired := MountRecord(driveName, mount, writable)]
      ensures location.Some? && desired !in environmentFs.refused ==> environmentFs.Exists(desired) == Ok(true)
      ensures fs == environmentFs
    {
      location := FindFreeLocation(desired);
      if location.Some? {
        var fileSystem := GetFs();
        var _ := fileSystem.Bind(driveName, desired, mount, writable);
        mounts := mounts + {desired};
      }
    }

    /** `mount(desiredLoc, mount, driveName)`: a read-only mount. */
    method Mount(desired: string, mount: nat, driveName: string) returns (location: Option<string>)
      requires Consistent()
      modifies this, environmentFs
      ensures Consistent()
      ensures location == old(FreeLocation(environmentFs, desired))
      ensures location.None? ==> mounts == old(mounts) && environmentFs.mounts == old(environmentFs.mounts)
      ensures location.Some? ==>
        location.value == desired && mounts == old(mounts) + {desired}
        && environmentFs.mounts == if desired in environmentFs.refused then old(environmentFs.mounts)
                                   else old(environmentFs.mounts)[desired := MountRecord(driveName, mount, false)]
    {
      location := MountAt(desired, mount, driveName, false);
    }

    /** `mountWritable(desiredLoc, mount, driveName)`: a writable mount. */
    method MountWritable(desired: string, mount: nat, driveName: string) returns (location: Option<string>)
      requires Consistent()
      modifies this, environmentFs
      ensures Consistent()
      ensures location == old(FreeLocation(environmentFs, desired))
      ensures location.None? ==> mounts == old(mounts) && environmentFs.mounts == old(environmentFs.mounts)
      ensures location.Some? ==>
        location.value == desired && mounts == old(mounts) + {desired}
        && environmentFs.mounts == if desired in environmentFs.refused then old(environmentFs.mounts)
                                   else old(environmentFs.mounts)[desired := MountRecord(driveName, mount, true)]
    {
      location := MountAt(desired, mount, driveName, true);
    }

    /** `unmount`: null does nothing; a location this session did not mount is an error; otherwise it is unbound and forgotten. */
    method Unmount(location: Option<string>) returns (error: Option<HostError>)
      requires Consistent()
      modifies this, environmentFs
      ensures Consistent()
      ensures location.None? ==> error.None? && mounts == old(mounts) && environmentFs.mounts == old(environmentFs.mounts)
      ensures location.Some? && location.value !in old(mounts) ==>
        error == Some(RuntimeError(NotMounted)) && mounts == old(mounts) && environmentFs.mounts == old(environmentFs.mounts)
      ensures location.Some? && location.value in old(mounts) ==>
        error.None? && mounts == old(mounts) - {location.value} && environmentFs.mounts == old(environmentFs.mounts) - {location.value}
    {
      if location.None? {
        return None;
      }
      if location.value !in mounts {
        return Some(RuntimeError(NotMounted));
      }
      var fileSystem := GetFs();
      fileSystem.Unbind(location.value);
      mounts := mounts - {location.value};
      return None;
    }
  }

  /** The location `findFreeLocation` gives for `desired` in this file system. */
  function FreeLocation(fileSystem: FileSystem, desired: string): (r: Option<string>)
    reads fileSystem
    ensures r.Some? ==> r.value == desired && fileSystem.Exists(desired) == Ok(false)
    ensures r.None? ==> desired in fileSystem.broken || desired in fileSystem.files || desired in fileSystem.mounts
  {
    if fileSystem.Exists(desired) == Ok(false) then Some(desired) else None
  }
}
