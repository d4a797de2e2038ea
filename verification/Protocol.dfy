/**
 The durable promise/task protocol: the entities the server keeps, the requests
 it answers, and the value the server's state stands for.

 A `Server` is the abstract state of `ServerState` (resonate/src/network.rs).
 The two timer vectors become maps, and the outgoing buffer becomes a map of
 execute messages (at most one per task) together with a bag of unblock
 messages, so nothing below depends on the order in which a hash set or a
 vector happens to be walked.  `ServerState.dfy` refines this state with the
 vectors and the loops.
 */
module Protocol {

  datatype Option<+T> = None | Some(value: T)

  type Id = string

  /** Opaque JSON; only `null` is ever inspected. */
  datatype Json = Null | Text(text: string)

  // ---------------------------------------------------------------------
  //  Constants
  // ---------------------------------------------------------------------

  const PENDING_RETRY_TTL := 30_000
  const DEFAULT_HEARTBEAT_TTL := 30_000
  const I64_MIN := -0x8000_0000_0000_0000
  const I64_MAX := 0x7fff_ffff_ffff_ffff

  const TAG_TARGET := "resonate:target"
  const TAG_TIMER := "resonate:timer"
  const TAG_DELAY := "resonate:delay"
  const TAG_BRANCH := "resonate:branch"

  /** `i64::saturating_add`. */
  function SaturatingAdd(a: int, b: int): (r: int)
    ensures I64_MIN <= r <= I64_MAX
    ensures I64_MIN <= a + b <= I64_MAX ==> r == a + b
    ensures a + b < I64_MIN ==> r == I64_MIN
    ensures a + b > I64_MAX ==> r == I64_MAX
  {
    if a + b < I64_MIN then I64_MIN else if a + b > I64_MAX then I64_MAX else a + b
  }

  // ---------------------------------------------------------------------
  //  Entities
  // ---------------------------------------------------------------------

  datatype PromiseState = Pending | Resolved | Rejected | RejectedCanceled | RejectedTimedout

  datatype TaskState = Pending | Acquired | Suspended | Halted | Fulfilled

  type Tags = map<string, string>

  /** What the server tells a client about a promise. */
  datatype Record = Record(
    state: PromiseState,
    param: Json,
    value: Json,
    tags: Tags,
    timeoutAt: int,
    createdAt: int,
    settledAt: Option<int>)
  {
    predicate Settled() { !state.Pending? }
    predicate Targeted() { TAG_TARGET in tags }
  }

  datatype Promise = Promise(record: Record, awaiters: set<Id>, subscribers: set<string>)

  datatype Task = Task(
    state: TaskState,
    version: int,
    pid: Option<string>,
    ttl: Option<int>,
    resumes: set<Id>)

  datatype TimerKind = Retry | Lease

  datatype TaskTimer = TaskTimer(kind: TimerKind, at: int)

  datatype Execute = Execute(address: string, version: int)

  datatype Unblock = Unblock(address: string, id: Id, record: Record)

  datatype Server = Server(
    promises: map<Id, Promise>,
    tasks: map<Id, Task>,
    pTimers: map<Id, int>,
    tTimers: map<Id, TaskTimer>,
    executes: map<Id, Execute>,
    unblocks: multiset<Unblock>)
  {
    predicate PendingPromise(id: Id) { id in promises && !promises[id].record.Settled() }
    predicate SettledPromise(id: Id) { id in promises && promises[id].record.Settled() }
    predicate Awaits(task: Id, id: Id) { id in promises && task in promises[id].awaiters }
    predicate TaskIs(id: Id, state: TaskState) { id in tasks && tasks[id].state == state }
  }

  const EMPTY_SERVER := Server(map[], map[], map[], map[], map[], multiset{})

  function TimeoutState(tags: Tags): PromiseState {
    if TAG_TIMER in tags && tags[TAG_TIMER] == "true" then Resolved else RejectedTimedout
  }

  function TargetOf(s: Server, id: Id): Option<string> {
    if id in s.promises && s.promises[id].record.Targeted()
    then Some(s.promises[id].record.tags[TAG_TARGET])
    else None
  }

  // ---------------------------------------------------------------------
  //  Requests and replies
  // ---------------------------------------------------------------------

  datatype CreateArgs = CreateArgs(id: Id, timeoutAt: Option<int>, param: Json, tags: Tags)

  datatype SettleArgs = SettleArgs(id: Id, state: PromiseState, value: Json)

  datatype FenceAction = FenceCreate(create: CreateArgs) | FenceSettle(settle: SettleArgs)

  datatype TaskRef = TaskRef(id: Id, version: Option<int>)

  /** A missing string field and an empty one are the same request: both are
      the empty string here.  `TaskFulfill`'s action may leave its id out. */
  datatype Request =
    | PromiseGet(id: Id)
    | PromiseCreate(create: CreateArgs)
    | PromiseSettle(settle: SettleArgs)
    | RegisterListener(awaited: Id, address: string)
    | TaskCreate(pid: string, ttl: int, create: CreateArgs)
    | TaskAcquire(id: Id, pid: string, ttl: int)
    | TaskRelease(id: Id)
    | TaskFulfill(id: Id, action: Option<Id>, state: PromiseState, value: Json)
    | TaskFence(id: Id, version: int, fenced: FenceAction)
    | TaskSuspend(id: Id, awaiting: seq<Id>)
    | TaskHeartbeat(pid: string, refs: seq<TaskRef>)
    | UnknownKind

  datatype TaskRecord = TaskRecord(state: TaskState, version: int, pid: Option<string>, ttl: Option<int>)

  function ToTaskRecord(t: Task): TaskRecord {
    TaskRecord(t.state, t.version, t.pid, t.ttl)
  }

  type Preloaded = map<Id, Record>

  /** `Failed` is the `Err` of `apply`; every other reply is an `Ok` envelope. */
  datatype Reply =
    | Failed
    | NotFound
    | Conflict
    | Done
    | PromiseReply(status: int, promise: Option<Record>)
    | TaskReply(status: int, task: TaskRecord, owner: Option<Record>, preload: Preloaded)
    | FenceReply(result: Option<Record>, preload: Preloaded)
    | Redirect(preload: Preloaded)

  function RecordOf(s: Server, id: Id): Option<Record> {
    if id in s.promises then Some(s.promises[id].record) else None
  }

  /** All other promises on the branch of `id`. */
  function PreloadFrom(promises: map<Id, Promise>, id: Id): Preloaded {
    if id in promises && TAG_BRANCH in promises[id].record.tags then
      var branch := promises[id].record.tags[TAG_BRANCH];
      map p | p in promises && p != id && TAG_BRANCH in promises[p].record.tags
              && promises[p].record.tags[TAG_BRANCH] == branch :: promises[p].record
    else map[]
  }

  function Preload(s: Server, id: Id): Preloaded { PreloadFrom(s.promises, id) }

  // ---------------------------------------------------------------------
  //  `str::parse::<i64>` for the `resonate:delay` tag
  // ---------------------------------------------------------------------

  predicate IsDigit(c: char) { '0' <= c <= '9' }

  function Digits(s: string): int
    requires forall c | c in s :: IsDigit(c)
  {
    if s == "" then 0 else 10 * Digits(s[..|s| - 1]) + (s[|s| - 1] as int - '0' as int)
  }

  /** An optional sign, then at least one decimal digit, in range. */
  function ParseI64(s: string): Option<int> {
    var signed := s != "" && (s[0] == '+' || s[0] == '-');
    var body := if signed then s[1..] else s;
    if body == "" || exists c | c in body :: !IsDigit(c) then None
    else
      var n := if signed && s[0] == '-' then -Digits(body) else Digits(body);
      if I64_MIN <= n <= I64_MAX then Some(n) else None
  }
}
