/** The observation resource engine as a state machine: one step for every region
    of code that holds the lock, and one for the work done without it. */
module ObservationSteps {
  import opened Wrappers

  // ------------------------------------------------------------------- state

  /** One transaction.  Containers map to roles, scopes to control groups. */
  datatype Session = Session(
    peer: nat,
    parent: string,
    cpu: nat,
    ceiling: nat,
    usage: nat,
    path: string,
    keeperScope: string,
    containers: map<string, string>,
    scopes: map<string, string>,
    drainedScopes: set<string>,
    drainedContainers: map<string, string>,
    registrations: nat,
    maxLaunches: nat,
    failed: bool,
    closed: bool)

  /** A session is named by its transaction while it is open; its identity is its
      place in the order of creation. */
  datatype Engine = Engine(table: map<string, nat>, heap: seq<Session>)

  datatype Lease = Lease(parent: string, cpu: nat, usage: nat)

  datatype Request = Request(operation: string, transaction: string, profile: string, container: string, role: string)

  /** A request that has let go of the lock. */
  datatype Call =
    | Reading(transaction: string, id: nat, snapshot: Session)
    | Sampled(transaction: string, id: nat, sample: nat)
    | Terminating(transaction: string, id: nat, container: string, scope: string, drained: bool)
    | Drained(transaction: string, id: nat, container: string, scope: string, drained: bool)

  datatype State = State(engine: Engine, calls: map<nat, Call>)

  // ----------------------------------------------------------------- outside

  /** An entry of the transaction's control group: whether it is a directory, and
      whether it is empty of processes. */
  datatype Member = Member(path: string, directory: bool, drained: bool)

  datatype Listing = Listing(members: seq<Member>, procsEmpty: bool)

  /** What the keeper, the control group and its counter say. */
  datatype Look = Look(keeper: bool, listing: Option<Listing>, counter: Option<nat>)

  datatype Policy = Policy(runtimeCPUSecs: nat, maxImports: nat)

  datatype Keeper = Keeper(path: string, scope: string, baseline: nat)

  /** What the rest of the world answers during one locked region. */
  datatype Answers = Answers(policy: Option<Policy>, cpu: Option<nat>, keeper: Option<Keeper>, member: Option<string>,
    closing: Option<nat>, look: Look)

  function ParentOf(transaction: string): string {
    "haaobs" + transaction + ".slice"
  }

  function ScopeOf(path: string, container: string): string {
    path + "/docker-" + container + ".scope"
  }

  predicate ValidContainer(id: string) {
    |id| == 64 && forall i :: 0 <= i < |id| ==> id[i] in "0123456789abcdef"
  }

  /** A control group is known: the keeper's, a live one, or a drained one that is
      still empty. */
  predicate KnownMember(s: Session, m: Member) {
    || !m.directory
    || m.path == s.keeperScope
    || m.path in s.scopes.Values
    || (m.path in s.drainedScopes && m.drained)
  }

  /** `verifyObservationMembers`. */
  predicate MembersKnown(s: Session, listing: Option<Listing>) {
    && s.path != "" && s.keeperScope != ""
    && listing.Some? && |listing.value.members| <= 128 && listing.value.procsEmpty
    && forall i :: 0 <= i < |listing.value.members| ==> KnownMember(s, listing.value.members[i])
  }

  // ------------------------------------------------------------------- steps

  datatype Reply = Reply(engine: Engine, lease: Option<Lease>)

  predicate Open(e: Engine, transaction: string) {
    transaction in e.table && e.table[transaction] < |e.heap|
  }

  function Current(e: Engine, transaction: string): Session
    requires Open(e, transaction)
  {
    e.heap[e.table[transaction]]
  }

  function With(e: Engine, id: nat, s: Session): Engine
    requires id < |e.heap|
  {
    e.(heap := e.heap[id := s])
  }

  function MarkFailed(e: Engine, id: nat): Engine
    requires id < |e.heap|
  {
    With(e, id, e.heap[id].(failed := true))
  }

  /** `fail`: whatever session has the name now. */
  function FailNamed(e: Engine, transaction: string): Engine {
    if Open(e, transaction) then MarkFailed(e, e.table[transaction]) else e
  }

  function LeaseOf(s: Session, usage: nat): Lease {
    Lease(s.parent, s.cpu, usage)
  }

  /** The last part of `register` and of `terminate`: keeper, members and counter
      must be right for a new lease. */
  function Account(e: Engine, id: nat, s: Session, look: Look): Reply
    requires id < |e.heap|
  {
    if look.keeper && MembersKnown(s, look.listing) && look.counter.Some? &&
      s.usage <= look.counter.value <= s.ceiling then
      var t := s.(usage := look.counter.value);
      Reply(With(e, id, t), Some(LeaseOf(t, t.usage)))
    else
      Reply(With(e, id, s.(failed := true)), None)
  }

  function Create(e: Engine, peer: nat, r: Request, a: Answers): Reply {
    if Open(e, r.transaction) then Reply(FailNamed(e, r.transaction), None)
    else if r.container != "" || r.role != "" || a.policy.None? || a.cpu.None? || |e.table| >= 8 || a.keeper.None? then
      Reply(e, None)
    else
      var s := Session(peer, ParentOf(r.transaction), a.cpu.value, a.policy.value.runtimeCPUSecs * 1_000_000,
                       a.keeper.value.baseline, a.keeper.value.path, a.keeper.value.scope, map[], map[], {}, map[], 0,
                       2 * a.policy.value.maxImports + 4, false, false);
      Reply(Engine(e.table[r.transaction := |e.heap|], e.heap + [s]), Some(LeaseOf(s, s.usage)))
  }

  predicate Registrable(s: Session, r: Request, a: Answers) {
    && !s.failed && r.role in {"preparation", "anchor", "observation"} && ValidContainer(r.container)
    && r.container !in s.containers && r.container !in s.drainedContainers && s.registrations < s.maxLaunches
    && a.member.Some? && a.member.value == s.path
  }

  function Register(e: Engine, r: Request, a: Answers): Reply
    requires Open(e, r.transaction)
  {
    var id, s := e.table[r.transaction], Current(e, r.transaction);
    if Registrable(s, r, a) then
      Account(e, id, s.(containers := s.containers[r.container := r.role],
        scopes := s.scopes[r.container := ScopeOf(s.path, r.container)],
                        registrations := s.registrations + 1), a.look)
    else
      Reply(MarkFailed(e, id), None)
  }

  function Close(e: Engine, r: Request, a: Answers): Reply
    requires Open(e, r.transaction)
  {
    var id, s := e.table[r.transaction], Current(e, r.transaction);
    if r.container != "" || r.role != "" || |s.containers| != 0 || !a.look.keeper || !MembersKnown(s, a.look.listing) ||
      a.closing.None? then
      Reply(MarkFailed(e, id), None)
    else
      var failed := s.failed || a.closing.value < s.usage || a.closing.value > s.ceiling;
      Reply(Engine(e.table - {r.transaction}, e.heap[id := s.(closed := true, failed := failed)]),
            if failed then None else Some(LeaseOf(s, a.closing.value)))
  }

  /** `apply`, reads and terminations aside. */
  function Apply(e: Engine, peer: nat, r: Request, a: Answers): Reply {
    if r.operation == "create" then Create(e, peer, r, a)
    else if !Open(e, r.transaction) then Reply(e, None)
    else
      var s := Current(e, r.transaction);
      if s.closed || s.peer != peer || s.parent != ParentOf(r.transaction) || r.profile != "" then
        Reply(FailNamed(e, r.transaction), None)
      else if r.operation == "register" then Register(e, r, a)
      else if r.operation == "close" then Close(e, r, a)
      else Reply(FailNamed(e, r.transaction), None)
  }

  /** `read` takes a snapshot and lets go of the lock. */
  function ReadStart(e: Engine, peer: nat, r: Request): Option<Call> {
    if r.container != "" || r.role != "" || r.profile != "" || !Open(e, r.transaction) then None
    else
      var s := Current(e, r.transaction);
      if s.closed || s.failed || s.peer != peer || s.parent != ParentOf(r.transaction) || s.path == "" then None
      else Some(Reading(r.transaction, e.table[r.transaction], s))
  }

  predicate SnapshotFits(s: Session, look: Look) {
    look.keeper && MembersKnown(s, look.listing) && look.counter.Some?
  }

  /** The end of `read`: the counter sampled without the lock becomes a lease. */
  function ReadEnd(e: Engine, c: Call): Reply
    requires c.Sampled? && c.id < |e.heap|
  {
    var s := e.heap[c.id];
    if !Open(e, c.transaction) || e.table[c.transaction] != c.id then Reply(e, None)
    else if s.closed || s.failed || c.sample < s.usage || c.sample > s.ceiling then Reply(MarkFailed(e, c.id), None)
    else
      var t := s.(usage := c.sample);
      Reply(With(e, c.id, t), Some(LeaseOf(t, t.usage)))
  }

  function TerminateStart(e: Engine, peer: nat, r: Request): Option<Call> {
    if r.role != "" || r.profile != "" || !ValidContainer(r.container) || !Open(e, r.transaction) then None
    else
      var s := Current(e, r.transaction);
      if s.closed || s.peer != peer || s.parent != ParentOf(r.transaction) then None
      else if r.container in s.scopes then
        Some(Terminating(r.transaction, e.table[r.transaction], r.container, s.scopes[r.container], false))
      else if r.container in s.drainedContainers then
        Some(Terminating(r.transaction, e.table[r.transaction], r.container, s.drainedContainers[r.container], true))
      else None
  }

  /** The runtime is still what it was when the lock was let go. */
  predicate StillRegistered(e: Engine, c: Call)
    requires c.Drained? && c.id < |e.heap|
  {
    var s := e.heap[c.id];
    && c.transaction in e.table && e.table[c.transaction] == c.id
    && (if c.drained then c.container in s.drainedContainers && s.drainedContainers[c.container] == c.scope
        else c.container in s.scopes && s.scopes[c.container] == c.scope)
  }

  function TerminateEnd(e: Engine, c: Call, look: Look): Reply
    requires c.Drained? && c.id < |e.heap|
  {
    var s := e.heap[c.id];
    if !StillRegistered(e, c) then Reply(MarkFailed(e, c.id), None)
    else if c.drained then Account(e, c.id, s, look)
    else
      Account(e, c.id, s.(drainedScopes := s.drainedScopes + {c.scope},
        drainedContainers := s.drainedContainers[c.container := c.scope],
                          containers := s.containers - {c.container}, scopes := s.scopes - {c.container}), look)
  }

  // ----------------------------------------------------------- interleavings

  datatype Event =
    | Applied(peer: nat, request: Request, answers: Answers)
    | ReadStarted(call: nat, peer: nat, request: Request)
    | ReadLooked(call: nat, look: Look)
    | ReadEnded(call: nat)
    | TerminateStarted(call: nat, peer: nat, request: Request)
    | TerminateWorked(call: nat, ok: bool)
    | TerminateEnded(call: nat, look: Look)

  /** The event can happen here. */
  predicate Enabled(s: State, ev: Event) {
    match ev
    case Applied(_, r, _) => r.operation != "read" && r.operation != "terminate"
    case ReadStarted(c, _, _) => c !in s.calls
    case ReadLooked(c, _) => c in s.calls && s.calls[c].Reading?
    case ReadEnded(c) => c in s.calls && s.calls[c].Sampled? && s.calls[c].id < |s.engine.heap|
    case TerminateStarted(c, _, _) => c !in s.calls
    case TerminateWorked(c, _) => c in s.calls && s.calls[c].Terminating?
    case TerminateEnded(c, _) => c in s.calls && s.calls[c].Drained? && s.calls[c].id < |s.engine.heap|
  }

  datatype Outcome = Outcome(state: State, lease: Option<Lease>)

  function Started(s: State, c: nat, call: Option<Call>): Outcome {
    Outcome(if call.Some? then s.(calls := s.calls[c := call.value]) else s, None)
  }

  function Ended(s: State, c: nat, r: Reply): Outcome {
    Outcome(State(r.engine, s.calls - {c}), r.lease)
  }

  function Step(s: State, ev: Event): Outcome
    requires Enabled(s, ev)
  {
    match ev
    case Applied(peer, r, a) => var reply := Apply(s.engine, peer, r, a);
      Outcome(s.(engine := reply.engine), reply.lease)
    case ReadStarted(c, peer, r) => Started(s, c, ReadStart(s.engine, peer, r))
    case ReadLooked(c, look) =>
      var call := s.calls[c];
      if SnapshotFits(call.snapshot, look) then
        Outcome(s.(calls := s.calls[c := Sampled(call.transaction, call.id, look.counter.value)]), None)
      else Ended(s, c, Reply(FailNamed(s.engine, call.transaction), None))
    case ReadEnded(c) => Ended(s, c, ReadEnd(s.engine, s.calls[c]))
    case TerminateStarted(c, peer, r) => Started(s, c, TerminateStart(s.engine, peer, r))
    case TerminateWorked(c, ok) =>
      var call := s.calls[c];
      if ok then Outcome(s.(calls := s.calls[c := Drained(call.transaction, call.id, call.container, call.scope,
        call.drained)]), None)
      else Ended(s, c, Reply(FailNamed(s.engine, call.transaction), None))
    case TerminateEnded(c, look) => Ended(s, c, TerminateEnd(s.engine, s.calls[c], look))
  }

  function Beginning(): State {
    State(Engine(map[], []), map[])
  }

  /** Any interleaving of any number of requests. */
  ghost predicate Run(states: seq<State>, events: seq<Event>) {
    && |states| == |events| + 1 && states[0] == Beginning()
    && forall i :: 0 <= i < |events| ==>
        Enabled(states[i], events[i]) && states[i + 1] == Step(states[i], events[i]).state
  }
}
