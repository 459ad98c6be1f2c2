/** Who gets a lease from the observation engine, when, and what it says; and where
    the sessions, registrations and calls of a run come from. */
module ObservationLaws {
  import opened Wrappers
  import opened ObservationSteps
  import opened ObservationRuns

  // --------------------------------------------------------------- one request

  /** The name is that of an open session of this peer. */
  ghost predicate Belongs(e: Engine, transaction: string, peer: nat) {
    transaction in e.table && e.table[transaction] < |e.heap| && e.heap[e.table[transaction]].peer == peer
  }

  /** The keeper is there, and no control group of the session that is not known. */
  ghost predicate InOrder(s: Session, look: Look) {
    && look.keeper && s.path != "" && s.keeperScope != ""
    && look.listing.Some? && |look.listing.value.members| <= 128 && look.listing.value.procsEmpty
    && forall m :: m in look.listing.value.members && m.directory ==>
        || m.path == s.keeperScope || (exists c :: c in s.scopes && s.scopes[c] == m.path)
        || (m.path in s.drainedScopes && m.drained)
  }

  /** The counter has not gone back and is within the ceiling. */
  ghost predicate Affordable(s: Session, counter: Option<nat>) {
    counter.Some? && s.usage <= counter.value <= s.ceiling
  }

  ghost predicate ContainerName(id: string) {
    |id| == 64 && forall c :: c in id ==> '0' <= c <= '9' || 'a' <= c <= 'f'
  }

  lemma InOrderExactly(s: Session, look: Look)
    ensures look.keeper && MembersKnown(s, look.listing) <==> InOrder(s, look)
  {
    if look.listing.Some? {
      var members := look.listing.value.members;
      assert forall i :: 0 <= i < |members| ==> members[i] in members;
      forall m: Member ensures KnownMember(s, m) <==> (m.directory ==>
        || m.path == s.keeperScope || (exists c :: c in s.scopes && s.scopes[c] == m.path)
        || (m.path in s.drainedScopes && m.drained)) {
        if m.path in s.scopes.Values {
          var c :| c in s.scopes && s.scopes[c] == m.path;
        }
      }
    }
  }

  lemma HexIn(c: char)
    ensures c in "0123456789abcdef" <==> '0' <= c <= '9' || 'a' <= c <= 'f'
  {
    var digits := "0123456789abcdef";
    if '0' <= c <= '9' {
      assert digits[(c - '0') as int] == c;
    }
    if 'a' <= c <= 'f' {
      assert digits[10 + (c - 'a') as int] == c;
    }
  }

  lemma ContainerExactly(id: string)
    ensures ValidContainer(id) <==> ContainerName(id)
  {
    forall c: char ensures c in "0123456789abcdef" <==> '0' <= c <= '9' || 'a' <= c <= 'f' {
      HexIn(c);
    }
    assert forall i :: 0 <= i < |id| ==> id[i] in id;
  }

  /** The session a creation founds. */
  ghost predicate Founded(t: Session, peer: nat, r: Request, a: Answers) {
    && a.policy.Some? && a.cpu.Some? && a.keeper.Some?
    && t.peer == peer && t.parent == "haaobs" + r.transaction + ".slice" && t.cpu == a.cpu.value
    && t.path == a.keeper.value.path && t.keeperScope == a.keeper.value.scope
    && t.ceiling == a.policy.value.runtimeCPUSecs * 1_000_000 && t.maxLaunches == 2 * a.policy.value.maxImports + 4
  }

  /** A creation gives a lease exactly when the name is free, the request says
      nothing of a runtime, and there is room for one of eight sessions. */
  lemma CreateExactly(e: Engine, peer: nat, r: Request, a: Answers)
    requires Sound(e) && r.operation == "create"
    ensures var reply := Apply(e, peer, r, a);
      && (reply.lease.Some? <==>
          && r.transaction !in e.table && |e.table| < 8 && r.container == "" && r.role == ""
          && a.policy.Some? && a.cpu.Some? && a.keeper.Some?)
      && (reply.lease.Some? ==>
          && |reply.engine.heap| == |e.heap| + 1 && reply.engine.heap[..|e.heap|] == e.heap
          && reply.engine.table == e.table[r.transaction := |e.heap|]
          && Founded(reply.engine.heap[|e.heap|], peer, r, a)
          && reply.engine.heap[|e.heap|].usage == a.keeper.value.baseline && !reply.engine.heap[|e.heap|].failed
          && reply.engine.heap[|e.heap|].registrations == 0
          && reply.lease.value == Lease("haaobs" + r.transaction + ".slice", a.cpu.value, a.keeper.value.baseline))
      && (reply.lease.None? ==>
          reply.engine == if r.transaction in e.table then MarkFailed(e, e.table[r.transaction]) else e)
  {
    SoundParts(e);
    OpenExactly(e, r.transaction);
    hide Sound;
  }

  /** The runtime a registration is for, and the session with it. */
  ghost predicate Enrols(e: Engine, peer: nat, r: Request, a: Answers) {
    && Belongs(e, r.transaction, peer) && r.profile == ""
    && r.role in {"preparation", "anchor", "observation"} && ContainerName(r.container)
    && var s := e.heap[e.table[r.transaction]];
      && !s.failed && r.container !in s.containers && r.container !in s.drainedContainers
      && s.registrations < s.maxLaunches && a.member == Some(s.path)
  }

  function Enrolled(s: Session, r: Request): Session {
    s.(containers := s.containers[r.container := r.role],
      scopes := s.scopes[r.container := s.path + "/docker-" + r.container + ".scope"],
      registrations := s.registrations + 1)
  }

  /** A registration gives a lease exactly when the runtime can be enrolled and then
      all is in order; it is enrolled in any case, and any refusal marks the session
      that has the name. */
  lemma RegisterExactly(e: Engine, peer: nat, r: Request, a: Answers)
    requires Sound(e) && r.operation == "register"
    ensures var reply := Apply(e, peer, r, a);
      if r.transaction !in e.table then reply == Reply(e, None)
      else
        var id := e.table[r.transaction];
        var t := if Enrols(e, peer, r, a) then Enrolled(e.heap[id], r) else e.heap[id];
        if Enrols(e, peer, r, a) && InOrder(t, a.look) && Affordable(t, a.look.counter) then
          && reply.engine == Engine(e.table, e.heap[id := t.(usage := a.look.counter.value)])
          && reply.lease == Some(Lease("haaobs" + r.transaction + ".slice", t.cpu, a.look.counter.value))
        else reply == Reply(Engine(e.table, e.heap[id := t.(failed := true)]), None)
  {
    hide MembersKnown, ValidContainer, ContainerName, InOrder, Sound, Tabled, ParentOf;
    ParentExactly(r.transaction);
    SoundParts(e);
    OpenExactly(e, r.transaction);
    if r.transaction in e.table {
      OpenSession(e, r.transaction);
      ContainerExactly(r.container);
      InOrderExactly(Enrolled(e.heap[e.table[r.transaction]], r), a.look);
    }
  }

  /** A session closes exactly when its peer asks, no runtime lives, and the keeper
      could be closed; with a lease if it is clean and the last counter affordable. */
  lemma CloseExactly(e: Engine, peer: nat, r: Request, a: Answers)
    requires Sound(e) && r.operation == "close"
    ensures var reply := Apply(e, peer, r, a);
      if r.transaction !in e.table then reply == Reply(e, None)
      else
        var id := e.table[r.transaction];
        var s := e.heap[id];
        if s.peer == peer && r.profile == "" && r.container == "" && r.role == "" && s.containers == map[] &&
          InOrder(s, a.look) && a.closing.Some?
        then
          if !s.failed && Affordable(s, a.closing) then
            && reply.engine == Engine(e.table - {r.transaction}, e.heap[id := s.(closed := true)])
            && reply.lease == Some(Lease("haaobs" + r.transaction + ".slice", s.cpu, a.closing.value))
          else reply == Reply(Engine(e.table - {r.transaction}, e.heap[id := s.(closed := true, failed := true)]), None)
        else reply == Reply(Engine(e.table, e.heap[id := s.(failed := true)]), None)
  {
    hide MembersKnown, InOrder, Sound, Tabled, ParentOf;
    ParentExactly(r.transaction);
    SoundParts(e);
    OpenExactly(e, r.transaction);
    if r.transaction in e.table {
      OpenSession(e, r.transaction);
      InOrderExactly(e.heap[e.table[r.transaction]], a.look);
    }
  }

  /** Nothing else is applied: the session that has the name is marked. */
  lemma OtherExactly(e: Engine, peer: nat, r: Request, a: Answers)
    requires Sound(e) && r.operation !in {"create", "register", "close"}
    ensures Apply(e, peer, r, a) ==
      Reply(if r.transaction in e.table then MarkFailed(e, e.table[r.transaction]) else e, None)
  {
    SoundParts(e);
    OpenExactly(e, r.transaction);
    hide Sound;
  }

  // -------------------------------------------------- reads and terminations

  /** A read begins exactly for the peer of an open session that has not failed. */
  lemma ReadStartExactly(e: Engine, peer: nat, r: Request)
    requires Sound(e)
    ensures ReadStart(e, peer, r) ==
      if r.container == "" && r.role == "" && r.profile == "" && Belongs(e, r.transaction, peer)
        && !e.heap[e.table[r.transaction]].failed && e.heap[e.table[r.transaction]].path != ""
      then Some(Reading(r.transaction, e.table[r.transaction], e.heap[e.table[r.transaction]]))
      else None
  {
    SoundParts(e);
    OpenExactly(e, r.transaction);
    if r.transaction in e.table {
      OpenSession(e, r.transaction);
    }
    hide Sound;
  }

  /** A read goes on exactly when all was in order with the session it remembers. */
  lemma ReadLooksExactly(s: State, c: nat, look: Look)
    requires Fit(s) && Enabled(s, ReadLooked(c, look))
    ensures var o, call := Step(s, ReadLooked(c, look)), s.calls[c];
      o.lease.None? &&
        if InOrder(call.snapshot, look) && look.counter.Some? then
          o.state == State(s.engine, s.calls[c := Sampled(call.transaction, call.id, look.counter.value)])
        else o.state == State(
          if call.transaction in s.engine.table then MarkFailed(s.engine, s.engine.table[call.transaction])
          else s.engine, s.calls - {c})
  {
    hide MembersKnown, InOrder, CallFits, Accounted;
    InOrderExactly(s.calls[c].snapshot, look);
    OpenExactly(s.engine, s.calls[c].transaction);
  }

  /** A read ends with a lease exactly when its session still has the name, has not
      failed, and can afford what was sampled. */
  lemma ReadEndExactly(e: Engine, c: Call)
    requires Sound(e) && c.Sampled? && c.id < |e.heap|
    ensures var reply, s := ReadEnd(e, c), e.heap[c.id];
      if c.transaction !in e.table || e.table[c.transaction] != c.id then reply == Reply(e, None)
      else if !s.failed && Affordable(s, Some(c.sample)) then
        && reply.engine == Engine(e.table, e.heap[c.id := s.(usage := c.sample)])
        && reply.lease == Some(Lease("haaobs" + c.transaction + ".slice", s.cpu, c.sample))
      else reply == Reply(Engine(e.table, e.heap[c.id := s.(failed := true)]), None)
  {
    SoundParts(e);
    OpenExactly(e, c.transaction);
    if c.transaction in e.table {
      OpenSession(e, c.transaction);
    }
    hide Sound;
  }

  /** A termination begins exactly for the peer of the session, and for a runtime it
      has or had. */
  lemma TerminateStartExactly(e: Engine, peer: nat, r: Request)
    requires Sound(e)
    ensures TerminateStart(e, peer, r) ==
      if r.role == "" && r.profile == "" && ContainerName(r.container) && Belongs(e, r.transaction, peer) then
        var id := e.table[r.transaction];
        var s := e.heap[id];
        if r.container in s.containers || r.container in s.drainedContainers then
          Some(Terminating(r.transaction, id, r.container, s.path + "/docker-" + r.container + ".scope",
            r.container !in s.containers))
        else None
      else None
  {
    hide ValidContainer, ContainerName;
    SoundParts(e);
    OpenExactly(e, r.transaction);
    ContainerExactly(r.container);
    if r.transaction in e.table {
      OpenSession(e, r.transaction);
      assert Accounted(e.heap[e.table[r.transaction]]);
    }
    hide Sound;
  }

  /** The session once the runtime is known to be drained. */
  function WithoutRuntime(s: Session, container: string, scope: string): Session {
    s.(containers := map c | c in s.containers && c != container :: s.containers[c],
      scopes := map c | c in s.scopes && c != container :: s.scopes[c],
      drainedScopes := s.drainedScopes + {scope},
      drainedContainers := s.drainedContainers[container := scope])
  }

  /** A termination ends with a lease exactly when its session still has the name and
      the runtime in the state it was found, and all is in order without it; the
      runtime is struck off in any case. */
  lemma TerminateEndExactly(e: Engine, c: Call, look: Look)
    requires Sound(e) && c.Drained? && CallFits(e, c)
    ensures var reply, s := TerminateEnd(e, c, look), e.heap[c.id];
      var found := c.transaction in e.table && e.table[c.transaction] == c.id &&
        (c.container in s.containers <==> !c.drained);
      var t := if found && !c.drained then WithoutRuntime(s, c.container, c.scope) else s;
      if found && InOrder(t, look) && Affordable(t, look.counter) then
        && reply.engine == Engine(e.table, e.heap[c.id := t.(usage := look.counter.value)])
        && reply.lease == Some(Lease("haaobs" + c.transaction + ".slice", t.cpu, look.counter.value))
      else reply == Reply(Engine(e.table, e.heap[c.id := t.(failed := true)]), None)
  {
    hide MembersKnown, InOrder, StillRegistered, WithoutRuntime, Sound, ParentOf;
    var s := e.heap[c.id];
    StillExactly(e, c);
    StruckOff(s, c.container, c.scope);
    InOrderExactly(s, look);
    InOrderExactly(WithoutRuntime(s, c.container, c.scope), look);
    ParentExactly(c.transaction);
  }

  lemma ParentExactly(transaction: string)
    ensures ParentOf(transaction) == "haaobs" + transaction + ".slice"
  {
  }

  lemma StillExactly(e: Engine, c: Call)
    requires Sound(e) && c.Drained? && CallFits(e, c)
    ensures StillRegistered(e, c) <==>
      c.transaction in e.table && e.table[c.transaction] == c.id &&
        (c.container in e.heap[c.id].containers <==> !c.drained)
    ensures e.heap[c.id].parent == ParentOf(c.transaction)
  {
    assert Accounted(e.heap[c.id]);
    hide Sound;
  }

  lemma StruckOff(s: Session, container: string, scope: string)
    ensures WithoutRuntime(s, container, scope) == s.(drainedScopes := s.drainedScopes + {scope},
      drainedContainers := s.drainedContainers[container := scope],
      containers := s.containers - {container}, scopes := s.scopes - {container})
  {
    var t := WithoutRuntime(s, container, scope);
    assert s.containers - {container} == t.containers && s.scopes - {container} == t.scopes;
  }

  // ---------------------------------------------------------------------- runs

  /** The request that a call is for was made by the peer of its session, under the
      name the session had. */
  ghost predicate Asked(s: State, ev: Event, c: nat, call: Call, peer: nat) {
    && (match ev
        case ReadStarted(b, p, r) => b == c && p == peer && r.transaction == call.transaction
        case TerminateStarted(b, p, r) =>
          b == c && p == peer && r.transaction == call.transaction &&
            (call.Terminating? || call.Drained? ==> r.container == call.container)
        case _ => false)
    && (ev.ReadStarted? <==> call.Reading? || call.Sampled?)
    && call.transaction in s.engine.table && s.engine.table[call.transaction] == call.id
  }

  ghost predicate CalledBefore(states: seq<State>, events: seq<Event>, j: nat, c: nat, call: Call, peer: nat)
    requires |states| == |events| + 1
  {
    exists k :: 0 <= k < j && k < |events| && Asked(states[k], events[k], c, call, peer)
  }

  lemma RunStep(states: seq<State>, events: seq<Event>, j: nat)
    requires Run(states, events) && j < |events|
    ensures Fit(states[j]) && Fit(states[j + 1]) && Enabled(states[j], events[j])
    ensures states[j + 1] == Step(states[j], events[j]).state && AllGrow(states[j].engine, states[j + 1].engine)
  {
    RunsFit(states, events, j);
    RunsFit(states, events, j + 1);
    RunsGrow(states, events, j, j + 1);
  }

  /** One step of a call: it begins, or it was there and goes on. */
  lemma CallStep(s: State, ev: Event, c: nat)
    requires Fit(s) && Enabled(s, ev) && c in Step(s, ev).state.calls
    ensures var call := Step(s, ev).state.calls[c];
      || (c in s.calls && s.calls[c].transaction == call.transaction && s.calls[c].id == call.id
          && ((s.calls[c].Reading? || s.calls[c].Sampled?) <==> (call.Reading? || call.Sampled?))
          && (call.Terminating? || call.Drained? ==> s.calls[c].container == call.container))
      || (call.id < |s.engine.heap| && Asked(s, ev, c, call, s.engine.heap[call.id].peer))
  {
    hide Apply, ReadEnd, TerminateEnd, MembersKnown, ReadStart, TerminateStart, Sound;
    if ev.ReadStarted? {
      ReadStartExactly(s.engine, ev.peer, ev.request);
    }
    if ev.TerminateStarted? {
      TerminateStartExactly(s.engine, ev.peer, ev.request);
    }
  }

  /** Every call under way was asked for by the peer of its session. */
  lemma {:induction false} CallsAsked(states: seq<State>, events: seq<Event>, j: nat, c: nat)
    requires Run(states, events) && j < |states| && c in states[j].calls
    ensures states[j].calls[c].id < |states[j].engine.heap|
    ensures CalledBefore(states, events, j, c, states[j].calls[c], states[j].engine.heap[states[j].calls[c].id].peer)
  {
    hide Step, Fit, Asked, Enabled;
    if j > 0 {
      RunStep(states, events, j - 1);
      FitCall(states[j], c);
      CallStep(states[j - 1], events[j - 1], c);
      var call := states[j].calls[c];
      if c in states[j - 1].calls && states[j - 1].calls[c].id == call.id
        && states[j - 1].calls[c].transaction == call.transaction
        && ((states[j - 1].calls[c].Reading? || states[j - 1].calls[c].Sampled?) <==> (call.Reading? || call.Sampled?))
        && (call.Terminating? || call.Drained? ==> states[j - 1].calls[c].container == call.container) {
        CallsAsked(states, events, j - 1, c);
        FitCall(states[j - 1], c);
        AskedAgain(states, events, j - 1, c, states[j - 1].calls[c], call, states[j].engine.heap[call.id].peer);
      } else {
        assert Asked(states[j - 1], events[j - 1], c, call, states[j].engine.heap[call.id].peer);
      }
    }
  }

  lemma FitCall(s: State, c: nat)
    requires Fit(s) && c in s.calls
    ensures s.calls[c].id < |s.engine.heap| && CallFits(s.engine, s.calls[c])
  {
  }

  lemma AskedAgain(states: seq<State>, events: seq<Event>, j: nat, c: nat, a: Call, b: Call, peer: nat)
    requires |states| == |events| + 1 && j < |events| && CalledBefore(states, events, j, c, a, peer)
    requires a.id == b.id && a.transaction == b.transaction
    requires (a.Reading? || a.Sampled?) <==> (b.Reading? || b.Sampled?)
    requires b.Terminating? || b.Drained? ==> a.container == b.container
    ensures CalledBefore(states, events, j + 1, c, b, peer)
  {
    var k :| 0 <= k < j && Asked(states[k], events[k], c, a, peer);
    assert Asked(states[k], events[k], c, b, peer);
  }

  /** Whoever gets a lease is the peer of the session: of a creation, which founds
      it; of a registration or a closing; and of a read or a termination, by the
      request that began it. */
  lemma PeersOnly(states: seq<State>, events: seq<Event>, j: nat)
    requires Run(states, events) && j < |events|
    ensures Enabled(states[j], events[j])
    ensures var e, ev, lease := states[j].engine, events[j], Step(states[j], events[j]).lease;
      lease.Some? ==>
        match ev
        case Applied(peer, r, _) =>
          if r.operation == "create" then
            r.transaction !in e.table && |states[j + 1].engine.heap| == |e.heap| + 1 &&
              states[j + 1].engine.heap[|e.heap|].peer == peer
          else Belongs(e, r.transaction, peer)
        case ReadEnded(c) =>
          Belongs(e, states[j].calls[c].transaction, e.heap[states[j].calls[c].id].peer) &&
            CalledBefore(states, events, j, c, states[j].calls[c], e.heap[states[j].calls[c].id].peer)
        case TerminateEnded(c, _) =>
          Belongs(e, states[j].calls[c].transaction, e.heap[states[j].calls[c].id].peer) &&
            CalledBefore(states, events, j, c, states[j].calls[c], e.heap[states[j].calls[c].id].peer)
        case _ => false
  {
    hide CalledBefore, Apply, ReadEnd, TerminateEnd, InOrder, Enrols, Affordable, Founded, Sound, MembersKnown;
    hide CallFits;
    hide AllGrow;
    RunStep(states, events, j);
    var s, ev := states[j], events[j];
    match ev {
      case Applied(peer, r, a) =>
        CreateOf(s.engine, peer, r, a);
        OthersOf(s.engine, peer, r, a);
      case ReadEnded(c) =>
        CallsAsked(states, events, j, c);
        ReadEndExactly(s.engine, s.calls[c]);
      case TerminateEnded(c, look) =>
        CallsAsked(states, events, j, c);
        FitCall(s, c);
        TerminateEndExactly(s.engine, s.calls[c], look);
      case _ =>
    }
  }

  lemma CreateOf(e: Engine, peer: nat, r: Request, a: Answers)
    requires Sound(e)
    ensures r.operation == "create" && Apply(e, peer, r, a).lease.Some? ==>
      r.transaction !in e.table && |Apply(e, peer, r, a).engine.heap| == |e.heap| + 1 &&
        Apply(e, peer, r, a).engine.heap[|e.heap|].peer == peer
  {
    hide Apply, Sound;
    if r.operation == "create" {
      CreateExactly(e, peer, r, a);
    }
  }

  lemma OthersOf(e: Engine, peer: nat, r: Request, a: Answers)
    requires Sound(e)
    ensures r.operation != "create" && Apply(e, peer, r, a).lease.Some? ==> Belongs(e, r.transaction, peer)
  {
    hide Apply, Sound, InOrder, Affordable;
    if r.operation == "register" {
      RegisterExactly(e, peer, r, a);
    } else if r.operation == "close" {
      CloseExactly(e, peer, r, a);
      SoundParts(e);
      OpenExactly(e, r.transaction);
    } else if r.operation != "create" {
      OtherExactly(e, peer, r, a);
    }
  }

  lemma OtherPeerApplied(e: Engine, peer: nat, r: Request, a: Answers)
    requires Sound(e) && r.transaction in e.table && !Belongs(e, r.transaction, peer)
    ensures e.table[r.transaction] < |e.heap|
    ensures Apply(e, peer, r, a) == Reply(MarkFailed(e, e.table[r.transaction]), None)
  {
    hide Apply, InOrder, Affordable, Founded, Sound;
    SoundParts(e);
    OpenExactly(e, r.transaction);
    if r.operation == "create" {
      CreateExactly(e, peer, r, a);
    } else if r.operation == "register" {
      RegisterExactly(e, peer, r, a);
    } else if r.operation == "close" {
      CloseExactly(e, peer, r, a);
    } else {
      OtherExactly(e, peer, r, a);
    }
  }

  /** Another peer gets nothing, begins nothing and closes nothing: its request can
      only mark the session. */
  lemma OtherPeers(s: State, ev: Event)
    requires Fit(s) && Enabled(s, ev) && (ev.Applied? || ev.ReadStarted? || ev.TerminateStarted?)
    requires ev.request.transaction in s.engine.table && !Belongs(s.engine, ev.request.transaction, ev.peer)
    ensures var o, id := Step(s, ev), s.engine.table[ev.request.transaction];
      && o.lease.None? && o.state.calls == s.calls && o.state.engine.table == s.engine.table && id < |s.engine.heap|
      && o.state.engine.heap == if ev.Applied? then s.engine.heap[id := s.engine.heap[id].(failed := true)]
          else s.engine.heap
  {
    hide Apply, ReadStart, TerminateStart, InOrder, Affordable, Founded, Sound, MembersKnown, CallFits;
    var e, r := s.engine, ev.request;
    SoundParts(e);
    OpenExactly(e, r.transaction);
    match ev {
      case Applied(peer, _, a) => OtherPeerApplied(e, peer, r, a);
      case ReadStarted(_, peer, _) => ReadStartExactly(e, peer, r);
      case TerminateStarted(_, peer, _) => TerminateStartExactly(e, peer, r);
    }
  }

  // ------------------------------------------------ where things come from

  ghost predicate FoundedBefore(states: seq<State>, events: seq<Event>, j: nat, i: nat, t: Session)
    requires |states| == |events| + 1
  {
    exists k :: 0 <= k < j && k < |events| && events[k].Applied? && events[k].request.operation == "create"
      && |states[k].engine.heap| == i && events[k].request.transaction !in states[k].engine.table
      && Founded(t, events[k].peer, events[k].request, events[k].answers)
  }

  lemma FoundedStays(s: Session, t: Session, peer: nat, r: Request, a: Answers)
    requires Grows(s, t) && Founded(s, peer, r, a)
    ensures Founded(t, peer, r, a)
  {
  }

  /** Only a creation adds a session, and only one. */
  lemma HeapStep(s: State, ev: Event)
    requires Fit(s) && Enabled(s, ev) && |Step(s, ev).state.engine.heap| != |s.engine.heap|
    ensures ev.Applied? && ev.request.operation == "create" && ev.request.transaction !in s.engine.table
    ensures var heap := Step(s, ev).state.engine.heap;
      |heap| == |s.engine.heap| + 1 && Founded(heap[|s.engine.heap|], ev.peer, ev.request, ev.answers)
        && heap[|s.engine.heap|].containers == map[] && heap[|s.engine.heap|].drainedContainers == map[]
  {
    hide MembersKnown, ValidContainer, Sound, CallFits, Create, Register, Close;
    if ev.Applied? {
      var e, r := s.engine, ev.request;
      SoundParts(e);
      OpenExactly(e, r.transaction);
      if r.operation == "create" {
        CreateExactly(e, ev.peer, r, ev.answers);
        CreateEmpty(e, ev.peer, r, ev.answers);
      } else if r.operation == "register" {
        RegisterExactly(e, ev.peer, r, ev.answers);
      } else if r.operation == "close" {
        CloseExactly(e, ev.peer, r, ev.answers);
      } else {
        OtherExactly(e, ev.peer, r, ev.answers);
      }
    }
  }

  lemma CreateEmpty(e: Engine, peer: nat, r: Request, a: Answers)
    ensures var f := Create(e, peer, r, a).engine; |f.heap| > |e.heap| ==>
      f.heap[|e.heap|].containers == map[] && f.heap[|e.heap|].drainedContainers == map[]
  {
  }

  /** Every session was founded by a creation, and still has the peer, the parent,
      the ceiling and the number of launches of that creation. */
  lemma {:induction false} SessionsFounded(states: seq<State>, events: seq<Event>, j: nat, i: nat)
    requires Run(states, events) && j < |states| && i < |states[j].engine.heap|
    ensures FoundedBefore(states, events, j, i, states[j].engine.heap[i])
  {
    hide Step, Fit, Founded, Enabled, Grows;
    if j > 0 {
      RunStep(states, events, j - 1);
      var a, b := states[j - 1].engine, states[j].engine;
      if i < |a.heap| {
        SessionsFounded(states, events, j - 1, i);
        var k :| 0 <= k < j - 1 && events[k].Applied? && events[k].request.operation == "create"
          && |states[k].engine.heap| == i && events[k].request.transaction !in states[k].engine.table
          && Founded(a.heap[i], events[k].peer, events[k].request, events[k].answers);
        FoundedStays(a.heap[i], b.heap[i], events[k].peer, events[k].request, events[k].answers);
      } else {
        HeapStep(states[j - 1], events[j - 1]);
        assert Founded(b.heap[i], events[j - 1].peer, events[j - 1].request, events[j - 1].answers);
      }
    }
  }

  /** The event registers a runtime with a session. */
  ghost predicate Enrolling(s: State, ev: Event, i: nat, container: string, role: string) {
    && ev.Applied? && ev.request.operation == "register" && ev.request.container == container && ev.request.role == role
    && Enrols(s.engine, ev.peer, ev.request, ev.answers) && s.engine.table[ev.request.transaction] == i
  }

  /** The event strikes a runtime off: a termination whose work is done. */
  ghost predicate Striking(s: State, ev: Event, i: nat, container: string) {
    && ev.TerminateEnded? && ev.call in s.calls && s.calls[ev.call].Drained? && !s.calls[ev.call].drained
    && s.calls[ev.call].id == i && s.calls[ev.call].container == container
  }

  /** What a step does to the runtimes of a session. */
  lemma RuntimesStep(s: State, ev: Event, i: nat, c: string)
    requires Fit(s) && Enabled(s, ev) && i < |s.engine.heap| && i < |Step(s, ev).state.engine.heap|
    ensures var a, b := s.engine.heap[i], Step(s, ev).state.engine.heap[i];
      && (c in b.containers ==>
          (c in a.containers && a.containers[c] == b.containers[c]) || Enrolling(s, ev, i, c, b.containers[c]))
      && (c in b.drainedContainers ==>
          c in a.drainedContainers || (c in a.containers && Striking(s, ev, i, c)))
  {
    hide MembersKnown, ValidContainer, Sound, Create, Register, Close, TerminateEnd, ReadEnd, InOrder, ContainerName;
    hide Accounted, ScopeOf, ParentOf;
    var e := s.engine;
    match ev {
      case Applied(peer, r, a) => RuntimesApplied(s, peer, r, a, i, c);
      case ReadEnded(d) => ReadEndExactly(e, s.calls[d]);
      case TerminateEnded(d, look) =>
        FitCall(s, d);
        TerminateEndExactly(e, s.calls[d], look);
      case _ =>
    }
  }

  lemma RuntimesApplied(s: State, peer: nat, r: Request, a: Answers, i: nat, c: string)
    requires Sound(s.engine) && i < |s.engine.heap| && i < |Apply(s.engine, peer, r, a).engine.heap|
    ensures var x, y := s.engine.heap[i], Apply(s.engine, peer, r, a).engine.heap[i];
      && (c in y.containers ==>
          || (c in x.containers && x.containers[c] == y.containers[c])
          || Enrolling(s, Applied(peer, r, a), i, c, y.containers[c]))
      && y.drainedContainers == x.drainedContainers
  {
    hide Apply, Sound, InOrder, Affordable, ContainerName;
    var e := s.engine;
    if r.operation == "create" {
      CreateExactly(e, peer, r, a);
      if Apply(e, peer, r, a).lease.Some? {
        assert Apply(e, peer, r, a).engine.heap[..|e.heap|][i] == e.heap[i];
      }
    } else if r.operation == "register" {
      RegisterExactly(e, peer, r, a);
    } else if r.operation == "close" {
      CloseExactly(e, peer, r, a);
    } else {
      OtherExactly(e, peer, r, a);
    }
  }

  ghost predicate EnrolledBefore(states: seq<State>, events: seq<Event>, j: nat, i: nat, c: string)
    requires |states| == |events| + 1
  {
    exists k, role :: 0 <= k < j && k < |events| && Enrolling(states[k], events[k], i, c, role)
  }

  ghost predicate StruckBefore(states: seq<State>, events: seq<Event>, j: nat, i: nat, c: string)
    requires |states| == |events| + 1
  {
    exists k :: 0 <= k < j && k < |events| && Striking(states[k], events[k], i, c)
  }

  /** Every live runtime was enrolled, in its role, by the peer of its session; every
      drained one was enrolled and then struck off. */
  lemma {:induction false} RuntimesEnrolled(states: seq<State>, events: seq<Event>, j: nat, i: nat, c: string)
    requires Run(states, events) && j < |states| && i < |states[j].engine.heap|
    ensures var s := states[j].engine.heap[i];
      && (c in s.containers ==>
          exists k :: 0 <= k < j && k < |events| && Enrolling(states[k], events[k], i, c, s.containers[c]))
      && (c in s.drainedContainers ==>
          EnrolledBefore(states, events, j, i, c) && StruckBefore(states, events, j, i, c))
  {
    hide Step, Fit, Enrolling, Striking, Enabled, Grows;
    if j > 0 {
      RunStep(states, events, j - 1);
      if i < |states[j - 1].engine.heap| {
        RuntimesEnrolled(states, events, j - 1, i, c);
        RuntimesStep(states[j - 1], events[j - 1], i, c);
      } else {
        HeapStep(states[j - 1], events[j - 1]);
      }
    }
  }

  /** A call has done its work only after the work succeeded. */
  lemma {:induction false} WorkDone(states: seq<State>, events: seq<Event>, j: nat, c: nat)
    requires Run(states, events) && j < |states| && c in states[j].calls && states[j].calls[c].Drained?
    ensures exists k :: 0 <= k < j && k < |events| && events[k] == TerminateWorked(c, true)
  {
    if j > 0 {
      assert states[j - 1 + 1] == Step(states[j - 1], events[j - 1]).state && Enabled(states[j - 1], events[j - 1]);
      WorkStep(states[j - 1], events[j - 1], c);
      if c in states[j - 1].calls && states[j - 1].calls[c].Drained? {
        WorkDone(states, events, j - 1, c);
      }
    }
  }

  lemma WorkStep(s: State, ev: Event, c: nat)
    requires Enabled(s, ev) && c in Step(s, ev).state.calls && Step(s, ev).state.calls[c].Drained?
    ensures (c in s.calls && s.calls[c].Drained?) || ev == TerminateWorked(c, true)
  {
    hide Apply, ReadEnd, TerminateEnd, MembersKnown, ValidContainer;
  }
}
