/** What holds in every interleaving of requests to the observation engine. */
module ObservationRuns {
  import opened Wrappers
  import opened ObservationSteps

  // -------------------------------------------------------------- invariants

  /** Every registration is live or drained, and never both. */
  ghost predicate Accounted(s: Session) {
    && s.containers.Keys == s.scopes.Keys && s.containers.Keys !! s.drainedContainers.Keys
    && |s.containers| + |s.drainedContainers| == s.registrations <= s.maxLaunches
    && (forall c :: c in s.scopes ==> s.scopes[c] == ScopeOf(s.path, c))
    && (forall c :: c in s.drainedContainers ==> s.drainedContainers[c] == ScopeOf(s.path, c))
    && s.drainedScopes == s.drainedContainers.Values
  }

  /** At most eight sessions are open; a name and an open session determine each
      other. */
  ghost predicate Tabled(e: Engine) {
    && |e.table| <= 8
    && (forall t :: t in e.table ==>
        e.table[t] < |e.heap| && !e.heap[e.table[t]].closed && e.heap[e.table[t]].parent == ParentOf(t))
    && (forall t, u :: t in e.table && u in e.table && e.table[t] == e.table[u] ==> t == u)
    && (forall i :: 0 <= i < |e.heap| && !e.heap[i].closed ==> i in e.table.Values)
  }

  ghost predicate Sound(e: Engine) {
    Tabled(e) && forall i :: 0 <= i < |e.heap| ==> Accounted(e.heap[i])
  }

  /** What a call carries was true when it let go of the lock, and a container
      once registered is live or drained ever after. */
  ghost predicate CallFits(e: Engine, c: Call) {
    && c.id < |e.heap| && e.heap[c.id].parent == ParentOf(c.transaction)
    && (c.Terminating? || c.Drained? ==>
          var s := e.heap[c.id];
          && c.scope == ScopeOf(s.path, c.container)
          && (if c.drained then c.container in s.drainedContainers
              else c.container in s.containers || c.container in s.drainedContainers))
  }

  ghost predicate Fit(s: State) {
    Sound(s.engine) && forall c :: c in s.calls ==> CallFits(s.engine, s.calls[c])
  }

  /** What no step ever does to a session: clear `failed` or `closed`, change what
      was fixed at creation, forget a registration, or take usage back. */
  ghost predicate Grows(s: Session, t: Session) {
    && t == s.(usage := t.usage, containers := t.containers, scopes := t.scopes, drainedScopes := t.drainedScopes,
        drainedContainers := t.drainedContainers,
               registrations := t.registrations, failed := t.failed, closed := t.closed)
    && (s.failed ==> t.failed) && (s.closed ==> t.closed) && s.usage <= t.usage && s.registrations <= t.registrations
    && s.drainedContainers.Keys <= t.drainedContainers.Keys
    && s.containers.Keys <= t.containers.Keys + t.drainedContainers.Keys
  }

  ghost predicate AllGrow(a: Engine, b: Engine) {
    |a.heap| <= |b.heap| && forall i :: 0 <= i < |a.heap| ==> Grows(a.heap[i], b.heap[i])
  }

  // --------------------------------------------------------- one step of each

  lemma SoundParts(e: Engine)
    requires Sound(e)
    ensures Tabled(e)
  {
  }

  lemma NewAccounted(s: Session)
    requires s.containers == map[] && s.scopes == map[] && s.drainedScopes == {} && s.drainedContainers == map[]
    requires s.registrations == 0
    ensures Accounted(s)
  {
  }

  lemma ClosedAccounted(s: Session, t: Session)
    requires Accounted(s) && t == s.(closed := true, failed := t.failed) && (s.failed ==> t.failed)
    ensures Accounted(t) && Grows(s, t)
  {
  }

  lemma SampledAccounted(s: Session, t: Session)
    requires Accounted(s) && t == s.(usage := t.usage)
    ensures Accounted(t)
    ensures s.usage <= t.usage ==> Grows(s, t)
  {
  }

  lemma TabledWith(e: Engine, f: Engine)
    requires Tabled(e) && f.table == e.table && |f.heap| == |e.heap|
    requires forall i ::
      0 <= i < |e.heap| ==> f.heap[i].closed == e.heap[i].closed && f.heap[i].parent == e.heap[i].parent
    ensures Tabled(f)
  {
  }

  lemma WithSound(e: Engine, id: nat, s: Session)
    requires Sound(e) && id < |e.heap| && Accounted(s) && s.closed == e.heap[id].closed && s.parent == e.heap[id].parent
    ensures Sound(With(e, id, s))
  {
    hide Tabled, Accounted;
    TabledWith(e, With(e, id, s));
  }

  lemma WithGrows(e: Engine, id: nat, s: Session)
    requires id < |e.heap| && Grows(e.heap[id], s)
    ensures AllGrow(e, With(e, id, s))
  {
  }

  lemma FailedFits(e: Engine, id: nat)
    requires Sound(e) && id < |e.heap|
    ensures Sound(MarkFailed(e, id)) && AllGrow(e, MarkFailed(e, id))
  {
    var s := e.heap[id].(failed := true);
    WithSound(e, id, s);
    WithGrows(e, id, s);
  }

  lemma FailNamedFits(e: Engine, t: string)
    requires Sound(e)
    ensures Sound(FailNamed(e, t)) && AllGrow(e, FailNamed(e, t))
  {
    if Open(e, t) {
      FailedFits(e, e.table[t]);
    }
  }

  lemma AccountFits(e: Engine, id: nat, s: Session, look: Look)
    requires Sound(e) && id < |e.heap| && Accounted(s) && Grows(e.heap[id], s) && s.closed == e.heap[id].closed
    ensures Sound(Account(e, id, s, look).engine) && AllGrow(e, Account(e, id, s, look).engine)
    ensures Account(e, id, s, look).engine.table == e.table
  {
    hide Tabled, ScopeOf, MembersKnown;
    var t := Account(e, id, s, look).engine.heap[id];
    WithSound(e, id, t);
    WithGrows(e, id, t);
  }

  lemma TabledMore(e: Engine, t: string, s: Session)
    requires Tabled(e) && t !in e.table && |e.table| < 8 && !s.closed && s.parent == ParentOf(t)
    ensures Tabled(Engine(e.table[t := |e.heap|], e.heap + [s]))
  {
    hide ParentOf;
    var f := Engine(e.table[t := |e.heap|], e.heap + [s]);
    forall i | 0 <= i < |f.heap| && !f.heap[i].closed ensures i in f.table.Values {
      if i < |e.heap| {
        assert !e.heap[i].closed;
        var u :| u in e.table && e.table[u] == i;
        assert f.table[u] == i;
      } else {
        assert f.table[t] == i;
      }
    }
  }

  lemma TabledLess(e: Engine, t: string, s: Session)
    requires Tabled(e) && t in e.table && s.closed
    ensures Tabled(Engine(e.table - {t}, e.heap[e.table[t] := s]))
  {
    hide ParentOf;
    var f := Engine(e.table - {t}, e.heap[e.table[t] := s]);
    LessOpen(e, t, s);
    assert |f.table.Keys| <= |e.table.Keys| by { SubsetSize(f.table.Keys, e.table.Keys); }
    assert |f.table| == |f.table.Keys| && |e.table| == |e.table.Keys|;
  }

  lemma LessOpen(e: Engine, t: string, s: Session)
    requires Tabled(e) && t in e.table && s.closed
    ensures var f := Engine(e.table - {t}, e.heap[e.table[t] := s]);
      forall i :: 0 <= i < |f.heap| && !f.heap[i].closed ==> i in f.table.Values
  {
    hide ParentOf;
    var f := Engine(e.table - {t}, e.heap[e.table[t] := s]);
    forall i | 0 <= i < |f.heap| && !f.heap[i].closed ensures i in f.table.Values {
      assert i != e.table[t] && !e.heap[i].closed;
      var u :| u in e.table && e.table[u] == i;
      assert u != t && f.table[u] == i;
    }
  }

  lemma CreateFits(e: Engine, peer: nat, r: Request, a: Answers)
    requires Sound(e)
    ensures Sound(Create(e, peer, r, a).engine) && AllGrow(e, Create(e, peer, r, a).engine)
  {
    hide Tabled, Accounted, Grows;
    FailNamedFits(e, r.transaction);
    Grown(e);
    var f := Create(e, peer, r, a).engine;
    if !Open(e, r.transaction) && |f.heap| > |e.heap| {
      OpenExactly(e, r.transaction);
      var s := f.heap[|e.heap|];
      NewAccounted(s);
      TabledMore(e, r.transaction, s);
      MoreGrows(e, f, s);
    }
  }

  lemma OpenExactly(e: Engine, t: string)
    requires Tabled(e)
    ensures Open(e, t) <==> t in e.table
    ensures |e.table| <= 8
  {
  }

  lemma MoreGrows(e: Engine, f: Engine, s: Session)
    requires f.heap == e.heap + [s]
    ensures AllGrow(e, f)
    ensures forall i :: 0 <= i < |e.heap| ==> f.heap[i] == e.heap[i]
  {
  }

  lemma RegisteredAccounted(s: Session, c: string, role: string, t: Session)
    requires Accounted(s) && c !in s.containers && c !in s.drainedContainers && s.registrations < s.maxLaunches
    requires t == s.(containers := s.containers[c := role], scopes := s.scopes[c := ScopeOf(s.path, c)],
      registrations := s.registrations + 1)
    ensures Accounted(t) && Grows(s, t)
  {
    hide ScopeOf, Grows;
    KeyAdded(s.containers, c, role);
    KeyAdded(s.scopes, c, ScopeOf(s.path, c));
    RegisteredGrows(s, c, t);
  }

  lemma RegisteredGrows(s: Session, c: string, t: Session)
    requires s.containers.Keys <= t.containers.Keys
    requires t == s.(containers := t.containers, scopes := t.scopes, registrations := s.registrations + 1)
    ensures Grows(s, t)
  {
  }

  lemma RegisterFits(e: Engine, r: Request, a: Answers)
    requires Sound(e) && Open(e, r.transaction)
    ensures Sound(Register(e, r, a).engine) && AllGrow(e, Register(e, r, a).engine)
  {
    hide Tabled, Accounted, Grows, AllGrow, Account, ValidContainer, ScopeOf;
    var id, s := e.table[r.transaction], Current(e, r.transaction);
    FailedFits(e, id);
    if Registrable(s, r, a) {
      var t := s.(containers := s.containers[r.container := r.role],
        scopes := s.scopes[r.container := ScopeOf(s.path, r.container)], registrations := s.registrations + 1);
      RegisteredAccounted(s, r.container, r.role, t);
      AccountFits(e, id, t, a.look);
    }
  }

  lemma CloseFits(e: Engine, r: Request, a: Answers)
    requires Sound(e) && Open(e, r.transaction)
    ensures Sound(Close(e, r, a).engine) && AllGrow(e, Close(e, r, a).engine)
  {
    hide Tabled, Accounted, Grows, MembersKnown;
    var id, s, f := e.table[r.transaction], Current(e, r.transaction), Close(e, r, a).engine;
    FailedFits(e, id);
    var t := f.heap[id];
    if f.table != e.table {
      TabledLess(e, r.transaction, t);
      ClosedAccounted(s, t);
      WithGrows(e, id, t);
    }
  }

  lemma ApplyFits(e: Engine, peer: nat, r: Request, a: Answers)
    requires Sound(e)
    ensures Sound(Apply(e, peer, r, a).engine) && AllGrow(e, Apply(e, peer, r, a).engine)
  {
    hide Sound, AllGrow, Create, Register, Close, FailNamed;
    Grown(e);
    FailNamedFits(e, r.transaction);
    CreateFits(e, peer, r, a);
    if Open(e, r.transaction) {
      RegisterFits(e, r, a);
      CloseFits(e, r, a);
    }
  }

  lemma Grown(e: Engine)
    ensures AllGrow(e, e)
  {
  }

  lemma ReadEndFits(e: Engine, c: Call)
    requires Sound(e) && c.Sampled? && c.id < |e.heap|
    ensures Sound(ReadEnd(e, c).engine) && AllGrow(e, ReadEnd(e, c).engine)
  {
    hide Tabled, Accounted, Grows;
    var s := e.heap[c.id];
    Grown(e);
    FailedFits(e, c.id);
    var t := s.(usage := c.sample);
    SampledAccounted(s, t);
    if c.sample >= s.usage {
      WithSound(e, c.id, t);
      WithGrows(e, c.id, t);
    }
  }

  lemma DrainedAccounted(s: Session, c: string, t: Session)
    requires Accounted(s) && c in s.containers
    requires t == s.(drainedScopes := s.drainedScopes + {s.scopes[c]},
      drainedContainers := s.drainedContainers[c := s.scopes[c]],
                     containers := s.containers - {c}, scopes := s.scopes - {c})
    ensures Accounted(t) && Grows(s, t)
  {
    hide ScopeOf, Grows;
    DrainedKeys(s.containers, s.scopes, s.drainedContainers, c, s.scopes[c]);
    DrainedGrows(s, c, t);
    DrainedValues(s.drainedContainers, c, s.scopes[c]);
  }

  lemma DrainedKeys(containers: map<string, string>, scopes: map<string, string>, drained: map<string, string>,
      c: string, v: string)
    requires c in containers && containers.Keys == scopes.Keys && containers.Keys !! drained.Keys
    ensures (containers - {c}).Keys == containers.Keys - {c} && (scopes - {c}).Keys == containers.Keys - {c}
    ensures drained[c := v].Keys == drained.Keys + {c}
    ensures |containers - {c}| == |containers| - 1 && |drained[c := v]| == |drained| + 1
    ensures (containers - {c}).Keys !! drained[c := v].Keys
  {
    KeyGone(containers, c);
    KeyGone(scopes, c);
    KeyAdded(drained, c, v);
  }

  lemma KeyGone(m: map<string, string>, c: string)
    requires c in m
    ensures (m - {c}).Keys == m.Keys - {c} && |m - {c}| == |m| - 1
  {
    assert |m - {c}| == |(m - {c}).Keys|;
  }

  lemma KeyAdded(m: map<string, string>, c: string, v: string)
    requires c !in m
    ensures m[c := v].Keys == m.Keys + {c} && |m[c := v]| == |m| + 1
  {
    assert |m[c := v]| == |m[c := v].Keys|;
  }

  lemma DrainedGrows(s: Session, c: string, t: Session)
    requires s.containers.Keys <= t.containers.Keys + {c} && t.drainedContainers.Keys == s.drainedContainers.Keys + {c}
    requires t == s.(containers := t.containers, scopes := t.scopes, drainedScopes := t.drainedScopes,
      drainedContainers := t.drainedContainers)
    ensures Grows(s, t)
  {
  }

  lemma DrainedValues(m: map<string, string>, c: string, v: string)
    requires c !in m
    ensures m[c := v].Values == m.Values + {v}
  {
    var n := m[c := v];
    forall w ensures w in n.Values <==> w in m.Values + {v} {
      if w in m.Values {
        var k :| k in m && m[k] == w;
        assert n[k] == w;
      }
      assert n[c] == v;
    }
  }

  lemma TerminateEndFits(e: Engine, c: Call, look: Look)
    requires Sound(e) && c.Drained? && c.id < |e.heap|
    ensures Sound(TerminateEnd(e, c, look).engine) && AllGrow(e, TerminateEnd(e, c, look).engine)
  {
    var s := e.heap[c.id];
    if !StillRegistered(e, c) {
      FailedFits(e, c.id);
    } else if c.drained {
      AccountFits(e, c.id, s, look);
    } else {
      var t := s.(drainedScopes := s.drainedScopes + {c.scope},
        drainedContainers := s.drainedContainers[c.container := c.scope],
                  containers := s.containers - {c.container}, scopes := s.scopes - {c.container});
      DrainedAccounted(s, c.container, t);
      AccountFits(e, c.id, t, look);
    }
  }

  // ------------------------------------------------------------ interleavings

  lemma CallStillFits(a: Engine, b: Engine, c: Call)
    requires CallFits(a, c) && AllGrow(a, b)
    ensures CallFits(b, c)
  {
  }

  lemma StepFits(s: State, ev: Event)
    requires Fit(s) && Enabled(s, ev)
    ensures Fit(Step(s, ev).state) && AllGrow(s.engine, Step(s, ev).state.engine)
  {
    hide Sound, AllGrow, Apply, ReadEnd, TerminateEnd, FailNamed, CallFits, ReadStart, TerminateStart;
    var t := Step(s, ev).state;
    Grown(s.engine);
    match ev {
      case Applied(peer, r, a) => ApplyFits(s.engine, peer, r, a);
      case ReadStarted(c, peer, r) => ReadStartFits(s.engine, peer, r);
      case ReadLooked(c, look) => FailNamedFits(s.engine, s.calls[c].transaction); CallGoesOn(s.engine, s.calls[c]);
      case ReadEnded(c) => ReadEndFits(s.engine, s.calls[c]);
      case TerminateStarted(c, peer, r) => TerminateStartFits(s.engine, peer, r);
      case TerminateWorked(c, ok) => FailNamedFits(s.engine, s.calls[c].transaction); CallGoesOn(s.engine, s.calls[c]);
      case TerminateEnded(c, look) => TerminateEndFits(s.engine, s.calls[c], look);
    }
    forall c | c in t.calls ensures CallFits(t.engine, t.calls[c]) {
      if c in s.calls && t.calls[c] == s.calls[c] {
        CallStillFits(s.engine, t.engine, s.calls[c]);
      }
    }
  }

  lemma ReadStartFits(e: Engine, peer: nat, r: Request)
    ensures ReadStart(e, peer, r).Some? ==> CallFits(e, ReadStart(e, peer, r).value)
  {
  }

  lemma TerminateStartFits(e: Engine, peer: nat, r: Request)
    requires Sound(e)
    ensures TerminateStart(e, peer, r).Some? ==> CallFits(e, TerminateStart(e, peer, r).value)
  {
  }

  /** A call that has done its work still carries what it carried. */
  lemma CallGoesOn(e: Engine, c: Call)
    requires CallFits(e, c)
    ensures c.Reading? ==> forall n: nat :: CallFits(e, Sampled(c.transaction, c.id, n))
    ensures c.Terminating? ==> CallFits(e, Drained(c.transaction, c.id, c.container, c.scope, c.drained))
  {
  }

  /** In every interleaving every registration is live or drained and never more
      than allowed, at most eight sessions are open, and names and open sessions
      determine each other. */
  lemma {:induction false} RunsFit(states: seq<State>, events: seq<Event>, i: nat)
    requires Run(states, events) && i < |states|
    ensures Fit(states[i])
  {
    if i > 0 {
      RunsFit(states, events, i - 1);
      StepFits(states[i - 1], events[i - 1]);
      assert states[i - 1 + 1] == Step(states[i - 1], events[i - 1]).state;
    }
  }

  lemma GrowTwice(a: Engine, b: Engine, c: Engine)
    requires AllGrow(a, b) && AllGrow(b, c)
    ensures AllGrow(a, c)
  {
    forall i | 0 <= i < |a.heap| ensures Grows(a.heap[i], c.heap[i]) {
      assert Grows(a.heap[i], b.heap[i]) && Grows(b.heap[i], c.heap[i]);
    }
  }

  /** Between any two moments: no failure is forgotten, no closed session reopens,
      no usage is taken back, no registration is lost. */
  lemma {:induction false} RunsGrow(states: seq<State>, events: seq<Event>, i: nat, j: nat)
    requires Run(states, events) && i <= j < |states|
    ensures AllGrow(states[i].engine, states[j].engine)
  {
    if i < j {
      RunsGrow(states, events, i, j - 1);
      RunsFit(states, events, j - 1);
      StepFits(states[j - 1], events[j - 1]);
      assert states[j - 1 + 1] == Step(states[j - 1], events[j - 1]).state;
      GrowTwice(states[i].engine, states[j - 1].engine, states[j].engine);
    } else {
      Grown(states[i].engine);
    }
  }

  // ------------------------------------------------------------------ leases

  /** The session an event is about, if it gives a lease. */
  function LeasedSession(s: State, ev: Event): nat {
    match ev
    case Applied(_, r, _) =>
      if r.operation != "create" && r.transaction in s.engine.table then s.engine.table[r.transaction]
      else |s.engine.heap|
    case ReadEnded(c) => if c in s.calls then s.calls[c].id else 0
    case TerminateEnded(c, _) => if c in s.calls then s.calls[c].id else 0
    case _ => 0
  }

  ghost predicate Closing(ev: Event) {
    ev.Applied? && ev.request.operation == "close"
  }

  /** A lease reports a counter that has not gone back and, but for the one of the
      creation, is within the ceiling; it is the usage from then on. */
  ghost predicate LeaseFits(s: State, ev: Event)
    requires Enabled(s, ev)
  {
    var o, id := Step(s, ev), LeasedSession(s, ev);
    o.lease.Some? ==>
      && id < |o.state.engine.heap|
      && (if Closing(ev) then o.state.engine.heap[id].closed else o.state.engine.heap[id].usage == o.lease.value.usage)
      && (id < |s.engine.heap| ==>
          !s.engine.heap[id].closed && s.engine.heap[id].usage <= o.lease.value.usage <= s.engine.heap[id].ceiling)
      && o.lease.value.parent == o.state.engine.heap[id].parent
  }

  lemma OpenSession(e: Engine, t: string)
    requires Sound(e) && t in e.table
    ensures Open(e, t) && !Current(e, t).closed && Current(e, t).parent == ParentOf(t)
  {
  }

  lemma AppliedLease(s: State, ev: Event)
    requires Fit(s) && Enabled(s, ev) && ev.Applied?
    ensures LeaseFits(s, ev)
  {
    hide MembersKnown, ValidContainer, ScopeOf, ParentOf, Sound, CallFits;
    var t := ev.request.transaction;
    if t in s.engine.table {
      OpenSession(s.engine, t);
    }
  }

  lemma StepLease(s: State, ev: Event)
    requires Fit(s) && Enabled(s, ev)
    ensures LeaseFits(s, ev)
  {
    hide MembersKnown, ScopeOf, ParentOf, Sound, CallFits, Apply;
    if ev.Applied? {
      AppliedLease(s, ev);
    } else if ev.ReadEnded? || ev.TerminateEnded? {
      var c := s.calls[ev.call];
      if c.transaction in s.engine.table {
        OpenSession(s.engine, c.transaction);
      }
    }
  }

  /** The leases of one session never go back and, the first aside, never exceed
      its ceiling. */
  lemma LeasesGrow(states: seq<State>, events: seq<Event>, i: nat, j: nat)
    requires Run(states, events) && i < j < |events|
    requires Step(states[i], events[i]).lease.Some? && Step(states[j], events[j]).lease.Some?
    requires LeasedSession(states[i], events[i]) == LeasedSession(states[j], events[j])
    ensures var id, usage := LeasedSession(states[j], events[j]), Step(states[j], events[j]).lease.value.usage;
      id < |states[j].engine.heap| &&
        Step(states[i], events[i]).lease.value.usage <= usage <= states[j].engine.heap[id].ceiling
  {
    hide Step, Fit, LeasedSession;
    RunsFit(states, events, i);
    RunsFit(states, events, j);
    StepLease(states[i], events[i]);
    StepLease(states[j], events[j]);
    RunsGrow(states, events, i + 1, j);
    assert states[i + 1] == Step(states[i], events[i]).state;
    var id := LeasedSession(states[i], events[i]);
    assert Grows(states[i + 1].engine.heap[id], states[j].engine.heap[id]);
  }

  /** The baseline of a creation is not compared with the ceiling; if it is above,
      no other lease is ever given. */
  lemma HighBaseline(states: seq<State>, events: seq<Event>, i: nat, j: nat)
    requires Run(states, events) && i < j < |events|
    requires Step(states[i], events[i]).lease.Some?
    requires LeasedSession(states[i], events[i]) == LeasedSession(states[j], events[j])
    requires LeasedSession(states[i], events[i]) < |states[i + 1].engine.heap|
    requires Step(states[i], events[i]).lease.value.usage
             > states[i + 1].engine.heap[LeasedSession(states[i], events[i])].ceiling
    ensures Step(states[j], events[j]).lease.None?
  {
    hide Step, Fit, LeasedSession;
    if Step(states[j], events[j]).lease.Some? {
      var id := LeasedSession(states[i], events[i]);
      RunsGrow(states, events, i + 1, j);
      assert Grows(states[i + 1].engine.heap[id], states[j].engine.heap[id]);
      LeasesGrow(states, events, i, j);
    }
  }

  /** A session that closes with a lease never failed, and every runtime that was
      ever registered has been drained. */
  lemma CloseMeansClean(states: seq<State>, events: seq<Event>, i: nat, k: nat)
    requires Run(states, events) && k <= i < |events| && Closing(events[i]) && Step(states[i], events[i]).lease.Some?
    ensures var id := LeasedSession(states[i], events[i]);
      && id < |states[i].engine.heap| && states[i + 1].engine.heap[id].closed
      && |states[i].engine.heap[id].containers| == 0
      && |states[i].engine.heap[id].drainedContainers| == states[i].engine.heap[id].registrations
      && (id < |states[k].engine.heap| ==> !states[k].engine.heap[id].failed)
  {
    hide MembersKnown, ScopeOf;
    RunsFit(states, events, i);
    RunsGrow(states, events, k, i);
    StepLease(states[i], events[i]);
    assert states[i + 1] == Step(states[i], events[i]).state;
    var id := LeasedSession(states[i], events[i]);
    assert Accounted(states[i].engine.heap[id]);
    if id < |states[k].engine.heap| {
      assert Grows(states[k].engine.heap[id], states[i].engine.heap[id]);
    }
  }

  // ------------------------------------------------------- stale and in between

  /** A read or a termination changes no session but its own, except that a failed
      look or a failed termination marks whatever session has the name now. */
  lemma OthersUntouched(s: State, ev: Event, i: nat)
    requires Fit(s) && Enabled(s, ev) && !ev.Applied? && i < |s.engine.heap|
    requires ev.call in s.calls ==> s.calls[ev.call].id != i
    ensures var t := Step(s, ev).state;
      && t.engine.table == s.engine.table && |t.engine.heap| == |s.engine.heap|
      && (t.engine.heap[i] == s.engine.heap[i] || t.engine.heap[i] == s.engine.heap[i].(failed := true))
    ensures ev.ReadEnded? || ev.TerminateEnded? ==> Step(s, ev).state.engine.heap[i] == s.engine.heap[i]
  {
    hide MembersKnown, ValidContainer, ScopeOf, ParentOf, Sound, CallFits;
  }

  /** When another session has taken over the name, the end of a read does nothing
      and the end of a termination only marks the session that is gone. */
  lemma StaleEnds(s: State, ev: Event)
    requires Fit(s) && Enabled(s, ev) && (ev.ReadEnded? || ev.TerminateEnded?)
    requires var c := s.calls[ev.call]; c.transaction !in s.engine.table || s.engine.table[c.transaction] != c.id
    ensures Step(s, ev).lease.None?
    ensures ev.ReadEnded? ==> Step(s, ev).state.engine == s.engine
    ensures ev.TerminateEnded? ==> Step(s, ev).state.engine == MarkFailed(s.engine, s.calls[ev.call].id)
    ensures s.engine.heap[s.calls[ev.call].id].closed
  {
    hide MembersKnown, ScopeOf, Accounted, ParentOf;
    var c := s.calls[ev.call];
    assert CallFits(s.engine, c);
    if !s.engine.heap[c.id].closed {
      assert c.id in s.engine.table.Values;
      var t :| t in s.engine.table && s.engine.table[t] == c.id;
      SameParent(t, c.transaction);
    }
  }

  /** Parents are named after their transactions. */
  lemma SameParent(t: string, u: string)
    requires ParentOf(t) == ParentOf(u)
    ensures t == u
  {
    assert ParentOf(t) == "haaobs" + (t + ".slice") && ParentOf(u) == "haaobs" + (u + ".slice");
    assert ("haaobs" + (t + ".slice"))[6..] == t + ".slice" && ("haaobs" + (u + ".slice"))[6..] == u + ".slice";
    assert (t + ".slice")[..|t|] == t && (u + ".slice")[..|u|] == u;
  }

  /** A failed look by a stale read marks the session that has the name now. */
  lemma StaleFailureHitsName(s: State, ev: Event)
    requires Fit(s) && Enabled(s, ev) && ev.ReadLooked? && !SnapshotFits(s.calls[ev.call].snapshot, ev.look)
    requires s.calls[ev.call].transaction in s.engine.table
    ensures Current(Step(s, ev).state.engine, s.calls[ev.call].transaction).failed
  {
    hide MembersKnown, ScopeOf, ParentOf, CallFits;
    OpenSession(s.engine, s.calls[ev.call].transaction);
  }

  /** A termination of an open session loses its runtime exactly when another one
      has drained it meanwhile; then the session fails. */
  lemma OverlappingTerminations(s: State, ev: Event)
    requires Fit(s) && Enabled(s, ev) && ev.TerminateEnded?
    requires var c := s.calls[ev.call]; c.transaction in s.engine.table && s.engine.table[c.transaction] == c.id
    ensures var c := s.calls[ev.call]; var h := s.engine.heap[c.id];
      StillRegistered(s.engine, c) <==> c.drained || c.container !in h.drainedContainers
    ensures !StillRegistered(s.engine, s.calls[ev.call]) ==>
      Step(s, ev).lease.None? && Step(s, ev).state.engine.heap[s.calls[ev.call].id].failed
  {
    hide MembersKnown, ScopeOf, ParentOf, Tabled;
    var c := s.calls[ev.call];
    assert CallFits(s.engine, c) && Accounted(s.engine.heap[c.id]);
  }

  /** A look that sees a running container it did not know at the snapshot. */
  lemma UnknownScopeFails(snapshot: Session, container: string, look: Look, k: nat)
    requires look.listing.Some? && k < |look.listing.value.members|
    requires look.listing.value.members[k] == Member(ScopeOf(snapshot.path, container), true, false)
    requires Accounted(snapshot) && container !in snapshot.containers
    requires ScopeOf(snapshot.path, container) != snapshot.keeperScope
    ensures !SnapshotFits(snapshot, look)
  {
    if ScopeOf(snapshot.path, container) in snapshot.scopes.Values {
      var d :| d in snapshot.scopes && snapshot.scopes[d] == ScopeOf(snapshot.path, container);
      SameScope(snapshot.path, container, d);
    }
    assert !KnownMember(snapshot, look.listing.value.members[k]);
  }

  predicate Failed(e: Engine, id: nat) {
    id < |e.heap| && e.heap[id].failed
  }

  /** The event registers a runtime and gives a lease. */
  ghost predicate Registers(s: State, ev: Event, id: nat, container: string) {
    ev.Applied? && ev.request.operation == "register" && ev.request.container == container && Leases(s, ev, id)
  }

  lemma RegisteredIsNew(s: State, ev: Event, id: nat, container: string)
    requires Fit(s) && Registers(s, ev, id, container)
    ensures id < |s.engine.heap|
    ensures container !in s.engine.heap[id].containers && container !in s.engine.heap[id].drainedContainers
  {
    hide MembersKnown, ValidContainer, ScopeOf, ParentOf, Sound, CallFits, Account;
  }

  /** Read `i` begins, a runtime is registered at `k`, and the read looks at `j`
      while the runtime is running. */
  ghost predicate RegisteredMeanwhile(states: seq<State>, events: seq<Event>, i: nat, k: nat, j: nat, id: nat,
      container: string) {
    && Run(states, events) && i < k < j < |events|
    && events[i].ReadStarted? && events[j].ReadLooked? && events[j].call == events[i].call
    && id < |states[i].engine.heap|
    && states[j].calls[events[j].call].id == id
    && states[j].calls[events[j].call].snapshot == states[i].engine.heap[id]
    && Registers(states[k], events[k], id, container)
    && var s := states[i].engine.heap[id];
      && ScopeOf(s.path, container) != s.keeperScope && events[j].look.listing.Some?
      && Member(ScopeOf(s.path, container), true, false) in events[j].look.listing.value.members
  }

  /** A runtime registered while a read has let go of the lock makes the read fail,
      and with it the session that has the name. */
  lemma RegistrationFailsRead(states: seq<State>, events: seq<Event>, i: nat, k: nat, j: nat, id: nat,
      container: string)
    requires RegisteredMeanwhile(states, events, i, k, j, id, container)
    ensures Step(states[j], events[j]).lease.None? && events[j].call !in Step(states[j], events[j]).state.calls
    ensures var t := states[j].calls[events[j].call].transaction;
      t in states[j].engine.table ==> Failed(Step(states[j], events[j]).state.engine, states[j].engine.table[t])
  {
    hide Step, Fit, LeasedSession, MembersKnown, ScopeOf, Registers, Accounted;
    RunsFit(states, events, i);
    RunsFit(states, events, k);
    RunsFit(states, events, j);
    RunsGrow(states, events, i, k);
    RegisteredIsNew(states[k], events[k], id, container);
    var s, look := states[i].engine.heap[id], events[j].look;
    assert Grows(s, states[k].engine.heap[id]);
    FitAccounts(states[i], id);
    var n :| 0 <= n < |look.listing.value.members|
      && look.listing.value.members[n] == Member(ScopeOf(s.path, container), true, false);
    UnknownScopeFails(s, container, look, n);
    BadLook(states[j], events[j]);
  }

  lemma FitAccounts(s: State, id: nat)
    requires Fit(s) && id < |s.engine.heap|
    ensures Accounted(s.engine.heap[id])
  {
    hide Tabled, Accounted, CallFits;
  }

  lemma BadLook(s: State, ev: Event)
    requires Fit(s) && Enabled(s, ev) && ev.ReadLooked? && !SnapshotFits(s.calls[ev.call].snapshot, ev.look)
    ensures Step(s, ev).lease.None? && ev.call !in Step(s, ev).state.calls
    ensures s.calls[ev.call].transaction in s.engine.table ==>
      Failed(Step(s, ev).state.engine, s.engine.table[s.calls[ev.call].transaction])
  {
    if s.calls[ev.call].transaction in s.engine.table {
      StaleFailureHitsName(s, ev);
    }
  }

  /** Scopes are named after their containers. */
  lemma SameScope(path: string, c: string, d: string)
    requires ScopeOf(path, c) == ScopeOf(path, d)
    ensures c == d
  {
    var prefix := path + "/docker-";
    assert ScopeOf(path, c) == prefix + (c + ".scope") && ScopeOf(path, d) == prefix + (d + ".scope");
    assert (prefix + (c + ".scope"))[|prefix|..] == c + ".scope";
    assert (prefix + (d + ".scope"))[|prefix|..] == d + ".scope";
    assert (c + ".scope")[..|c|] == c && (d + ".scope")[..|d|] == d;
  }

  // --------------------------------------------------------- overlapping reads

  /** The counter of one session's control group only grows: what an event reads
      of it is what it shows then. */
  ghost predicate Clocked(states: seq<State>, events: seq<Event>, id: nat, clock: seq<nat>)
    requires Run(states, events)
  {
    && |clock| == |events| && (forall i, j :: 0 <= i <= j < |clock| ==> clock[i] <= clock[j])
    && (forall k :: 0 <= k < |events| && Leases(states[k], events[k], id) ==>
        Step(states[k], events[k]).lease.value.usage == clock[k])
    && (forall k :: 0 <= k < |events| && events[k].ReadLooked? && states[k].calls[events[k].call].id == id ==>
        events[k].look.counter.Some? ==> events[k].look.counter.value == clock[k])
  }

  ghost predicate Leases(s: State, ev: Event, id: nat) {
    Enabled(s, ev) && Step(s, ev).lease.Some? && LeasedSession(s, ev) == id
  }

  /** Only a lease changes the usage of a session. */
  lemma UsageChanges(s: State, ev: Event, id: nat)
    requires Fit(s) && Enabled(s, ev) && id < |Step(s, ev).state.engine.heap|
    requires id >= |s.engine.heap| || Step(s, ev).state.engine.heap[id].usage != s.engine.heap[id].usage
    ensures Leases(s, ev, id) && Step(s, ev).lease.value.usage == Step(s, ev).state.engine.heap[id].usage
  {
    hide MembersKnown, ScopeOf, ParentOf, Sound, CallFits, Apply;
    if ev.Applied? {
      AppliedUsage(s, ev, id);
    }
  }

  lemma AppliedUsage(s: State, ev: Event, id: nat)
    requires Fit(s) && Enabled(s, ev) && ev.Applied? && id < |Step(s, ev).state.engine.heap|
    requires id >= |s.engine.heap| || Step(s, ev).state.engine.heap[id].usage != s.engine.heap[id].usage
    ensures Leases(s, ev, id) && Step(s, ev).lease.value.usage == Step(s, ev).state.engine.heap[id].usage
  {
    hide MembersKnown, ScopeOf, ParentOf, Sound, CallFits, ValidContainer;
  }

  lemma {:induction false} UsageBehind(states: seq<State>, events: seq<Event>, id: nat, clock: seq<nat>, i: nat)
    requires Run(states, events) && Clocked(states, events, id, clock) && i < |events| && id < |states[i].engine.heap|
    ensures states[i].engine.heap[id].usage <= clock[i]
  {
    hide Step, Fit, LeasedSession, Enabled;
    if i > 0 {
      var s, ev := states[i - 1], events[i - 1];
      RunsFit(states, events, i - 1);
      assert states[i - 1 + 1] == Step(s, ev).state && Enabled(s, ev);
      if id < |s.engine.heap| && states[i].engine.heap[id].usage == s.engine.heap[id].usage {
        UsageBehind(states, events, id, clock, i - 1);
      } else {
        UsageChanges(s, ev, id);
      }
    }
  }

  /** The event gives a lease of the session that reports more than `n`. */
  ghost predicate Passes(s: State, ev: Event, id: nat, n: nat) {
    Leases(s, ev, id) && Step(s, ev).lease.value.usage > n
  }

  /** Usage that has grown past `n` did so at a lease. */
  lemma {:induction false} UsageCrossed(states: seq<State>, events: seq<Event>, id: nat, n: nat, i: nat, j: nat)
    returns (k: nat)
    requires Run(states, events) && i <= j < |states| && id < |states[i].engine.heap| && id < |states[j].engine.heap|
    requires states[i].engine.heap[id].usage <= n < states[j].engine.heap[id].usage
    ensures i <= k < j && Passes(states[k], events[k], id, n)
  {
    hide Step, Fit, LeasedSession, Enabled, Leases;
    var s, ev := states[j - 1], events[j - 1];
    RunsFit(states, events, j - 1);
    RunsGrow(states, events, i, j - 1);
    assert states[j - 1 + 1] == Step(s, ev).state && Enabled(s, ev);
    if s.engine.heap[id].usage <= n {
      UsageChanges(s, ev, id);
      k := j - 1;
    } else {
      k := UsageCrossed(states, events, id, n, i, j - 1);
    }
  }

  /** A lease of a session that stays open is a lower bound of its usage. */
  lemma LeaseStays(states: seq<State>, events: seq<Event>, id: nat, n: nat, k: nat, j: nat)
    requires Run(states, events) && k < j < |states| && Passes(states[k], events[k], id, n)
    requires id < |states[j].engine.heap| && !states[j].engine.heap[id].closed
    ensures states[j].engine.heap[id].usage > n
  {
    hide Step, Fit, LeasedSession;
    RunsFit(states, events, k);
    StepLease(states[k], events[k]);
    assert states[k + 1] == Step(states[k], events[k]).state;
    RunsGrow(states, events, k + 1, j);
    assert Grows(states[k + 1].engine.heap[id], states[j].engine.heap[id]);
  }

  /** At `j` a read of the session `id` ends that looked at `i`, when all was well;
      the session has not failed and is within its ceiling. */
  ghost predicate HealthyRead(states: seq<State>, events: seq<Event>, clock: seq<nat>, id: nat, i: nat, j: nat) {
    && Run(states, events) && Clocked(states, events, id, clock) && i < j < |events|
    && events[i].ReadLooked? && states[i].calls[events[i].call].id == id && id < |states[i].engine.heap|
    && SnapshotFits(states[i].calls[events[i].call].snapshot, events[i].look)
    && events[j].ReadEnded?
    && var c := states[j].calls[events[j].call];
      && c.id == id && c.sample == events[i].look.counter.value
      && c.transaction in states[j].engine.table && states[j].engine.table[c.transaction] == id
      && !states[j].engine.heap[id].failed && clock[j] <= states[j].engine.heap[id].ceiling
  }

  /** A read fails a healthy session exactly when another request overtook it: it
      got a lease with more between the look at the counter and the end. */
  lemma HealthyReadFails(states: seq<State>, events: seq<Event>, clock: seq<nat>, id: nat, i: nat, j: nat)
    requires HealthyRead(states, events, clock, id, i, j)
    ensures var n := events[i].look.counter.value;
      Step(states[j], events[j]).lease.None? <==> exists k :: i < k < j && Passes(states[k], events[k], id, n)
    ensures Step(states[j], events[j]).lease.None? <==> Step(states[j], events[j]).state.engine.heap[id].failed
  {
    hide Fit, LeasedSession, MembersKnown, Passes, Leases, Step, ParentOf;
    var n := events[i].look.counter.value;
    RunsFit(states, events, j);
    EndOfRead(states[j], events[j], id);
    assert clock[i] <= clock[j];
    if states[j].engine.heap[id].usage > n {
      UsageBehind(states, events, id, clock, i);
      LookKeepsUsage(states[i], events[i], id);
      assert states[i + 1] == Step(states[i], events[i]).state;
      var k := UsageCrossed(states, events, id, n, i + 1, j);
    } else if k :| i < k < j && Passes(states[k], events[k], id, n) {
      LeaseStays(states, events, id, n, k, j);
    }
  }

  /** The end of a read of a session that is open under its name. */
  lemma EndOfRead(s: State, ev: Event, id: nat)
    requires Fit(s) && Enabled(s, ev) && ev.ReadEnded? && s.calls[ev.call].id == id
    requires s.calls[ev.call].transaction in s.engine.table && s.engine.table[s.calls[ev.call].transaction] == id
    requires !s.engine.heap[id].failed && s.calls[ev.call].sample <= s.engine.heap[id].ceiling
    ensures !s.engine.heap[id].closed && id < |Step(s, ev).state.engine.heap|
    ensures Step(s, ev).lease.None? <==> s.engine.heap[id].usage > s.calls[ev.call].sample
    ensures Step(s, ev).lease.None? <==> Step(s, ev).state.engine.heap[id].failed
  {
    hide Sound, ParentOf, CallFits;
    OpenSession(s.engine, s.calls[ev.call].transaction);
  }

  lemma LookKeepsUsage(s: State, ev: Event, id: nat)
    requires Enabled(s, ev) && ev.ReadLooked? && id < |s.engine.heap|
    ensures id < |Step(s, ev).state.engine.heap| && Step(s, ev).state.engine.heap[id].usage == s.engine.heap[id].usage
  {
  }

  /** Events one after the other, if each can happen. */
  function After(s: State, events: seq<Event>): Option<State>
    decreases |events|
  {
    if events == [] then Some(s)
    else if Enabled(s, events[0]) then After(Step(s, events[0]).state, events[1..])
    else None
  }

  /** Two overlapping reads: the one that looked first and ends last fails the
      session, though nothing is wrong with it. */
  lemma OverlappingReads(s: State, a: nat, b: nat, look: Look, later: Look, id: nat)
    requires Fit(s) && a in s.calls && b in s.calls && a != b && s.calls[a].Reading? && s.calls[b].Reading?
    requires s.calls[b].transaction == s.calls[a].transaction && s.calls[a].id == s.calls[b].id == id
    requires SnapshotFits(s.calls[a].snapshot, look) && SnapshotFits(s.calls[b].snapshot, later)
    requires s.calls[a].transaction in s.engine.table && s.engine.table[s.calls[a].transaction] == id
    requires id < |s.engine.heap|
    requires !s.engine.heap[id].failed
    requires s.engine.heap[id].usage <= look.counter.value < later.counter.value <= s.engine.heap[id].ceiling
    ensures var t := After(s, [ReadLooked(a, look), ReadLooked(b, later), ReadEnded(b), ReadEnded(a)]);
      t.Some? && id < |t.value.engine.heap| && t.value.engine.heap[id].failed
    ensures var t := After(s, [ReadLooked(a, look), ReadLooked(b, later), ReadEnded(a), ReadEnded(b)]);
      t.Some? && id < |t.value.engine.heap| && !t.value.engine.heap[id].failed
  {
    hide MembersKnown, ScopeOf, ParentOf, CallFits, Accounted, After;
    OpenSession(s.engine, s.calls[a].transaction);
    var s1 := Step(s, ReadLooked(a, look)).state;
    var s2 := Step(s1, ReadLooked(b, later)).state;
    EndsFail(s2, a, b, id);
    EndsLease(s2, a, b, id);
    AfterTwo(s, ReadLooked(a, look), ReadLooked(b, later), ReadEnded(b), ReadEnded(a));
    AfterTwo(s, ReadLooked(a, look), ReadLooked(b, later), ReadEnded(a), ReadEnded(b));
  }

  /** Both have looked, and the second saw more. */
  ghost predicate BothSampled(s: State, a: nat, b: nat, id: nat) {
    && a in s.calls && b in s.calls && a != b && s.calls[a].Sampled? && s.calls[b].Sampled?
    && s.calls[a].transaction == s.calls[b].transaction && s.calls[a].id == s.calls[b].id == id
    && s.calls[a].transaction in s.engine.table && s.engine.table[s.calls[a].transaction] == id && id < |s.engine.heap|
    && !s.engine.heap[id].failed && !s.engine.heap[id].closed
    && s.engine.heap[id].usage <= s.calls[a].sample < s.calls[b].sample <= s.engine.heap[id].ceiling
  }

  lemma EndsFail(s: State, a: nat, b: nat, id: nat)
    requires BothSampled(s, a, b, id)
    ensures var t := After(s, [ReadEnded(b), ReadEnded(a)]);
      t.Some? && id < |t.value.engine.heap| && t.value.engine.heap[id].failed
  {
    hide After;
    var s1 := Step(s, ReadEnded(b)).state;
    var s2 := Step(s1, ReadEnded(a)).state;
    AfterOne(s, ReadEnded(b), [ReadEnded(a)]);
    AfterOne(s1, ReadEnded(a), []);
    AfterNone(s2);
    assert [ReadEnded(b)] + [ReadEnded(a)] == [ReadEnded(b), ReadEnded(a)] && [ReadEnded(a)] + [] == [ReadEnded(a)];
  }

  lemma EndsLease(s: State, a: nat, b: nat, id: nat)
    requires BothSampled(s, a, b, id)
    ensures var t := After(s, [ReadEnded(a), ReadEnded(b)]);
      t.Some? && id < |t.value.engine.heap| && !t.value.engine.heap[id].failed
  {
    hide After;
    var s1 := Step(s, ReadEnded(a)).state;
    var s2 := Step(s1, ReadEnded(b)).state;
    AfterOne(s, ReadEnded(a), [ReadEnded(b)]);
    AfterOne(s1, ReadEnded(b), []);
    AfterNone(s2);
    assert [ReadEnded(a)] + [ReadEnded(b)] == [ReadEnded(a), ReadEnded(b)] && [ReadEnded(b)] + [] == [ReadEnded(b)];
  }

  lemma AfterNone(s: State)
    ensures After(s, []) == Some(s)
  {
  }

  lemma AfterOne(s: State, ev: Event, events: seq<Event>)
    requires Enabled(s, ev)
    ensures After(s, [ev] + events) == After(Step(s, ev).state, events)
  {
    assert ([ev] + events)[1..] == events;
  }

  lemma AfterTwo(s: State, e1: Event, e2: Event, e3: Event, e4: Event)
    requires Enabled(s, e1) && Enabled(Step(s, e1).state, e2)
    ensures After(s, [e1, e2, e3, e4]) == After(Step(Step(s, e1).state, e2).state, [e3, e4])
  {
    hide Enabled, Step;
    assert [e1, e2, e3, e4] == [e1] + ([e2] + [e3, e4]);
    AfterOne(s, e1, [e2] + [e3, e4]);
    AfterOne(Step(s, e1).state, e2, [e3, e4]);
  }

  // ------------------------------------------------------------ two whole runs

  function Asked(operation: string): Request {
    Request(operation, "t", "", "", "")
  }

  function Counted(n: nat): Look {
    Look(true, Some(Listing([], true)), Some(n))
  }

  function Answered(n: nat): Answers {
    Answers(Some(Policy(1, 1)), Some(0), Some(Keeper("/p", "/k", n)), None, Some(n), Counted(n))
  }

  function Fresh(): Session {
    Session(0, ParentOf("t"), 0, 1_000_000, 0, "/p", "/k", map[], map[], {}, map[], 0, 6, false, false)
  }

  /** Two reads of one session; the second looks later and ends first. */
  function TwoReads(): seq<Event> {
    [Applied(0, Asked("create"), Answered(0)), ReadStarted(0, 0, Asked("read")), ReadStarted(1, 0, Asked("read")),
     ReadLooked(0, Counted(1)), ReadLooked(1, Counted(2)), ReadEnded(1), ReadEnded(0)]
  }

  /** The engine with one session, and calls. */
  function OneSession(s: Session, calls: map<nat, Call>): State {
    State(Engine(map["t" := 0], [s]), calls)
  }

  function TwoReadsStates(): seq<State> {
    var s := Fresh();
    [Beginning(), OneSession(s, map[]), OneSession(s, map[0 := Reading("t", 0, s)]),
     OneSession(s, map[0 := Reading("t", 0, s), 1 := Reading("t", 0, s)]),
     OneSession(s, map[0 := Sampled("t", 0, 1), 1 := Reading("t", 0, s)]),
     OneSession(s, map[0 := Sampled("t", 0, 1), 1 := Sampled("t", 0, 2)]),
     OneSession(s.(usage := 2), map[0 := Sampled("t", 0, 1)]), OneSession(s.(usage := 2, failed := true), map[])]
  }

  /** From the empty engine: a read of a healthy session, overtaken by another. */
  lemma OverlappingRun(states: seq<State>, events: seq<Event>, clock: seq<nat>)
    requires states == TwoReadsStates() && events == TwoReads() && clock == [0, 0, 0, 1, 2, 2, 2]
    ensures HealthyRead(states, events, clock, 0, 3, 6) && Step(states[6], events[6]).lease.None?
    ensures states[7].engine.heap[0].failed
  {
    hide Run, Clocked, ParentOf;
    TwoReadsBegin(states, events);
    TwoReadsEnd(states, events);
    TwoReadsRun(states, events);
    TwoReadsClocked(states, events, clock);
  }

  lemma TwoReadsBegin(states: seq<State>, events: seq<Event>)
    requires states == TwoReadsStates() && events == TwoReads()
    ensures forall i ::
      0 <= i < 3 ==> Enabled(states[i], events[i]) && Step(states[i], events[i]).state == states[i + 1]
    ensures Step(states[0], events[0]).lease.Some? && Step(states[0], events[0]).lease.value.usage == 0
    ensures Step(states[1], events[1]).lease.None? && Step(states[2], events[2]).lease.None?
  {
    hide ParentOf;
    assert Step(states[0], events[0]).state == states[1];
    assert Step(states[1], events[1]).state == states[2];
    assert Step(states[2], events[2]).state == states[3];
  }

  lemma TwoReadsEnd(states: seq<State>, events: seq<Event>)
    requires states == TwoReadsStates() && events == TwoReads()
    ensures forall i ::
      3 <= i < 7 ==> Enabled(states[i], events[i]) && Step(states[i], events[i]).state == states[i + 1]
    ensures Step(states[3], events[3]).lease.None? && Step(states[4], events[4]).lease.None?
    ensures Step(states[5], events[5]).lease.Some? && Step(states[5], events[5]).lease.value.usage == 2
    ensures Step(states[6], events[6]).lease.None?
    ensures SnapshotFits(Fresh(), Counted(1))
  {
    hide ParentOf;
    assert Step(states[3], events[3]).state == states[4];
    assert Step(states[4], events[4]).state == states[5];
    assert Step(states[5], events[5]).state == states[6];
    assert Step(states[6], events[6]).state == states[7];
  }

  lemma TwoReadsRun(states: seq<State>, events: seq<Event>)
    requires |states| == 8 && |events| == 7 && states[0] == Beginning()
    requires forall i ::
      0 <= i < 7 ==> Enabled(states[i], events[i]) && Step(states[i], events[i]).state == states[i + 1]
    ensures Run(states, events)
  {
    hide Enabled, Step;
  }

  lemma TwoReadsClocked(states: seq<State>, events: seq<Event>, clock: seq<nat>)
    requires states == TwoReadsStates() && events == TwoReads() && clock == [0, 0, 0, 1, 2, 2, 2] && Run(states, events)
    ensures Clocked(states, events, 0, clock)
  {
    hide Run, Step, Enabled, ParentOf;
    TwoReadsBegin(states, events);
    TwoReadsEnd(states, events);
    assert forall k :: 0 <= k < 7 && Leases(states[k], events[k], 0) ==> k == 0 || k == 5;
    assert forall k :: 0 <= k < 7 && events[k].ReadLooked? ==> k == 3 || k == 4;
  }

  /** Two sessions of one name, and a read of the first. */
  function ReadOutlivesSession(): seq<Event> {
    [Applied(0, Asked("create"), Answered(0)), ReadStarted(0, 0, Asked("read")),
     Applied(0, Asked("close"), Answered(0)), Applied(0, Asked("create"), Answered(0))]
  }

  /** From the empty engine: a read outlives its session, and its bad look fails
      the session that has the name then. */
  lemma StaleRun(events: seq<Event>, bad: Look)
    requires !bad.keeper && events == ReadOutlivesSession() + [ReadLooked(0, bad)]
    ensures exists states: seq<State> :: Run(states, events) && states[5].engine.table == map["t" := 1]
              && |states[4].engine.heap| == |states[5].engine.heap| == 2 && 0 in states[4].calls
              && states[4].calls[0].id == 0
              && !states[4].engine.heap[1].failed && states[5].engine.heap[1].failed
  {
    hide Run, Step, Enabled, ParentOf;
    var before := SessionReplaced();
    StaleFails(before[4], bad);
    RunMore(before, ReadOutlivesSession(), ReadLooked(0, bad));
    var states := before + [Step(before[4], ReadLooked(0, bad)).state];
    assert Run(states, events);
  }

  lemma StaleFails(s: State, bad: Look)
    requires !bad.keeper && 0 in s.calls && s.calls[0] == Reading("t", 0, Fresh())
    requires s.engine == Engine(map["t" := 1], [Fresh().(closed := true), Fresh()])
    ensures Enabled(s, ReadLooked(0, bad))
    ensures Step(s, ReadLooked(0, bad)).state.engine ==
      Engine(map["t" := 1], [Fresh().(closed := true), Fresh().(failed := true)])
  {
    hide MembersKnown, ParentOf;
  }

  lemma RunMore(states: seq<State>, events: seq<Event>, ev: Event)
    requires Run(states, events) && Enabled(states[|events|], ev)
    ensures Run(states + [Step(states[|events|], ev).state], events + [ev])
  {
    hide Enabled, Step;
  }

  lemma SessionReplaced() returns (states: seq<State>)
    ensures Run(states, ReadOutlivesSession()) && |states| == 5
    ensures states[4] ==
      State(Engine(map["t" := 1], [Fresh().(closed := true), Fresh()]), map[0 := Reading("t", 0, Fresh())])
  {
    hide ParentOf;
    var events := ReadOutlivesSession();
    var s1 := State(Engine(map["t" := 0], [Fresh()]), map[]);
    var s2 := s1.(calls := map[0 := Reading("t", 0, Fresh())]);
    var s3 := s2.(engine := Engine(map[], [Fresh().(closed := true)]));
    var s4 := s2.(engine := Engine(map["t" := 1], [Fresh().(closed := true), Fresh()]));
    assert Step(Beginning(), events[0]).state == s1;
    assert Step(s1, events[1]).state == s2;
    assert Step(s2, events[2]).state == s3;
    assert Step(s3, events[3]).state == s4;
    states := [Beginning(), s1, s2, s3, s4];
  }
}
