/** The engine itself: every method is one region under its lock, or the work of
    one request while it holds none. */
module ObservationEngine {
  import opened Wrappers
  import opened ObservationSteps
  import opened ObservationRuns
  import opened ObservationLaws

  /** `verifyObservationMembers`: every directory in the control group is the
      keeper's, a live runtime's, or a drained one that is still empty. */
  method VerifyMembers(s: Session, listing: Option<Listing>) returns (ok: bool)
    ensures ok <==> MembersKnown(s, listing)
  {
    if s.path == "" || s.keeperScope == "" || listing.None? || |listing.value.members| > 128 {
      return false;
    }
    var members := listing.value.members;
    var i := 0;
    while i < |members|
      invariant 0 <= i <= |members|
      invariant forall j :: 0 <= j < i ==> KnownMember(s, members[j])
    {
      var m := members[i];
      i := i + 1;
      if !m.directory {
        continue;
      }
      var known := m.path == s.keeperScope;
      var todo := s.scopes.Keys;
      while !known && todo != {}
        invariant todo <= s.scopes.Keys
        invariant known ==> m.path == s.keeperScope || m.path in s.scopes.Values
        invariant !known ==> m.path != s.keeperScope && forall c :: c in s.scopes.Keys - todo ==> s.scopes[c] != m.path
        decreases !known, |todo|
      {
        var c :| c in todo;
        known := s.scopes[c] == m.path;
        todo := todo - {c};
      }
      if !known && m.path in s.drainedScopes {
        if !m.drained {
          return false;
        }
        known := true;
      }
      if !known {
        return false;
      }
    }
    ok := listing.value.procsEmpty;
  }

  class Service {
    var sessions: map<string, nat>
    var heap: seq<Session>

    function View(): Engine
      reads this
    {
      Engine(sessions, heap)
    }

    constructor ()
      ensures View() == Engine(map[], []) && Sound(View())
    {
      sessions, heap := map[], [];
    }

    method Put(id: nat, s: Session)
      requires id < |heap|
      modifies this`heap
      ensures View() == With(old(View()), id, s)
    {
      heap := heap[id := s];
    }

    /** `fail`. */
    method Fail(transaction: string)
      requires Sound(View())
      modifies this`heap
      ensures View() == FailNamed(old(View()), transaction)
      ensures Sound(View()) && AllGrow(old(View()), View())
    {
      FailNamedFits(View(), transaction);
      OpenExactly(View(), transaction);
      if transaction in sessions {
        var id := sessions[transaction];
        Put(id, heap[id].(failed := true));
      }
    }

    /** Keeper, members and counter for a new lease. */
    method Settle(id: nat, look: Look) returns (lease: Option<Lease>)
      requires id < |heap|
      modifies this`heap
      ensures Reply(View(), lease) == Account(old(View()), id, old(heap[id]), look)
    {
      var s := heap[id];
      var known := VerifyMembers(s, look.listing);
      if !look.keeper || !known || look.counter.None? || look.counter.value < s.usage ||
        look.counter.value > s.ceiling {
        Put(id, s.(failed := true));
        return None;
      }
      s := s.(usage := look.counter.value);
      Put(id, s);
      lease := Some(Lease(s.parent, s.cpu, s.usage));
    }

    method CreateSession(peer: nat, r: Request, a: Answers) returns (lease: Option<Lease>)
      requires Sound(View())
      modifies this
      ensures Reply(View(), lease) == Create(old(View()), peer, r, a)
    {
      OpenExactly(View(), r.transaction);
      if r.transaction in sessions {
        Fail(r.transaction);
        return None;
      }
      if r.container != "" || r.role != "" || a.policy.None? || a.cpu.None? {
        return None;
      }
      if |sessions| >= 8 || a.keeper.None? {
        return None;
      }
      var keeper, policy := a.keeper.value, a.policy.value;
      var s := Session(peer, ParentOf(r.transaction), a.cpu.value, policy.runtimeCPUSecs * 1_000_000,
                       keeper.baseline, keeper.path, keeper.scope, map[], map[], {}, map[], 0,
                       2 * policy.maxImports + 4, false, false);
      sessions := sessions[r.transaction := |heap|];
      heap := heap + [s];
      lease := Some(Lease(s.parent, s.cpu, s.usage));
    }

    method RegisterRuntime(id: nat, r: Request, a: Answers) returns (lease: Option<Lease>)
      requires Sound(View()) && r.transaction in sessions && id == sessions[r.transaction] && id < |heap|
      modifies this`heap
      ensures Reply(View(), lease) == Register(old(View()), r, a)
    {
      hide ValidContainer, MembersKnown, Sound;
      var s := heap[id];
      if s.failed || r.role !in {"preparation", "anchor", "observation"} || !ValidContainer(r.container)
        || r.container in s.containers || r.container in s.drainedContainers || s.registrations >= s.maxLaunches
        || a.member.None? || a.member.value != s.path {
        Put(id, s.(failed := true));
        return None;
      }
      s := s.(containers := s.containers[r.container := r.role]);
      s := s.(scopes := s.scopes[r.container := ScopeOf(s.path, r.container)]);
      s := s.(registrations := s.registrations + 1);
      Put(id, s);
      ghost var before := old(View());
      assert heap == before.heap[id := s];
      lease := Settle(id, a.look);
      AccountAgain(before, id, s, a.look);
    }

    method CloseSession(id: nat, r: Request, a: Answers) returns (lease: Option<Lease>)
      requires Sound(View()) && r.transaction in sessions && id == sessions[r.transaction] && id < |heap|
      modifies this
      ensures Reply(View(), lease) == Close(old(View()), r, a)
    {
      hide Sound, MembersKnown;
      var s := heap[id];
      var known := VerifyMembers(s, a.look.listing);
      if r.container != "" || r.role != "" || |s.containers| != 0 || !a.look.keeper || !known || a.closing.None? {
        Put(id, s.(failed := true));
        return None;
      }
      var usage := a.closing.value;
      var failed := s.failed || usage < s.usage || usage > s.ceiling;
      heap := heap[id := s.(closed := true, failed := failed)];
      sessions := sessions - {r.transaction};
      lease := if failed then None else Some(Lease(s.parent, s.cpu, usage));
    }

    /** `apply`: one request under the lock. */
    method ApplyRequest(peer: nat, r: Request, a: Answers) returns (lease: Option<Lease>)
      requires Sound(View())
      modifies this
      ensures Reply(View(), lease) == Apply(old(View()), peer, r, a)
      ensures Sound(View()) && AllGrow(old(View()), View())
      ensures r.operation != "create" && lease.Some? ==> Belongs(old(View()), r.transaction, peer)
      ensures r.transaction in old(sessions) && !Belongs(old(View()), r.transaction, peer) ==>
        old(sessions)[r.transaction] < |old(heap)| && lease.None? &&
          View() == MarkFailed(old(View()), old(sessions)[r.transaction])
    {
      hide Create, Register, Close, Sound, AllGrow, Belongs;
      ApplyFits(View(), peer, r, a);
      OthersOf(View(), peer, r, a);
      if r.transaction in sessions && !Belongs(View(), r.transaction, peer) {
        OtherPeerApplied(View(), peer, r, a);
      }
      if r.operation == "create" {
        lease := CreateSession(peer, r, a);
        return;
      }
      SoundParts(View());
      OpenExactly(View(), r.transaction);
      if r.transaction !in sessions {
        return None;
      }
      var id := sessions[r.transaction];
      var s := heap[id];
      if s.closed || s.peer != peer || s.parent != ParentOf(r.transaction) || r.profile != "" {
        Fail(r.transaction);
        return None;
      }
      match r.operation
      case "register" => lease := RegisterRuntime(id, r, a);
      case "close" => lease := CloseSession(id, r, a);
      case _ =>
        Fail(r.transaction);
        lease := None;
    }

    /** The first region of `read`. */
    method BeginRead(peer: nat, r: Request) returns (call: Option<Call>)
      requires Sound(View())
      ensures call == ReadStart(View(), peer, r)
      ensures call.Some? ==> Belongs(View(), r.transaction, peer)
    {
      ReadStartExactly(View(), peer, r);
      OpenExactly(View(), r.transaction);
      call := None;
      if r.container == "" && r.role == "" && r.profile == "" && r.transaction in sessions {
        var s := heap[sessions[r.transaction]];
        if !s.closed && !s.failed && s.peer == peer && s.parent == ParentOf(r.transaction) && s.path != "" {
          call := Some(Reading(r.transaction, sessions[r.transaction], s));
        }
      }
    }

    /** Between the regions the snapshot is compared and the counter sampled. */
    method LookAround(c: Call, look: Look) returns (next: Option<Call>)
      requires Sound(View()) && c.Reading?
      modifies this`heap
      ensures next.Some? <==> SnapshotFits(c.snapshot, look)
      ensures next.Some? ==> next.value == Sampled(c.transaction, c.id, look.counter.value) && View() == old(View())
      ensures next.None? ==> View() == FailNamed(old(View()), c.transaction)
      ensures Sound(View()) && AllGrow(old(View()), View())
    {
      Grown(View());
      var known := VerifyMembers(c.snapshot, look.listing);
      if !look.keeper || !known || look.counter.None? {
        Fail(c.transaction);
        return None;
      }
      next := Some(Sampled(c.transaction, c.id, look.counter.value));
    }

    /** The last region of `read`. */
    method FinishRead(c: Call) returns (lease: Option<Lease>)
      requires Sound(View()) && c.Sampled? && c.id < |heap|
      modifies this`heap
      ensures Reply(View(), lease) == ReadEnd(old(View()), c)
      ensures Sound(View()) && AllGrow(old(View()), View())
    {
      ReadEndFits(View(), c);
      OpenExactly(View(), c.transaction);
      var s := heap[c.id];
      var current := c.transaction in sessions && sessions[c.transaction] == c.id;
      if !current || s.closed || s.failed || c.sample < s.usage || c.sample > s.ceiling {
        if current {
          Put(c.id, s.(failed := true));
        }
        return None;
      }
      s := s.(usage := c.sample);
      Put(c.id, s);
      lease := Some(Lease(s.parent, s.cpu, s.usage));
    }

    /** The first region of `terminate`. */
    method BeginTerminate(peer: nat, r: Request) returns (call: Option<Call>)
      requires Sound(View())
      ensures call == TerminateStart(View(), peer, r)
      ensures call.Some? ==> Belongs(View(), r.transaction, peer)
    {
      hide ValidContainer;
      TerminateStartExactly(View(), peer, r);
      OpenExactly(View(), r.transaction);
      call := None;
      if r.role != "" || r.profile != "" || !ValidContainer(r.container) || r.transaction !in sessions {
        return;
      }
      var id := sessions[r.transaction];
      var s := heap[id];
      if s.closed || s.peer != peer || s.parent != ParentOf(r.transaction) {
        return;
      }
      if r.container in s.scopes {
        call := Some(Terminating(r.transaction, id, r.container, s.scopes[r.container], false));
      } else if r.container in s.drainedContainers {
        call := Some(Terminating(r.transaction, id, r.container, s.drainedContainers[r.container], true));
      }
    }

    /** The last region of `terminate`. */
    method FinishTerminate(c: Call, look: Look) returns (lease: Option<Lease>)
      requires Sound(View()) && c.Drained? && c.id < |heap|
      modifies this`heap
      ensures Reply(View(), lease) == TerminateEnd(old(View()), c, look)
      ensures Sound(View()) && AllGrow(old(View()), View())
    {
      hide Sound, AllGrow, MembersKnown, Account;
      TerminateEndFits(View(), c, look);
      var s := heap[c.id];
      var current := c.transaction in sessions && sessions[c.transaction] == c.id;
      if !current
        || (!c.drained && !(c.container in s.scopes && s.scopes[c.container] == c.scope))
        || (c.drained && !(c.container in s.drainedContainers && s.drainedContainers[c.container] == c.scope)) {
        Put(c.id, s.(failed := true));
        return None;
      }
      ghost var before := View();
      if !c.drained {
        s := s.(drainedScopes := s.drainedScopes + {c.scope});
        s := s.(drainedContainers := s.drainedContainers[c.container := c.scope]);
        s := s.(containers := s.containers - {c.container});
        s := s.(scopes := s.scopes - {c.container});
        Put(c.id, s);
      }
      assert heap == before.heap[c.id := s];
      lease := Settle(c.id, look);
      AccountAgain(before, c.id, s, look);
    }
  }

  /** Storing a session before it is accounted for makes no difference. */
  lemma AccountAgain(e: Engine, id: nat, s: Session, look: Look)
    requires id < |e.heap|
    ensures Account(With(e, id, s), id, s, look) == Account(e, id, s, look)
  {
    assert e.heap[id := s][id := s.(failed := true)] == e.heap[id := s.(failed := true)];
    if look.counter.Some? {
      var t := s.(usage := look.counter.value);
      assert e.heap[id := s][id := t] == e.heap[id := t];
    }
  }
}
