/**
 * The per-tenant member lists are a second copy of the pid mapping. They agree with it on every
 * run that never moves a mapped process from one tenant to another.
 */
module MemberLists {
  import opened Words
  import opened ProcessTable
  import opened TenantRegistry
  import opened RegistryRefinement

  ghost function Members(b: map<int, nat>, t: nat): set<int> {
    set p | p in b && b[p] == t
  }

  /** The used slots of `list` hold exactly the pids of `ps`, once each. */
  ghost predicate Lists(list: seq<int>, ps: set<int>) {
    && DistinctNonZero(list)
    && forall p :: p != 0 ==> (p in list <==> p in ps)
  }

  ghost predicate AgreesFor(r: Registry, t: nat)
    requires t < |r.tenants|
  {
    var ps := Members(BindingsOf(r.maps), t);
    Lists(r.tenants[t].processes, ps) && r.tenants[t].processCount == |ps|
  }

  ghost predicate MembersAgree(r: Registry) {
    forall t: nat :: Existing(r, t) ==> AgreesFor(r, t)
  }

  lemma InsertLists(list: seq<int>, ps: set<int>, pid: int)
    requires Lists(list, ps) && pid != 0 && pid !in ps && First(list, 0, 0) < |list|
    ensures Lists(InsertFirstFree(list, pid), ps + {pid})
  {
    var i, w := First(list, 0, 0), InsertFirstFree(list, pid);
    assert w[i] == pid && forall k :: 0 <= k < |list| && k != i ==> w[k] == list[k];
    forall p | p != 0 ensures p in w <==> p in ps + {pid} {
      if p in list {
        var k :| 0 <= k < |list| && list[k] == p;
        assert w[k] == p;
      }
    }
  }

  lemma RemoveLists(list: seq<int>, ps: set<int>, pid: int)
    requires Lists(list, ps) && pid != 0 && pid in ps
    ensures Lists(RemoveFirst(list, pid), ps - {pid})
  {
    var i, w := First(list, pid, 0), RemoveFirst(list, pid);
    assert pid in list;
    assert w[i] == 0 && forall k :: 0 <= k < |list| && k != i ==> w[k] == list[k];
    forall p | p != 0 ensures p in w <==> p in ps - {pid} {
      if p in list && p != pid {
        var k :| 0 <= k < |list| && list[k] == p;
        assert w[k] == p;
      }
    }
  }

  lemma ListHasRoom(list: seq<int>, ps: set<int>)
    requires Lists(list, ps) && 0 !in ps && |ps| < |list|
    ensures First(list, 0, 0) < |list|
  {
    if First(list, 0, 0) == |list| {
      ElemsSize(list);
      assert forall p :: p in Elems(list) ==> p in list;
      SubsetSize(Elems(list), ps);
    }
  }

  /**
   * The unchecked first-free-slot insertion of a new binding always finds a slot: a free mapping
   * slot implies a free slot in the tenant's member list.
   */
  lemma InsertionFindsSlot(r: Registry, pid: int, tid: nat)
    requires Inv(r) && MembersAgree(r) && CanBind(r, pid, tid)
    requires pid != 0 && pid !in BindingsOf(r.maps)
    ensures First(r.tenants[tid].processes, 0, 0) < |r.tenants[tid].processes|
  {
    var b := BindingsOf(r.maps);
    BindSucceedsIff(r, pid, tid);
    SubsetSize(Members(b, tid), b.Keys);
    assert |b.Keys| == |b|;
    assert AgreesFor(r, tid);
    ListHasRoom(r.tenants[tid].processes, Members(b, tid));
  }

  /** A binding that does not move `pid` away from another tenant. */
  ghost predicate NotMoved(r: Registry, pid: int, tid: nat) {
    pid in BindingsOf(r.maps) ==> BindingsOf(r.maps)[pid] == tid
  }

  lemma BindNewListed(r: Registry, pid: int, tid: nat)
    requires Inv(r) && MembersAgree(r) && CanBind(r, pid, tid)
    requires pid != 0 && pid !in BindingsOf(r.maps)
    ensures var ps := Members(BindingsOf(r.maps), tid);
            && Lists(Bind(r, pid, tid).tenants[tid].processes, ps + {pid})
            && Bind(r, pid, tid).tenants[tid].processCount == |ps + {pid}|
  {
    var b := BindingsOf(r.maps);
    assert Existing(r, tid) && AgreesFor(r, tid);
    InsertionFindsSlot(r, pid, tid);
    SubsetSize(Members(b, tid), b.Keys);
    BindSucceedsIff(r, pid, tid);
    assert |b.Keys| == |b| < |r.maps|;
    InsertLists(r.tenants[tid].processes, Members(b, tid), pid);
  }

  lemma BindNewAgrees(r: Registry, pid: int, tid: nat, t: nat)
    requires Inv(r) && MembersAgree(r) && CanBind(r, pid, tid) && Existing(r, t)
    requires pid != 0 && pid !in BindingsOf(r.maps)
    ensures AgreesFor(Bind(r, pid, tid), t)
  {
    var s, b := Bind(r, pid, tid), BindingsOf(r.maps);
    BindRefines(r, pid, tid);
    assert AgreesFor(r, t);
    if t == tid {
      BindNewListed(r, pid, tid);
      assert Members(BindingsOf(s.maps), tid) == Members(b, tid) + {pid};
    } else {
      assert Members(BindingsOf(s.maps), t) == Members(b, t);
    }
  }

  /**
   * A binding keeps the member lists in agreement exactly when it does not move a mapped process
   * to a different tenant: the source then leaves the pid in the old tenant's list.
   */
  lemma BindKeepsMembersIff(r: Registry, pid: int, tid: nat)
    requires Inv(r) && MembersAgree(r) && CanBind(r, pid, tid) && pid != 0
    ensures MembersAgree(Bind(r, pid, tid)) <==> NotMoved(r, pid, tid)
  {
    var s, b := Bind(r, pid, tid), BindingsOf(r.maps);
    BindRefines(r, pid, tid);
    if pid !in b {
      forall t: nat | Existing(s, t) ensures AgreesFor(s, t) {
        BindNewAgrees(r, pid, tid, t);
      }
    } else if b[pid] == tid {
      assert BindingsOf(s.maps) == b;
      assert s.tenants == r.tenants;
      forall t: nat | Existing(s, t) ensures AgreesFor(s, t) {
        assert AgreesFor(r, t);
      }
    } else {
      assert s.tenants == r.tenants;
      assert AgreesFor(r, tid) && pid !in Members(b, tid);
      assert pid in Members(BindingsOf(s.maps), tid);
      assert !AgreesFor(s, tid);
    }
  }

  lemma UnbindKeepsMembers(r: Registry, pid: int)
    requires Inv(r) && MembersAgree(r) && pid != 0 && CanUnbind(r, pid)
    ensures MembersAgree(Unbind(r, pid))
  {
    var s, b := Unbind(r, pid), BindingsOf(r.maps);
    UnbindRefines(r, pid);
    forall t: nat | Existing(s, t) ensures AgreesFor(s, t) {
      assert AgreesFor(r, t);
      if t == b[pid] {
        assert Members(BindingsOf(s.maps), t) == Members(b, t) - {pid};
        assert pid in Members(b, t);
        RemoveLists(r.tenants[t].processes, Members(b, t), pid);
      } else {
        assert Members(BindingsOf(s.maps), t) == Members(b, t);
      }
    }
  }

  lemma DeleteKeepsMembers(r: Registry, id: nat)
    requires Inv(r) && MembersAgree(r) && CanDelete(r, id)
    ensures MembersAgree(Delete(r, id))
  {
    var s, b := Delete(r, id), BindingsOf(r.maps);
    DeleteRefines(r, id);
    forall t: nat | Existing(s, t) ensures AgreesFor(s, t) {
      assert AgreesFor(r, t);
      assert Members(BindingsOf(s.maps), t) == Members(b, t);
    }
  }

  lemma CreateKeepsMembers(r: Registry, id: nat, name: Option<string>, quota: Option<Quota>)
    requires Inv(r) && MembersAgree(r) && CanCreate(r, id)
    ensures MembersAgree(Create(r, id, name, quota))
  {
    var s, b := Create(r, id, name, quota), BindingsOf(r.maps);
    forall t: nat | Existing(s, t) ensures AgreesFor(s, t) {
      if t == id {
        forall p | p in b ensures b[p] != id {
          assert Existing(r, r.maps[FirstPid(r.maps, p, 0)].tid);
        }
        assert Members(b, id) == {};
      } else {
        assert AgreesFor(r, t);
      }
    }
  }

  ghost predicate Tame(r: Registry, c: Call) {
    Regular(c) && (c.BindProcess? ==> NotMoved(r, c.pid, c.tid))
  }

  lemma TameCallKeepsMembers(r: Registry, c: Call)
    requires Inv(r) && MembersAgree(r) && Tame(r, c)
    ensures MembersAgree(Apply(r, c))
  {
    if Succeeds(r, c) {
      if c.CreateTenant? {
        CreateKeepsMembers(r, c.id, c.name, c.newQuota);
      } else if c.DeleteTenant? {
        DeleteKeepsMembers(r, c.id);
      } else if c.BindProcess? {
        BindKeepsMembersIff(r, c.pid, c.tid);
      } else if c.UnbindProcess? {
        UnbindKeepsMembers(r, c.pid);
      } else {
        var s := Apply(r, c);
        forall t: nat | Existing(s, t) ensures AgreesFor(s, t) {
          assert AgreesFor(r, t);
        }
      }
    }
  }

  ghost predicate TameRun(r: Registry, calls: seq<Call>)
    requires Bounded(r)
  {
    calls == [] ||
    (TameRun(r, calls[..|calls| - 1]) && Tame(Run(r, calls[..|calls| - 1]), calls[|calls| - 1]))
  }

  /** Main result: over every tame run the two copies of the membership agree. */
  lemma {:induction false} RunKeepsMembers(r: Registry, calls: seq<Call>)
    requires Inv(r) && MembersAgree(r) && TameRun(r, calls)
    ensures Inv(Run(r, calls)) && MembersAgree(Run(r, calls))
  {
    if calls != [] {
      RunKeepsMembers(r, calls[..|calls| - 1]);
      ProperCallRefines(Run(r, calls[..|calls| - 1]), calls[|calls| - 1]);
      TameCallKeepsMembers(Run(r, calls[..|calls| - 1]), calls[|calls| - 1]);
    }
  }

  // ---------- tenants that are not in use ----------

  /** An INACTIVE tenant has no process and counts none. */
  ghost predicate IdleTenantsAreEmpty(r: Registry) {
    forall t: nat :: t < |r.tenants| && !Existing(r, t) ==> r.tenants[t].processCount == 0
  }

  lemma RegularCallKeepsIdleEmpty(r: Registry, c: Call)
    requires Inv(r) && IdleTenantsAreEmpty(r) && Regular(c)
    ensures IdleTenantsAreEmpty(Apply(r, c))
  {
    if c.UnbindProcess? && CanUnbind(r, c.pid) {
      assert Existing(r, r.maps[FirstPid(r.maps, c.pid, 0)].tid);
    }
  }

  /** Over every run of regular calls the count of an INACTIVE tenant is 0, like the number of its pids. */
  lemma {:induction false} RunKeepsIdleEmpty(r: Registry, calls: seq<Call>)
    requires Inv(r) && IdleTenantsAreEmpty(r) && forall i :: 0 <= i < |calls| ==> Regular(calls[i])
    ensures Inv(Run(r, calls)) && IdleTenantsAreEmpty(Run(r, calls))
    ensures forall t: nat :: !Existing(Run(r, calls), t) ==> Members(BindingsOf(Run(r, calls).maps), t) == {}
  {
    if calls != [] {
      RunKeepsIdleEmpty(r, calls[..|calls| - 1]);
      ProperCallRefines(Run(r, calls[..|calls| - 1]), calls[|calls| - 1]);
      RegularCallKeepsIdleEmpty(Run(r, calls[..|calls| - 1]), calls[|calls| - 1]);
    }
    NobodyBelongsToIdle(Run(r, calls));
  }

  lemma NobodyBelongsToIdle(r: Registry)
    requires Inv(r)
    ensures forall t: nat :: !Existing(r, t) ==> Members(BindingsOf(r.maps), t) == {}
  {
    forall t: nat | !Existing(r, t) ensures Members(BindingsOf(r.maps), t) == {} {
      forall p | p in BindingsOf(r.maps) ensures BindingsOf(r.maps)[p] != t {
        assert Existing(r, r.maps[FirstPid(r.maps, p, 0)].tid);
      }
    }
  }
}
