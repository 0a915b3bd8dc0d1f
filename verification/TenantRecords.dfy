/**
 * Each tenant record on its own: over every run of API calls it holds what the last call on this
 * very tenant put there, whatever is done to the others.
 */
module TenantRecords {
  import opened Words
  import opened TenantRegistry
  import opened LockedRuns
  import Refinement = RegistryRefinement

  /** What a caller can set in a tenant record. */
  datatype View = View(id: int, status: Status, name: string, quota: Quota, usage: TenantUsage)

  function ViewOf(t: Tenant): View {
    View(t.id, t.status, t.name, t.quota, t.usage)
  }

  const NO_USAGE := TenantUsage(0, 0, 0, 0, 0, 0, 0, 0, 0)

  /** At most the first 63 characters of the name, all of it if it is that short. */
  ghost predicate NamedAfter(name: string, given: string) {
    name <= given && |name| <= 63 && (|given| <= 63 ==> name == given) && (|given| > 63 ==> |name| == 63)
  }

  /** What a successful creation leaves: `None` stands for a name or quota that was not given. */
  ghost predicate CreatedAs(v: View, id: nat, name: Option<string>, quota: Option<Quota>) {
    && v.id == id && v.status == Active && v.usage == NO_USAGE
    && NamedAfter(v.name, if name.Some? then name.value else "unnamed")
    && (quota.Some? ==> v.quota == quota.value)
    && (quota.None? ==> v.quota == Quota(100, 1000, 1073741824, 100, 100))
  }

  /** One call as tenant `id` sees it: `before` becomes `after`. */
  ghost predicate Seen(before: View, c: Call, id: nat, after: View) {
    match c
    case CreateTenant(i, name, quota) =>
      if i == id && id != 0 && before.status == Inactive then CreatedAs(after, id, name, quota) else after == before
    case DeleteTenant(i) =>
      if i == id && id != 0 && before.status != Inactive then after == before.(status := Inactive) else after == before
    case SetTenantStatus(i, status) =>
      if i == id && before.status != Inactive then after == before.(status := status) else after == before
    case SetTenantQuota(i, quota) =>
      if i == id && before.status != Inactive then after == before.(quota := quota) else after == before
    case SetUsage(i, usage) =>
      if i == id && before.status == Active then after == before.(usage := usage) else after == before
    case BindProcess(_, _) => after == before
    case UnbindProcess(_) => after == before
  }

  lemma CallIsSeen(r: Registry, c: Call, id: nat)
    requires Bounded(r) && id < |r.tenants|
    ensures Seen(ViewOf(r.tenants[id]), c, id, ViewOf(Apply(r, c).tenants[id]))
  {
  }

  /** `views` is the history of one record under `calls`. */
  ghost predicate History(views: seq<View>, calls: seq<Call>, id: nat) {
    |views| == |calls| + 1 && forall k :: 0 <= k < |calls| ==> Seen(views[k], calls[k], id, views[k + 1])
  }

  lemma HistorySnoc(views: seq<View>, calls: seq<Call>, id: nat, c: Call, v: View)
    requires History(views, calls, id) && Seen(views[|calls|], c, id, v)
    ensures History(views + [v], calls + [c], id)
  {
  }

  lemma InitAndLast<T>(s: seq<T>)
    requires s != []
    ensures s[..|s| - 1] + [s[|s| - 1]] == s
  {
  }

  /**
   * Main result: over every run of API calls each record goes through a history of its own, in
   * which only calls on this tenant count, each under the condition that its status gives.
   */
  lemma {:induction false} RecordsHaveOwnHistories(r: Registry, calls: seq<Call>, id: nat) returns (views: seq<View>)
    requires Bounded(r) && id < |r.tenants|
    ensures History(views, calls, id)
    ensures views[0] == ViewOf(r.tenants[id])
    ensures views[|calls|] == ViewOf(Refinement.Run(r, calls).tenants[id])
  {
    if calls == [] {
      views := [ViewOf(r.tenants[id])];
    } else {
      var init, c := calls[..|calls| - 1], calls[|calls| - 1];
      var before := RecordsHaveOwnHistories(r, init, id);
      var mid := Refinement.Run(r, init);
      CallIsSeen(mid, c, id);
      var v := ViewOf(Apply(mid, c).tenants[id]);
      HistorySnoc(before, init, id, c, v);
      InitAndLast(calls);
      views := before + [v];
    }
  }

  /** The reading calls answer from the record: usage while the tenant is ACTIVE, everything else always. */
  lemma ReadsAnswerFromRecord(r: Registry, id: nat)
    requires id < |r.tenants|
    ensures AnswerTo(r, AskUsage(id)) ==
            if r.tenants[id].status == Active then UsageIs(0, Some(r.tenants[id].usage)) else UsageIs(-1, None)
    ensures AnswerTo(r, AskInfo(id)) == InfoIs(Some(r.tenants[id]))
  {
  }

  /** A usage record that was set is read back, until the tenant is deleted, deactivated or set again. */
  lemma {:induction false} SetUsageReadsBack(r: Registry, id: nat, usage: TenantUsage, calls: seq<Call>)
    requires Bounded(r) && IsActive(r, id)
    requires forall k :: 0 <= k < |calls| ==>
               calls[k] != DeleteTenant(id)
               && !(calls[k].SetTenantStatus? && calls[k].id == id)
               && !(calls[k].SetUsage? && calls[k].id == id)
    ensures AnswerTo(Refinement.Run(Apply(r, SetUsage(id, usage)), calls), AskUsage(id)) == UsageIs(0, Some(usage))
  {
    if calls != [] {
      var init := calls[..|calls| - 1];
      SetUsageReadsBack(r, id, usage, init);
      CallIsSeen(Refinement.Run(Apply(r, SetUsage(id, usage)), init), calls[|calls| - 1], id);
    }
  }
}
