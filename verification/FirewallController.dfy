/** The Firewall controller (internal/controller/firewall/firewall.go) over a faulty cloud. */
module FirewallController {
  import opened Wrappers
  import opened Labels
  import opened Cidr
  import opened FirewallTypes
  import opened Actions
  import opened Reconcile
  import opened FirewallProtocol

  /** Nothing but what one firewall applies to has changed. */
  ghost predicate OnlyApplied(before: map<int, Firewall>, id: int, after: map<int, Firewall>) {
    id in before && id in after && after == before[id := before[id].(applied := after[id].applied)]
  }

  /** The firewalls in the cloud.  Every call may fail, with or without effect; nobody else calls. */
  class FirewallCloud {
    var firewalls: map<int, Firewall>
    var next: int
    const api: ActionApi
    /** What every request to delete a firewall has found. */
    ghost var deletes: seq<Firewall>

    constructor (api: ActionApi)
      ensures firewalls == map[] && next == 1 && deletes == [] && this.api == api
    {
      this.api := api;
      firewalls, next, deletes := map[], 1, [];
    }

    method GetByID(id: int) returns (failed: bool, firewall: Option<Firewall>)
      modifies api`faults
      ensures api.Counts(failed)
      ensures !failed ==> firewall == if id in firewalls then Some(firewalls[id]) else None
    {
      failed := api.Call();
      firewall := if id in firewalls then Some(firewalls[id]) else None;
    }

    method Create(firewall: Firewall) returns (failed: bool, id: int)
      modifies this`firewalls, this`next, api`faults
      ensures api.Counts(failed)
      ensures old(next) <= id
      ensures (firewalls == old(firewalls)[id := firewall] && next == id + 1)
              || (failed && firewalls == old(firewalls) && next == old(next))
    {
      failed := api.Call();
      id := *;
      var done: bool := *;
      if id < next {
        id := next;
      }
      if !failed || done {
        firewalls, next := firewalls[id := firewall], id + 1;
      }
    }

    method Update(id: int, labels: LabelMap) returns (failed: bool)
      requires id in firewalls
      modifies this`firewalls, api`faults
      ensures api.Counts(failed)
      ensures firewalls == old(firewalls)[id := old(firewalls[id]).(labels := labels)]
              || (failed && firewalls == old(firewalls))
    {
      failed := api.Call();
      var done: bool := *;
      if !failed || done {
        firewalls := firewalls[id := firewalls[id].(labels := labels)];
      }
    }

    method RemoveResources(id: int, resources: set<Resource>) returns (failed: bool, actions: seq<Action>)
      requires id in firewalls
      modifies this`firewalls, api`successful, api`faults
      ensures api.Counts(failed)
      ensures var f := old(firewalls[id]);
              && OnlyApplied(old(firewalls), id, firewalls)
              && f.applied - resources <= firewalls[id].applied <= f.applied
      ensures !failed && (forall a | a in actions :: a.id in api.successful) ==>
                firewalls[id].applied == old(firewalls[id]).applied - resources
    {
      var complete;
      failed, actions, complete := api.Start();
      var some: set<Resource> := *;
      var f := firewalls[id];
      firewalls := firewalls[id := f.(applied := f.applied - (if complete then resources else resources * some))];
    }

    method ApplyResources(id: int, resources: seq<Resource>) returns (failed: bool, actions: seq<Action>)
      requires id in firewalls
      modifies this`firewalls, api`successful, api`faults
      ensures api.Counts(failed)
      ensures var f := old(firewalls[id]);
              && OnlyApplied(old(firewalls), id, firewalls)
              && f.applied <= firewalls[id].applied <= f.applied + set r | r in resources
      ensures !failed && (forall a | a in actions :: a.id in api.successful) ==>
                firewalls[id].applied == old(firewalls[id]).applied + (set r | r in resources)
    {
      var complete;
      failed, actions, complete := api.Start();
      var some: set<Resource> := *;
      var all := set r | r in resources;
      var f := firewalls[id];
      firewalls := firewalls[id := f.(applied := f.applied + (if complete then all else all * some))];
    }

    method SetRules(id: int, rules: seq<SdkRule>) returns (failed: bool, actions: seq<Action>)
      requires id in firewalls
      modifies this`firewalls, api`successful, api`faults
      ensures api.Counts(failed)
      ensures firewalls == old(firewalls)[id := old(firewalls[id]).(rules := rules)] || firewalls == old(firewalls)
      ensures !failed && (forall a | a in actions :: a.id in api.successful) ==>
                firewalls == old(firewalls)[id := old(firewalls[id]).(rules := rules)]
    {
      var complete;
      failed, actions, complete := api.Start();
      if complete {
        firewalls := firewalls[id := firewalls[id].(rules := rules)];
      }
    }

    method Delete(id: int) returns (failed: bool)
      requires id in firewalls
      modifies this`firewalls, this`deletes, api`faults
      ensures api.Counts(failed)
      ensures deletes == old(deletes) + [old(firewalls[id])]
      ensures firewalls == old(firewalls) - {id} || (failed && firewalls == old(firewalls))
    {
      failed := api.Call();
      var done: bool := *;
      deletes := deletes + [firewalls[id]];
      if !failed || done {
        firewalls := firewalls - {id};
      }
    }
  }

  class External {
    const cloud: FirewallCloud
    const kube: Store<FirewallParameters>
    const parse: Reader
    /** History: a call has failed after it began to write to the firewall that the status names. */
    ghost var dirty: bool

    constructor (cloud: FirewallCloud, kube: Store<FirewallParameters>, parse: Reader)
      ensures this.cloud == cloud && this.kube == kube && this.parse == parse && !dirty
    {
      this.cloud, this.kube, this.parse, dirty := cloud, kube, parse, false;
    }

    ghost function Here(): FirewallWorld
      reads this, cloud, kube
    {
      World(kube.spec, kube.status, cloud.firewalls, cloud.next, dirty)
    }

    /** How often cloud and cluster have let the controller down. */
    ghost function Faults(): nat
      reads cloud.api, kube
    {
      cloud.api.faults + kube.faults
    }

    method Observe(cr: Managed<FirewallParameters>) returns (seen: Observation)
      modifies cloud.api`faults
      ensures cloud.api.Counts(seen.ObserveFailed?)
      ensures seen.Observed? ==>
                && seen.found == (cr.id in cloud.firewalls)
                && seen.upToDate == (seen.found && IsUpToDate(cr.spec, cr.params))
    {
      var failed, firewall := cloud.GetByID(cr.id);
      if failed {
        return ObserveFailed;
      }
      if firewall == None {
        return Observed(false, false);
      }
      seen := Observed(true, IsUpToDate(cr.spec, cr.params));
    }

    method Resources(applyTo: seq<FirewallApplyTo>) returns (resources: seq<Resource>)
      ensures AreResourcesOf(resources, applyTo)
    {
      resources := [];
      for i := 0 to |applyTo|
        invariant AreResourcesOf(resources, applyTo[..i])
      {
        var r := ToFirewallResource(applyTo[i]);
        resources := resources + [r];
      }
      assert applyTo[..|applyTo|] == applyTo;
    }

    method Create(cr: Managed<FirewallParameters>, now: int) returns (out: Outcome)
      modifies this`dirty, cloud`firewalls, cloud`next, cloud.api`faults, kube`status, kube`faults, cr`id, cr`params
      ensures Faults() >= old(Faults())
      ensures out == Ok <==> Faults() == old(Faults()) && CompileRules(parse, Elements(old(cr.spec).rules)).Some?
      ensures CreateRel(parse, old(cr.Seen()), old(Here()), Here(), out)
    {
      var rules := GetFirewallRules(parse, Elements(cr.spec.rules));
      if rules == None {
        return Failed;
      }
      var applyTo := Resources(Elements(cr.spec.applyTo));
      var labels := ApplyDefaultLabels(now, [Entries(cr.spec.labels)]);
      var plan := Firewall(labels, (set r | r in applyTo), rules.value);
      assert Agrees(parse, cr.spec, plan);
      ghost var view, w := cr.Seen(), Here();
      var failed, id := cloud.Create(plan);
      if failed {
        assert Here() == w || Created(parse, view, w, Here(), id, plan, false);
        return Failed;
      }
      cr.id := id;
      cr.params := Some(cr.spec);
      failed := kube.UpdateStatus(Status(cr.id, Some(Stored(cr.params.value))));
      if failed {
        assert Created(parse, view, w, Here(), id, plan, kube.status != w.status);
        return Failed;
      }
      dirty := false;
      assert Created(parse, view, w, Here(), id, plan, true);
      out := Ok;
    }

    method Update(cr: Managed<FirewallParameters>, now: int) returns (out: Outcome)
      modifies this`dirty, cloud`firewalls, cloud.api, kube`status, kube`faults, cr`params
      ensures Faults() >= old(Faults())
      ensures out == Ok <==>
                && Faults() == old(Faults())
                && old(cr.id) in old(cloud.firewalls) && CompileRules(parse, Elements(cr.spec.rules)).Some?
      ensures UpdateRel(parse, old(cr.Seen()), old(Here()), Here(), out)
    {
      var target := cr.spec;
      var rules := GetFirewallRules(parse, Elements(target.rules));
      if rules == None {
        return Failed;
      }
      var failed, firewall := cloud.GetByID(cr.id);
      if failed || firewall == None {
        return Failed;
      }
      ghost var view, w := cr.Seen(), Here();
      var labels := ApplyDefaultLabels(now, [Entries(target.labels)]);
      dirty := true;
      ghost var rs;
      out, rs := Write(cr.id, target, firewall.value, labels, rules.value);
      ghost var plan := Firewall(labels, (set r | r in rs), rules.value);
      assert Agrees(parse, target, plan);
      if out != Ok {
        assert Moved(parse, view, w, Here(), plan, cloud.firewalls[cr.id], false);
        return;
      }
      cr.params := Some(target);
      failed := kube.UpdateStatus(Status(cr.id, Some(Stored(cr.params.value))));
      if failed {
        assert Moved(parse, view, w, Here(), plan, plan, kube.status != w.status);
        return Failed;
      }
      dirty := false;
      assert Moved(parse, view, w, Here(), plan, plan, true);
    }

    /** The cloud calls of Update, in their order. */
    method Write(id: int, target: FirewallParameters, firewall: Firewall, labels: LabelMap, rules: seq<SdkRule>)
      returns (out: Outcome, ghost rs: seq<Resource>)
      requires id in cloud.firewalls && firewall == cloud.firewalls[id]
      modifies cloud`firewalls, cloud.api
      ensures cloud.api.Counts(out != Ok)
      ensures AreResourcesOf(rs, Elements(target.applyTo))
      ensures id in cloud.firewalls && cloud.firewalls == old(cloud.firewalls)[id := cloud.firewalls[id]]
      ensures var plan := Firewall(labels, (set r | r in rs), rules);
              Halfway(firewall, cloud.firewalls[id], plan) && (out == Ok ==> cloud.firewalls[id] == plan)
    {
      rs := ResourcesExist(Elements(target.applyTo));
      var failed := cloud.Update(id, labels);
      if failed {
        return Failed, rs;
      }
      out := RemoveResources(id, firewall.applied);
      if out != Ok {
        return;
      }
      out, rs := ApplyResources(id, Elements(target.applyTo));
      if out != Ok {
        return;
      }
      out := SetRules(id, rules);
    }

    /** The deletion is requested only once the firewall applies to nothing. */
    method Delete(cr: Managed<FirewallParameters>) returns (out: Outcome)
      modifies this`dirty, cloud`firewalls, cloud`deletes, cloud.api
      ensures cloud.deletes == old(cloud.deletes) ||
              (cr.id in old(cloud.firewalls)
               && cloud.deletes == old(cloud.deletes) + [old(cloud.firewalls)[cr.id].(applied := {})])
      ensures out == Ok ==> cloud.deletes != old(cloud.deletes)
      ensures Faults() >= old(Faults())
      ensures out == Ok <==> Faults() == old(Faults()) && old(cr.id in cloud.firewalls)
      ensures DeleteRel(old(cr.Seen()), old(Here()), Here(), out)
    {
      var failed, firewall := cloud.GetByID(cr.id);
      if failed || firewall == None {
        return Failed;
      }
      ghost var wasDirty := dirty;
      dirty := true;
      out := RemoveResources(cr.id, firewall.value.applied);
      if out != Ok {
        return;
      }
      assert cloud.firewalls[cr.id] == firewall.value.(applied := {});
      failed := cloud.Delete(cr.id);
      if failed {
        return Failed;
      }
      dirty := wasDirty;
      out := Ok;
    }

    method RemoveResources(id: int, resources: set<Resource>) returns (out: Outcome)
      requires id in cloud.firewalls
      modifies cloud`firewalls, cloud.api
      ensures cloud.api.Counts(out != Ok)
      ensures OnlyApplied(old(cloud.firewalls), id, cloud.firewalls)
      ensures var before, after := old(cloud.firewalls[id]).applied, cloud.firewalls[id].applied;
              before - resources <= after <= before && (out == Ok ==> after == before - resources)
    {
      var failed, actions := cloud.RemoveResources(id, resources);
      if failed {
        return Failed;
      }
      out := WaitForAll(cloud.api, actions);
    }

    method ApplyResources(id: int, applyTo: seq<FirewallApplyTo>) returns (out: Outcome, ghost rs: seq<Resource>)
      requires id in cloud.firewalls
      modifies cloud`firewalls, cloud.api
      ensures AreResourcesOf(rs, applyTo)
      ensures cloud.api.Counts(out != Ok)
      ensures OnlyApplied(old(cloud.firewalls), id, cloud.firewalls)
      ensures var before, after := old(cloud.firewalls[id]).applied, cloud.firewalls[id].applied;
              before <= after <= before + (set r | r in rs) && (out == Ok ==> after == before + (set r | r in rs))
    {
      var resources := Resources(applyTo);
      rs := resources;
      var failed, actions := cloud.ApplyResources(id, resources);
      if failed {
        return Failed, rs;
      }
      out := WaitForAll(cloud.api, actions);
    }

    method SetRules(id: int, rules: seq<SdkRule>) returns (out: Outcome)
      requires id in cloud.firewalls
      modifies cloud`firewalls, cloud.api
      ensures cloud.api.Counts(out != Ok)
      ensures cloud.firewalls == old(cloud.firewalls)[id := old(cloud.firewalls[id]).(rules := rules)]
              || (out != Ok && cloud.firewalls == old(cloud.firewalls))
    {
      var failed, actions := cloud.SetRules(id, rules);
      if failed {
        return Failed;
      }
      out := WaitForAll(cloud.api, actions);
    }

    /** One pass of the managed reconciler over a freshly read resource: create it if it does not
        exist, update it if it is not up to date; delete it once the user asks for that. */
    method Reconcile(now: int, deleting: bool) returns (out: Outcome)
      modifies this`dirty, cloud, cloud.api, kube`status, kube`faults
      ensures Faults() >= old(Faults())
      ensures out == Ok <==> Faults() == old(Faults()) && (deleting || Passable(parse, old(Here())))
      ensures !deleting && UpToDate(old(Here())) ==> Here() == old(Here())
      ensures Here() == old(Here()) || Next(parse, old(Here()), Here())
      ensures out == Ok && !deleting && old(Inv(parse, Here())) ==>
                Satisfied(parse, Here()) && (UpToDate(old(Here())) || !dirty)
      ensures out == Ok && deleting ==> kube.status.id !in cloud.firewalls
    {
      var cr := kube.Load();
      assert cr.Seen() == Here().Loaded();
      var seen := Observe(cr);
      if seen.ObserveFailed? {
        return Failed;
      }
      ghost var w := Here();
      out := Ok;
      if deleting {
        if seen.found {
          out := Delete(cr);
          assert DeleteRel(w.Loaded(), w, Here(), out);
        }
      } else if !seen.found {
        out := Create(cr, now);
        assert CreateRel(parse, w.Loaded(), w, Here(), out);
      } else if !seen.upToDate {
        out := Update(cr, now);
        assert UpdateRel(parse, w.Loaded(), w, Here(), out);
      }
      if out == Ok && !deleting && Inv(parse, w) {
        PassSatisfies(parse, w, Here());
      }
    }

    /** Any number of passes with any edits of the spec in between: the class only goes through runs,
        so what every run keeps holds of it. */
    method Live(steps: nat) returns (ghost run: seq<FirewallWorld>)
      requires Initial(Here())
      modifies this`dirty, cloud, cloud.api, kube
      ensures IsRun(parse, run) && run[|run| - 1] == Here()
      ensures Inv(parse, Here())
    {
      run := [Here()];
      for i := 0 to steps
        invariant IsRun(parse, run) && run[|run| - 1] == Here()
      {
        var edit: bool, deleting: bool, now: int := *, *, *;
        ghost var w := Here();
        if edit {
          kube.spec := *;
        } else {
          var _ := Reconcile(now, deleting);
        }
        if Here() != w {
          run := run + [Here()];
        }
      }
      RunSafety(parse, run, |run| - 1);
    }
  }
}
