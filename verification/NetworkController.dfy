/** The Network controller (internal/controller/network/network.go) over a faulty cloud. */
module NetworkController {
  import opened Wrappers
  import opened Labels
  import opened Cidr
  import opened Actions
  import opened Reconcile
  import opened NetworkProtocol

  class NetworkCloud {
    var networks: map<int, CloudNetwork>
    var next: int
    const api: ActionApi

    constructor (api: ActionApi)
      ensures networks == map[] && next == 1 && this.api == api
    {
      this.api, networks, next := api, map[], 1;
    }

    method GetByID(id: int) returns (failed: bool, network: Option<CloudNetwork>)
      modifies api`faults
      ensures api.Counts(failed)
      ensures !failed ==> network == if id in networks then Some(networks[id]) else None
    {
      failed := api.Call();
      network := if id in networks then Some(networks[id]) else None;
    }

    method Create(network: CloudNetwork) returns (failed: bool, id: int)
      modifies this`networks, this`next, api`faults
      ensures api.Counts(failed)
      ensures old(next) <= id
      ensures (networks == old(networks)[id := network] && next == id + 1)
              || (failed && networks == old(networks) && next == old(next))
    {
      failed := api.Call();
      id := *;
      var done: bool := *;
      if id < next {
        id := next;
      }
      if !failed || done {
        networks, next := networks[id := network], id + 1;
      }
    }

    method Update(id: int, labels: LabelMap, expose: bool) returns (failed: bool)
      requires id in networks
      modifies this`networks, api`faults
      ensures api.Counts(failed)
      ensures networks == old(networks)[id := old(networks[id]).(labels := labels, expose := expose)]
              || (failed && networks == old(networks))
    {
      failed := api.Call();
      var done: bool := *;
      if !failed || done {
        networks := networks[id := networks[id].(labels := labels, expose := expose)];
      }
    }

    method ChangeIPRange(id: int, ipRange: IPNet) returns (failed: bool, actions: seq<Action>)
      requires id in networks
      modifies this`networks, api`successful, api`faults
      ensures api.Counts(failed)
      ensures networks == old(networks)[id := old(networks[id]).(ipRange := ipRange)] || networks == old(networks)
      ensures !failed && (forall a | a in actions :: a.id in api.successful) ==>
                networks == old(networks)[id := old(networks[id]).(ipRange := ipRange)]
    {
      var complete;
      failed, actions, complete := api.Start();
      if complete {
        networks := networks[id := networks[id].(ipRange := ipRange)];
      }
    }

    method Delete(id: int) returns (failed: bool)
      modifies this`networks, api`faults
      ensures api.faults >= old(api.faults)
      ensures !failed <==> api.faults == old(api.faults) && id in old(networks)
      ensures networks == old(networks) - {id} || (failed && networks == old(networks))
    {
      failed := api.Call();
      var done: bool := *;
      if id !in networks {
        failed := true;
      } else if !failed || done {
        networks := networks - {id};
      }
    }
  }

  class External {
    const cloud: NetworkCloud
    const kube: Store<NetworkParameters>
    const texts: Texts
    /** History: what failed calls may have left undone. */
    ghost var dirty: Doubt

    constructor (cloud: NetworkCloud, kube: Store<NetworkParameters>, texts: Texts)
      ensures this.cloud == cloud && this.kube == kube && this.texts == texts && dirty == Doubt(false, false)
    {
      this.cloud, this.kube, this.texts, dirty := cloud, kube, texts, Doubt(false, false);
    }

    ghost function Here(): NetworkWorld
      reads this, cloud, kube
    {
      World(kube.spec, kube.status, cloud.networks, cloud.next, dirty)
    }

    /** How often cloud and cluster have let the controller down. */
    ghost function Faults(): nat
      reads cloud.api, kube
    {
      cloud.api.faults + kube.faults
    }

    method Observe(cr: Managed<NetworkParameters>) returns (seen: Observation)
      modifies cloud.api`faults
      ensures cloud.api.Counts(seen.ObserveFailed?)
      ensures seen.Observed? ==>
                && seen.found == (cr.id in cloud.networks)
                && seen.upToDate == (seen.found && IsUpToDate(cr.spec, cr.params))
    {
      var failed, network := cloud.GetByID(cr.id);
      if failed {
        return ObserveFailed;
      }
      if network == None {
        return Observed(false, false);
      }
      seen := Observed(true, IsUpToDate(cr.spec, cr.params));
    }

    method ReadSubnets(input: seq<NetworkSubnet>) returns (out: Option<seq<SdkSubnet>>)
      ensures out == Traverse(SubnetReader(texts), input)
    {
      var subnets: seq<SdkSubnet> := [];
      for i := 0 to |input|
        invariant Traverse(SubnetReader(texts), input[..i]) == Some(subnets)
      {
        TraverseStep(SubnetReader(texts), input, i);
        var ipRange := texts.cidr(input[i].ipRange);
        if ipRange == None {
          TraverseIsAllOrNothing(SubnetReader(texts), input);
          return None;
        }
        var s := input[i];
        subnets := subnets + [SdkSubnet(s.kind, Network(ipRange.value), s.networkZone, s.vSwitchID)];
      }
      assert input[..|input|] == input;
      out := Some(subnets);
    }

    method ReadRoutes(input: seq<NetworkRoute>) returns (out: Option<seq<SdkRoute>>)
      ensures out == Traverse(RouteReader(texts), input)
    {
      var routes: seq<SdkRoute> := [];
      for i := 0 to |input|
        invariant Traverse(RouteReader(texts), input[..i]) == Some(routes)
      {
        TraverseStep(RouteReader(texts), input, i);
        var destination := texts.cidr(input[i].destination);
        if destination == None {
          TraverseIsAllOrNothing(RouteReader(texts), input);
          return None;
        }
        routes := routes + [SdkRoute(Network(destination.value), texts.ip(input[i].gateway))];
      }
      assert input[..|input|] == input;
      out := Some(routes);
    }

    method Create(cr: Managed<NetworkParameters>, now: int) returns (out: Outcome)
      modifies this`dirty, cloud`networks, cloud`next, cloud.api`faults, kube`status, kube`faults, cr`id, cr`params
      ensures Faults() >= old(Faults())
      ensures out == Ok <==> Faults() == old(Faults()) && AllParse(texts, cr.spec)
      ensures CreateRel(texts, old(cr.Seen()), old(Here()), Here(), out)
    {
      TopologyIsAllOrNothing(texts, cr.spec);
      var notation := texts.cidr(cr.spec.ipRange);
      if notation == None {
        return Failed;
      }
      var subnets := ReadSubnets(Elements(cr.spec.subnets));
      if subnets == None {
        return Failed;
      }
      var routes := ReadRoutes(Elements(cr.spec.routes));
      if routes == None {
        return Failed;
      }
      ghost var view, w := cr.Seen(), Here();
      var labels := ApplyDefaultLabels(now, [Entries(cr.spec.labels)]);
      var network := CloudNetwork(
        labels, cr.spec.exposeRoutesToVSwitch, Network(notation.value), subnets.value, routes.value);
      var failed, id := cloud.Create(network);
      if failed {
        assert Here() == w || Created(texts, view, w, Here(), id, network, false);
        return Failed;
      }
      cr.id := id;
      cr.params := Some(cr.spec);
      failed := kube.UpdateStatus(Status(cr.id, Some(Stored(cr.params.value))));
      if failed {
        assert Created(texts, view, w, Here(), id, network, kube.status != w.status);
        return Failed;
      }
      dirty := Doubt(false, false);
      assert Created(texts, view, w, Here(), id, network, true);
      out := Ok;
    }

    /** Without faults an Update fails only on a range that does not parse, and then labels and flag are
        written already. */
    method Update(cr: Managed<NetworkParameters>, now: int) returns (out: Outcome)
      modifies this`dirty, cloud`networks, cloud.api, kube`status, kube`faults, cr`params
      ensures Faults() >= old(Faults())
      ensures out == Ok <==>
                && Faults() == old(Faults())
                && cr.id in old(cloud.networks) && Updatable(texts, old(cr.Seen()))
      ensures Faults() == old(Faults()) && out == Failed ==>
                && cr.id in old(cloud.networks) && cr.id in cloud.networks
                && LabelsAgree(cloud.networks[cr.id].labels, cr.spec.labels)
                && cloud.networks[cr.id] == Flagged(old(cloud.networks)[cr.id], cr.spec, cloud.networks[cr.id].labels)
      ensures UpdateRel(texts, old(cr.Seen()), old(Here()), Here(), out)
    {
      var failed, network := cloud.GetByID(cr.id);
      if failed {
        return Failed;
      }
      if cr.params == None {
        return Panicked;
      }
      var current, target := cr.params.value, cr.spec;
      if network == None {
        // The SDK dereferences the nil network.
        return Panicked;
      }
      ghost var labels, asked;
      out, labels, asked := Change(cr, now, current, target);
    }

    /** The second half of Update: changes the network and records that. */
    method Change(cr: Managed<NetworkParameters>, now: int, current: NetworkParameters, target: NetworkParameters)
      returns (out: Outcome, ghost labels: LabelMap, ghost asked: bool)
      requires cr.id in cloud.networks && cr.params == Some(current) && cr.spec == target
      modifies this`dirty, cloud`networks, cloud.api, kube`status, kube`faults, cr`params
      ensures Faults() >= old(Faults())
      ensures out == Ok <==> Faults() == old(Faults()) && Updatable(texts, old(cr.Seen()))
      ensures cr.id in cloud.networks
      ensures Moved(texts, old(cr.Seen()), old(Here()), Here(), labels, cloud.networks[cr.id], asked,
                    out == Ok || kube.status != old(kube.status))
      ensures dirty == if out == Ok then Doubt(false, old(dirty).rest && !asked)
                       else Doubt(true, old(dirty).rest || asked)
      ensures Faults() == old(Faults()) && out != Ok ==>
                cloud.networks[cr.id] == Flagged(old(cloud.networks)[cr.id], target, labels)
    {
      var wanted := ApplyDefaultLabels(now, [Entries(target.labels)]);
      labels := wanted;
      out, asked := Write(cr.id, wanted, current, target);
      dirty := Doubt(true, dirty.rest || asked);
      if out != Ok {
        return;
      }
      var failed := Save(cr, current);
      if failed {
        return Failed, labels, asked;
      }
      dirty := Doubt(false, old(dirty).rest && !asked);
    }

    /** Records the spec, except for the routes and subnets that are there. */
    method Save(cr: Managed<NetworkParameters>, current: NetworkParameters) returns (failed: bool)
      modifies cr`params, kube`status, kube`faults
      ensures if failed then kube.faults > old(kube.faults) else kube.faults == old(kube.faults)
      ensures kube.status == Status(cr.id, Some(Recorded(current, cr.spec)))
              || (failed && kube.status == old(kube.status))
    {
      cr.params := Some(cr.spec);
      cr.params := Some(cr.params.value.(routes := current.routes));
      cr.params := Some(cr.params.value.(subnets := current.subnets));
      failed := kube.UpdateStatus(Status(cr.id, Some(Stored(cr.params.value))));
    }

    /** The cloud calls of Update, in their order; the new range is parsed only after the first one.
        `asked` says whether the second one was made. */
    method Write(id: int, labels: LabelMap, current: NetworkParameters, target: NetworkParameters)
      returns (out: Outcome, ghost asked: bool)
      requires id in cloud.networks
      modifies cloud`networks, cloud.api
      ensures cloud.api.faults >= old(cloud.api.faults)
      ensures id in cloud.networks && cloud.networks == old(cloud.networks)[id := cloud.networks[id]]
      ensures var n, left := old(cloud.networks[id]), cloud.networks[id];
              var flagged, range := Flagged(n, target, labels), ReadRange(texts, target.ipRange);
              var quiet := cloud.api.faults == old(cloud.api.faults);
              && (asked ==> target.ipRange != current.ipRange && range.Some?)
              && (left == n || left == flagged || (asked && left == flagged.(ipRange := range.value)))
              && (out == Ok ==> asked == (target.ipRange != current.ipRange))
              && (out == Ok ==> left == if asked then flagged.(ipRange := range.value) else flagged)
              && (out == Ok <==> quiet && (target.ipRange == current.ipRange || range.Some?))
              && (quiet && out != Ok ==> left == flagged)
    {
      asked := false;
      var failed := cloud.Update(id, labels, target.exposeRoutesToVSwitch);
      if failed {
        return Failed, asked;
      }
      if target.ipRange != current.ipRange {
        var notation := texts.cidr(target.ipRange);
        if notation == None {
          return Failed, asked;
        }
        asked := true;
        var actions;
        failed, actions := cloud.ChangeIPRange(id, Network(notation.value));
        if failed {
          return Failed, asked;
        }
        out := WaitForAll(cloud.api, actions);
        return;
      }
      out := Ok;
    }

    method Delete(cr: Managed<NetworkParameters>) returns (out: Outcome)
      modifies cloud`networks, cloud.api`faults
      ensures Faults() >= old(Faults())
      ensures out == Ok <==> Faults() == old(Faults()) && cr.id in old(cloud.networks)
      ensures DeleteRel(old(cr.Seen()), old(Here()), Here(), out)
    {
      var failed := cloud.Delete(cr.id);
      out := if failed then Failed else Ok;
    }

    /** One pass of the managed reconciler over a freshly read resource. */
    method Reconcile(now: int, deleting: bool) returns (out: Outcome)
      modifies this`dirty, cloud, cloud.api, kube`status, kube`faults
      ensures Faults() >= old(Faults())
      ensures out == Ok <==> Faults() == old(Faults()) && (deleting || Passable(texts, old(Here())))
      ensures !deleting && UpToDate(old(Here())) ==> Here() == old(Here())
      ensures Here() == old(Here()) || Next(texts, old(Here()), Here())
      ensures out == Ok && !deleting && old(Inv(texts, Here())) ==>
                && Satisfied(texts, Here())
                && (UpToDate(old(Here())) || (!dirty.labels && (dirty.rest ==> StaysDoubtful(old(Here())))))
      ensures out == Ok && deleting ==> kube.status.id !in cloud.networks
    {
      var cr := kube.Load();
      assert cr.Seen() == Here().Loaded();
      var seen := Observe(cr);
      if seen.ObserveFailed? {
        return Failed;
      }
      ghost var w := Here();
      out := Ok;
      if deleting {
        if seen.found {
          out := Delete(cr);
          assert DeleteRel(w.Loaded(), w, Here(), out);
        }
      } else if !seen.found {
        out := Create(cr, now);
        assert CreateRel(texts, w.Loaded(), w, Here(), out);
      } else if !seen.upToDate {
        out := Update(cr, now);
        assert UpdateRel(texts, w.Loaded(), w, Here(), out);
      }
      if out == Ok && !deleting && Inv(texts, w) {
        PassSatisfies(texts, w, Here());
      }
    }

    /** Any number of passes with any edits of the spec in between: the class only goes through runs,
        so what every run keeps holds of it. */
    method Live(steps: nat) returns (ghost run: seq<NetworkWorld>)
      requires Initial(Here())
      modifies this`dirty, cloud, cloud.api, kube
      ensures IsRun(texts, run) && run[|run| - 1] == Here()
      ensures Inv(texts, Here())
    {
      run := [Here()];
      for i := 0 to steps
        invariant IsRun(texts, run) && run[|run| - 1] == Here()
      {
        var edit: bool, deleting: bool, now: int := *, *, *;
        ghost var w := Here();
        if edit {
          kube.spec := *;
        } else {
          var _ := Reconcile(now, deleting);
        }
        if Here() != w {
          run := run + [Here()];
        }
      }
      RunSafety(texts, run, |run| - 1);
    }
  }
}
