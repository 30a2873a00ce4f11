/** The Server controller (internal/controller/server/server.go) over a faulty cloud. */
module ServerController {
  import opened Wrappers
  import opened Labels
  import opened Actions
  import opened SshKeys
  import opened Reconcile
  import opened ServerProtocol

  class ServerCloud {
    var servers: map<int, Server>
    var next: int
    const catalogue: Catalogue
    const api: ActionApi

    constructor (catalogue: Catalogue, api: ActionApi)
      ensures servers == map[] && next == 1 && this.catalogue == catalogue && this.api == api
    {
      this.catalogue, this.api, servers, next := catalogue, api, map[], 1;
    }

    /** Any lookup: the call fails, or tells whether `key` is in `known`. */
    method Has<K>(known: set<K>, key: K) returns (failed: bool, found: bool)
      modifies api`faults
      ensures api.Counts(failed)
      ensures !failed ==> found == (key in known)
    {
      failed := api.Call();
      found := key in known;
    }

    method GetByID(id: int) returns (failed: bool, server: Option<Server>)
      modifies api`faults
      ensures api.Counts(failed)
      ensures !failed ==> server == if id in servers then Some(servers[id]) else None
    {
      failed := api.Call();
      server := if id in servers then Some(servers[id]) else None;
    }

    method Create(opts: CreateOpts) returns (failed: bool, id: int)
      modifies this`servers, this`next, api`faults
      ensures api.Counts(failed)
      ensures old(next) <= id
      ensures (servers == old(servers)[id := Server(opts, opts.labels, opts.startAfterCreate)] && next == id + 1)
              || (failed && servers == old(servers) && next == old(next))
    {
      failed := api.Call();
      id := *;
      var done: bool := *;
      if id < next {
        id := next;
      }
      if !failed || done {
        servers, next := servers[id := Server(opts, opts.labels, opts.startAfterCreate)], id + 1;
      }
    }

    method Update(id: int, labels: LabelMap) returns (failed: bool)
      requires id in servers
      modifies this`servers, api`faults
      ensures api.Counts(failed)
      ensures servers == old(servers)[id := old(servers[id]).(labels := labels)] || (failed && servers == old(servers))
    {
      failed := api.Call();
      var done: bool := *;
      if !failed || done {
        servers := servers[id := servers[id].(labels := labels)];
      }
    }

    /** Poweron and Poweroff. */
    method SetPower(id: int, power: bool) returns (failed: bool, actions: seq<Action>)
      requires id in servers
      modifies this`servers, api`successful, api`faults
      ensures api.Counts(failed)
      ensures servers == old(servers)[id := old(servers[id]).(power := power)] || servers == old(servers)
      ensures !failed && (forall a | a in actions :: a.id in api.successful) ==>
                servers == old(servers)[id := old(servers[id]).(power := power)]
    {
      var complete;
      failed, actions, complete := api.Start();
      if complete {
        servers := servers[id := servers[id].(power := power)];
      }
    }

    method DeleteWithResult(id: int) returns (failed: bool)
      modifies this`servers, api`faults
      ensures api.faults >= old(api.faults)
      ensures !failed <==> api.faults == old(api.faults) && id in old(servers)
      ensures servers == old(servers) - {id} || (failed && servers == old(servers))
    {
      failed := api.Call();
      var done: bool := *;
      if id !in servers {
        failed := true;
      } else if !failed || done {
        servers := servers - {id};
      }
    }
  }

  class External {
    const cloud: ServerCloud
    const ssh: SshKeyCloud
    const kube: Store<ServerParameters>
    /** History: what failed calls may have left undone. */
    ghost var dirty: Doubt

    constructor (cloud: ServerCloud, ssh: SshKeyCloud, kube: Store<ServerParameters>)
      ensures this.cloud == cloud && this.ssh == ssh && this.kube == kube && dirty == Doubt(false, false)
    {
      this.cloud, this.ssh, this.kube, dirty := cloud, ssh, kube, Doubt(false, false);
    }

    ghost function Here(): ServerWorld
      reads this, cloud, kube
    {
      World(kube.spec, kube.status, cloud.servers, cloud.next, dirty)
    }

    /** How often cloud and cluster have let the controller down. */
    ghost function Faults(): nat
      reads cloud.api, ssh, kube
    {
      cloud.api.faults + ssh.faults + kube.faults
    }

    method Observe(cr: Managed<ServerParameters>) returns (seen: Observation)
      modifies cloud.api`faults
      ensures cloud.api.Counts(seen.ObserveFailed?)
      ensures seen.Observed? ==>
                && seen.found == (cr.id in cloud.servers)
                && seen.upToDate == (seen.found && IsUpToDate(cr.spec, cr.params))
    {
      var failed, server := cloud.GetByID(cr.id);
      if failed {
        return ObserveFailed;
      }
      if server == None {
        return Observed(false, false);
      }
      seen := Observed(true, IsUpToDate(cr.spec, cr.params));
    }

    /** GetDatacenterOrLocation: a datacenter goes before a location, and one of them is needed. */
    method GetDatacenterOrLocation(datacenter: Option<string>, location: Option<string>)
      returns (ok: bool, d: Option<string>, l: Option<string>)
      modifies cloud.api`faults
      ensures cloud.api.faults >= old(cloud.api.faults)
      ensures ok <==>
                && cloud.api.faults == old(cloud.api.faults)
                && if datacenter.Some? then datacenter.value in cloud.catalogue.datacenters
                   else location.Some? && location.value in cloud.catalogue.locations
      ensures ok ==>
                if datacenter.Some? then d == datacenter && l == None else d == None && l == location
    {
      d, l := None, None;
      if datacenter != None {
        var failed, found := cloud.Has(cloud.catalogue.datacenters, datacenter.value);
        return !failed && found, datacenter, None;
      }
      if location != None {
        var failed, found := cloud.Has(cloud.catalogue.locations, location.value);
        return !failed && found, None, location;
      }
      ok := false;
    }

    /** getFirewalls, getNetworks and getVolumes. */
    method LookUp(kind: Kind, ids: seq<int>) returns (objects: Option<seq<Found>>)
      modifies cloud.api`faults
      ensures cloud.api.faults >= old(cloud.api.faults)
      ensures objects.Some? <==>
                && cloud.api.faults == old(cloud.api.faults)
                && forall id | id in ids :: Found(kind, id) in cloud.catalogue.objects
      ensures objects.Some? ==> Resolves(objects.value, cloud.catalogue, kind, ids)
    {
      var list: seq<Found> := [];
      for i := 0 to |ids|
        invariant Resolves(list, cloud.catalogue, kind, ids[..i])
        invariant cloud.api.faults == old(cloud.api.faults)
      {
        var failed, found := cloud.Has(cloud.catalogue.objects, Found(kind, ids[i]));
        if failed || !found {
          return None;
        }
        list := list + [Found(kind, ids[i])];
      }
      objects := Some(list);
    }

    /** Everything Create looks up before the SSH keys; None when anything is missing or fails. */
    method Prepare(p: ServerParameters, now: int) returns (opts: Option<CreateOpts>)
      modifies cloud.api`faults
      ensures cloud.api.faults >= old(cloud.api.faults)
      ensures opts.Some? <==> cloud.api.faults == old(cloud.api.faults) && Resolvable(p, cloud.catalogue)
      ensures opts.Some? ==> Prepared(opts.value, p, cloud.catalogue)
    {
      var ok, datacenter, location := GetDatacenterOrLocation(p.datacenter, p.location);
      if !ok {
        return None;
      }
      var firewalls := LookUp(FirewallKind, Elements(p.firewallIDs));
      if firewalls == None {
        return None;
      }
      var failed, found := cloud.Has(cloud.catalogue.images, (p.image, p.architecture));
      if failed || !found {
        return None;
      }
      var networks := LookUp(NetworkKind, Elements(p.networkIDs));
      if networks == None {
        return None;
      }
      var placementGroup: Option<Found> := None;
      if p.placementGroupID != None {
        failed, found := cloud.Has(cloud.catalogue.objects, Found(GroupKind, p.placementGroupID.value));
        if failed || !found {
          return None;
        }
        placementGroup := Some(Found(GroupKind, p.placementGroupID.value));
      }
      failed, found := cloud.Has(cloud.catalogue.serverTypes, p.serverType);
      if failed || !found {
        return None;
      }
      var volumes := LookUp(VolumeKind, Elements(p.volumeIDs));
      if volumes == None {
        return None;
      }
      var labels := ApplyDefaultLabels(now, [Entries(p.labels)]);
      opts := Some(CreateOpts(p.autoMount, datacenter, location, firewalls.value, (p.image, p.architecture), labels,
                              networks.value, placementGroup, p.enableIPv4, p.enableIPv6, p.serverType, [],
                              p.startAfterCreate, p.userData, volumes.value));
    }

    /** No server is requested and no SSH key uploaded unless everything the spec names exists; nothing
        but the SSH keys changes before the request, and they only grow. */
    method Create(cr: Managed<ServerParameters>, now: int) returns (out: Outcome)
      modifies this`dirty, cloud`servers, cloud`next, cloud.api`faults, ssh`keys, ssh`faults
      modifies kube`status, kube`faults, cr`id, cr`params
      ensures Faults() >= old(Faults())
      ensures out == Ok <==> Faults() == old(Faults()) && Orderable(cr.spec, cloud.catalogue, ssh.codec)
      ensures CreateRel(cloud.catalogue, ssh.codec, old(cr.Seen()), old(Here()), Here(), out)
      ensures ssh.GainedOnly(Elements(old(cr.spec).sshKeys), now)
      ensures Here() != old(Here()) || ssh.keys != old(ssh.keys) ==> Resolvable(old(cr.spec), cloud.catalogue)
    {
      var opts := Prepare(cr.spec, now);
      if opts == None {
        return Failed;
      }
      PreparedIsResolvable(opts.value, cr.spec, cloud.catalogue);
      var keys := ssh.UpsertSSHKeys(Elements(cr.spec.sshKeys), now);
      if keys == None {
        return Failed;
      }
      out := Order(cr, opts.value.(sshKeys := keys.value));
    }

    /** The second half of Create: requests the server and records it. */
    method Order(cr: Managed<ServerParameters>, request: CreateOpts) returns (out: Outcome)
      requires Requests(request, cr.spec, cloud.catalogue, ssh.codec)
      modifies this`dirty, cloud`servers, cloud`next, cloud.api`faults, kube`status, kube`faults, cr`id, cr`params
      ensures Faults() >= old(Faults())
      ensures out == Ok <==> Faults() == old(Faults())
      ensures CreateRel(cloud.catalogue, ssh.codec, old(cr.Seen()), old(Here()), Here(), out)
    {
      ghost var view, w := cr.Seen(), Here();
      ghost var odd := cr.spec.startAfterCreate != cr.spec.powerOn;
      var failed, id := cloud.Create(request);
      if failed {
        if Here() != w {
          dirty := dirty.(rest := dirty.rest || odd);
          assert Created(cloud.catalogue, ssh.codec, view, w, Here(), id, request, false);
        }
        return Failed;
      }
      cr.id := id;
      cr.params := Some(cr.spec);
      failed := kube.UpdateStatus(Status(cr.id, Some(Stored(cr.params.value))));
      if failed {
        dirty := dirty.(rest := dirty.rest || odd);
        assert Created(cloud.catalogue, ssh.codec, view, w, Here(), id, request, kube.status != w.status);
        return Failed;
      }
      dirty := Doubt(false, odd);
      assert Created(cloud.catalogue, ssh.codec, view, w, Here(), id, request, true);
      out := Ok;
    }

    method Update(cr: Managed<ServerParameters>, now: int) returns (out: Outcome)
      modifies this`dirty, cloud`servers, cloud.api, kube`status, kube`faults, cr`params
      ensures Faults() >= old(Faults())
      ensures out == Ok <==> Faults() == old(Faults()) && cr.id in old(cloud.servers) && old(cr.params).Some?
      ensures UpdateRel(old(cr.Seen()), old(Here()), Here(), out)
    {
      var failed, server := cloud.GetByID(cr.id);
      if failed {
        return Failed;
      }
      if cr.params == None {
        return Panicked;
      }
      var current, target := cr.params.value, cr.spec;
      if server == None {
        // The SDK dereferences the nil server.
        return Panicked;
      }
      ghost var labels, asked;
      out, labels, asked := Change(cr, now, current, target);
    }

    /** The second half of Update: changes the server and records that. */
    method Change(cr: Managed<ServerParameters>, now: int, current: ServerParameters, target: ServerParameters)
      returns (out: Outcome, ghost labels: LabelMap, ghost asked: bool)
      requires cr.id in cloud.servers && cr.params == Some(current) && cr.spec == target
      modifies this`dirty, cloud`servers, cloud.api, kube`status, kube`faults, cr`params
      ensures Faults() >= old(Faults())
      ensures out == Ok <==> Faults() == old(Faults())
      ensures cr.id in cloud.servers
      ensures Moved(old(cr.Seen()), old(Here()), Here(), labels, cloud.servers[cr.id], asked,
                    out == Ok || kube.status != old(kube.status))
      ensures dirty == if out == Ok then Doubt(false, old(dirty).rest && !asked)
                       else Doubt(true, old(dirty).rest || asked)
    {
      var wanted := ApplyDefaultLabels(now, [Entries(target.labels)]);
      labels := wanted;
      out, asked := Write(cr.id, wanted, current.powerOn, target.powerOn);
      dirty := Doubt(true, dirty.rest || asked);
      if out != Ok {
        return;
      }
      var failed := Save(cr, current);
      if failed {
        return Failed, labels, asked;
      }
      dirty := Doubt(false, old(dirty).rest && !asked);
    }

    /** Records labels and power state of the spec. */
    method Save(cr: Managed<ServerParameters>, current: ServerParameters) returns (failed: bool)
      modifies cr`params, kube`status, kube`faults
      ensures if failed then kube.faults > old(kube.faults) else kube.faults == old(kube.faults)
      ensures kube.status == Status(cr.id, Some(Recorded(current, cr.spec)))
              || (failed && kube.status == old(kube.status))
    {
      cr.params := Some(current.(labels := cr.spec.labels));
      cr.params := Some(cr.params.value.(powerOn := cr.spec.powerOn));
      failed := kube.UpdateStatus(Status(cr.id, Some(Stored(cr.params.value))));
    }

    /** The cloud calls of Update, in their order; `asked` says whether the second one was made. */
    method Write(id: int, labels: LabelMap, current: bool, target: bool) returns (out: Outcome, ghost asked: bool)
      requires id in cloud.servers
      modifies cloud`servers, cloud.api
      ensures cloud.api.Counts(out != Ok)
      ensures id in cloud.servers && cloud.servers == old(cloud.servers)[id := cloud.servers[id]]
      ensures var s := old(cloud.servers[id]);
              var goal := s.(labels := labels, power := if current != target then target else s.power);
              && Halfway(s, cloud.servers[id], goal)
              && (asked ==> current != target) && (!asked ==> cloud.servers[id].power == s.power)
              && (out == Ok ==> cloud.servers[id] == goal && asked == (current != target))
    {
      asked := false;
      var failed := cloud.Update(id, labels);
      if failed {
        return Failed, asked;
      }
      if current != target {
        asked := true;
        var actions;
        failed, actions := cloud.SetPower(id, target);
        if failed {
          return Failed, asked;
        }
        out := WaitForAll(cloud.api, actions);
        return;
      }
      out := Ok;
    }

    method Delete(cr: Managed<ServerParameters>) returns (out: Outcome)
      modifies cloud`servers, cloud.api`faults
      ensures Faults() >= old(Faults())
      ensures out == Ok <==> Faults() == old(Faults()) && cr.id in old(cloud.servers)
      ensures DeleteRel(old(cr.Seen()), old(Here()), Here(), out)
    {
      var failed := cloud.DeleteWithResult(cr.id);
      out := if failed then Failed else Ok;
    }

    /** One pass of the managed reconciler over a freshly read resource. */
    method Reconcile(now: int, deleting: bool) returns (out: Outcome)
      modifies this`dirty, cloud, cloud.api, ssh`keys, ssh`faults, kube`status, kube`faults
      ensures Faults() >= old(Faults())
      ensures out == Ok <==>
                Faults() == old(Faults()) && (deleting || Passable(cloud.catalogue, ssh.codec, old(Here())))
      ensures !deleting && UpToDate(old(Here())) ==> Here() == old(Here())
      ensures Here() == old(Here()) || Next(cloud.catalogue, ssh.codec, old(Here()), Here())
      ensures out == Ok && !deleting && old(Inv(Here())) ==>
                && Satisfied(Here())
                && (UpToDate(old(Here())) || (!dirty.labels && (dirty.rest ==> StaysDoubtful(old(Here())))))
      ensures out == Ok && deleting ==> kube.status.id !in cloud.servers
    {
      var cr := kube.Load();
      assert cr.Seen() == Here().Loaded();
      var seen := Observe(cr);
      if seen.ObserveFailed? {
        return Failed;
      }
      ghost var w := Here();
      out := Ok;
      if deleting {
        if seen.found {
          out := Delete(cr);
          assert DeleteRel(w.Loaded(), w, Here(), out);
        }
      } else if !seen.found {
        out := Create(cr, now);
        assert CreateRel(cloud.catalogue, ssh.codec, w.Loaded(), w, Here(), out);
      } else if !seen.upToDate {
        out := Update(cr, now);
        assert UpdateRel(w.Loaded(), w, Here(), out);
      }
      if out == Ok && !deleting && Inv(w) {
        PassSatisfies(cloud.catalogue, ssh.codec, w, Here());
      }
    }

    /** Any number of passes with any edits of the spec in between: the class only goes through runs,
        so what every run keeps holds of it. */
    method Live(steps: nat) returns (ghost run: seq<ServerWorld>)
      requires Initial(Here())
      modifies this`dirty, cloud, cloud.api, ssh`keys, ssh`faults, kube
      ensures IsRun(cloud.catalogue, ssh.codec, run) && run[|run| - 1] == Here()
      ensures Inv(Here())
    {
      run := [Here()];
      for i := 0 to steps
        invariant IsRun(cloud.catalogue, ssh.codec, run) && run[|run| - 1] == Here()
      {
        var edit: bool, deleting: bool, now: int := *, *, *;
        ghost var w := Here();
        if edit {
          kube.spec := *;
        } else {
          var _ := Reconcile(now, deleting);
        }
        if Here() != w {
          run := run + [Here()];
        }
      }
      RunSafety(cloud.catalogue, ssh.codec, run, |run| - 1);
    }
  }
}
