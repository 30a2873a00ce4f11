/** The Volume controller (internal/controller/volume/volume.go) over a faulty cloud.  The custom
    resource is modelled with its pointers, because the controller compares them. */
module VolumeController {
  import opened Wrappers
  import opened Labels
  import opened Actions
  import opened Reconcile
  import opened VolumeProtocol

  // ---------------------------------------------------------------------------
  // The custom resource in memory
  // ---------------------------------------------------------------------------

  /** The target of an *int64. */
  class Int64 {
    const value: int

    constructor (value: int)
      ensures this.value == value
    {
      this.value := value;
    }
  }

  function Deref(p: Int64?): Option<int> {
    if p == null then None else Some(p.value)
  }

  /** VolumeParameters as a Go struct: the server id is a pointer. */
  class Parameters {
    var size: int
    var automount: bool
    var format: string
    var labels: Option<LabelMap>
    var location: Option<string>
    var serverID: Int64?

    /** Decoding JSON allocates the struct and a new target for its pointer. */
    constructor (p: VolumeParameters)
      ensures Value() == p && (serverID != null ==> fresh(serverID))
    {
      size, automount, format := p.size, p.automount, p.format;
      labels, location := p.labels, p.location;
      if p.serverID == None {
        serverID := null;
      } else {
        serverID := new Int64(p.serverID.value);
      }
    }

    ghost function Value(): VolumeParameters
      reads this
    {
      VolumeParameters(size, automount, format, labels, location, Deref(serverID))
    }

    /** The three assignments of Update. */
    method Record(labels: Option<LabelMap>, serverID: Int64?, size: int)
      modifies this`labels, this`serverID, this`size
      ensures Value() == old(Value()).(labels := labels, serverID := Deref(serverID), size := size)
    {
      this.labels, this.serverID, this.size := labels, serverID, size;
    }

    method Encode() returns (p: VolumeParameters)
      ensures p == Stored(Value())
    {
      var id: Option<int> := None;
      if serverID != null {
        id := Some(serverID.value);
      }
      p := Stored(VolumeParameters(size, automount, format, labels, location, id));
    }
  }

  class VolumeResource {
    var spec: Parameters
    var id: int
    var params: Parameters?

    constructor (view: VolumeView)
      ensures Seen() == view && FreshlyLoaded()
      ensures fresh(spec) && (params != null ==> fresh(params))
    {
      id := view.status.id;
      spec := new Parameters(view.spec);
      if view.status.params == None {
        params := null;
      } else {
        params := new Parameters(view.status.params.value);
      }
    }

    ghost function Seen(): VolumeView
      reads this, spec, params
    {
      View(spec.Value(), Status(id, if params == null then None else Some(params.Value())))
    }

    /** Spec and status share nothing, as they do when both have just been decoded. */
    ghost predicate FreshlyLoaded()
      reads this, spec, params
    {
      params != null ==> params != spec && (params.serverID != null ==> params.serverID != spec.serverID)
    }

    /** Volume.IsUpToDate: the server ids are compared as pointers. */
    predicate UpToDate()
      reads this, spec, params
    {
      && params != null
      && spec.labels == params.labels
      && params.serverID == spec.serverID
      && !(params.size < spec.size)
    }

    /** On a freshly loaded resource pointers are equal only when both are nil. */
    lemma LoadedPointersDiffer()
      requires FreshlyLoaded() && params != null
      ensures params.serverID == spec.serverID <==> !PointersDiffer(params.Value().serverID, spec.Value().serverID)
      ensures UpToDate() <==> IsUpToDate(PointersDiffer, Seen().spec, Seen().status.params)
    {
    }
  }

  // ---------------------------------------------------------------------------
  // The cloud
  // ---------------------------------------------------------------------------

  /** A request that touches the attachment: where the volume was, where the request wants it, and
      where it ended up. */
  datatype Request = Request(id: int, was: Option<int>, wanted: Option<int>, now: Option<int>)

  class VolumeCloud {
    var volumes: map<int, Volume>
    var next: int
    const servers: set<int>
    const locations: set<string>
    const api: ActionApi
    /** Every attach and detach request so far. */
    ghost var requests: seq<Request>
    /** What every request to delete a volume has found. */
    ghost var deletes: seq<Volume>

    constructor (api: ActionApi, servers: set<int>, locations: set<string>)
      ensures volumes == map[] && next == 1 && requests == [] && deletes == []
      ensures this.api == api && this.servers == servers && this.locations == locations
    {
      this.api, this.servers, this.locations := api, servers, locations;
      volumes, next, requests, deletes := map[], 1, [], [];
    }

    method GetByID(id: int) returns (failed: bool, volume: Option<Volume>)
      modifies api`faults
      ensures api.Counts(failed)
      ensures !failed ==> volume == if id in volumes then Some(volumes[id]) else None
    {
      failed := api.Call();
      volume := if id in volumes then Some(volumes[id]) else None;
    }

    method GetLocation(name: string) returns (failed: bool, found: bool)
      modifies api`faults
      ensures api.Counts(failed)
      ensures !failed ==> found == (name in locations)
    {
      failed := api.Call();
      found := name in locations;
    }

    method GetServer(id: int) returns (failed: bool, found: bool)
      modifies api`faults
      ensures api.Counts(failed)
      ensures !failed ==> found == (id in servers)
    {
      failed := api.Call();
      found := id in servers;
    }

    method Create(volume: Volume) returns (failed: bool, id: int)
      modifies this`volumes, this`next, api`faults
      ensures api.Counts(failed)
      ensures old(next) <= id
      ensures (volumes == old(volumes)[id := volume] && next == id + 1)
              || (failed && volumes == old(volumes) && next == old(next))
    {
      failed := api.Call();
      id := *;
      var done: bool := *;
      if id < next {
        id := next;
      }
      if !failed || done {
        volumes, next := volumes[id := volume], id + 1;
      }
    }

    method Update(id: int, labels: LabelMap) returns (failed: bool)
      requires id in volumes
      modifies this`volumes, api`faults
      ensures api.Counts(failed)
      ensures volumes == old(volumes)[id := old(volumes[id]).(labels := labels)] || (failed && volumes == old(volumes))
    {
      failed := api.Call();
      var done: bool := *;
      if !failed || done {
        volumes := volumes[id := volumes[id].(labels := labels)];
      }
    }

    /** Detach (`server` is None) or AttachWithOpts. */
    method SetServer(id: int, server: Option<int>) returns (failed: bool, actions: seq<Action>)
      modifies this`volumes, this`requests, api`successful, api`faults
      ensures api.faults >= old(api.faults)
      ensures !failed <==> api.faults == old(api.faults) && id in old(volumes)
      ensures id !in old(volumes) ==> failed && volumes == old(volumes) && requests == old(requests)
      ensures id in old(volumes) ==>
                && id in volumes
                && (volumes == old(volumes)[id := old(volumes[id]).(server := server)] || volumes == old(volumes))
                && requests == old(requests) + [Request(id, old(volumes[id]).server, server, volumes[id].server)]
                && (!failed && (forall a | a in actions :: a.id in api.successful) ==> volumes[id].server == server)
    {
      var complete;
      failed, actions, complete := api.Start();
      if id !in volumes {
        failed := true;
        return;
      }
      ghost var was := volumes[id].server;
      if complete {
        volumes := volumes[id := volumes[id].(server := server)];
      }
      requests := requests + [Request(id, was, server, volumes[id].server)];
    }

    method Resize(id: int, size: int) returns (failed: bool, actions: seq<Action>)
      requires id in volumes
      modifies this`volumes, api`successful, api`faults
      ensures api.Counts(failed)
      ensures volumes == old(volumes)[id := old(volumes[id]).(size := size)] || volumes == old(volumes)
      ensures !failed && (forall a | a in actions :: a.id in api.successful) ==>
                volumes == old(volumes)[id := old(volumes[id]).(size := size)]
    {
      var complete;
      failed, actions, complete := api.Start();
      if complete {
        volumes := volumes[id := volumes[id].(size := size)];
      }
    }

    method Delete(id: int) returns (failed: bool)
      requires id in volumes
      modifies this`volumes, this`deletes, api`faults
      ensures api.Counts(failed)
      ensures deletes == old(deletes) + [old(volumes[id])]
      ensures volumes == old(volumes) - {id} || (failed && volumes == old(volumes))
    {
      failed := api.Call();
      var done: bool := *;
      deletes := deletes + [volumes[id]];
      if !failed || done {
        volumes := volumes - {id};
      }
    }
  }

  /** The attach requests for server ids one after the other, None asking for nothing, of a volume that
      starts on `from`. */
  function Attachments(id: int, from: Option<int>, targets: seq<Option<int>>): seq<Request> {
    if targets == [] then []
    else
      var earlier, target := targets[..|targets| - 1], targets[|targets| - 1];
      Attachments(id, from, earlier)
      + if target == None then [] else [Request(id, Last(from, earlier), target, target)]
  }

  /** Where those requests leave the volume. */
  function Last(from: Option<int>, targets: seq<Option<int>>): Option<int> {
    if targets == [] then from
    else if targets[|targets| - 1].Some? then targets[|targets| - 1]
    else Last(from, targets[..|targets| - 1])
  }

  /** All the requests of changing servers: off the present one first, if it is `detached` at all. */
  function Plan(id: int, was: Option<int>, detached: bool, targets: seq<Option<int>>): seq<Request> {
    (if detached then [Request(id, was, None, None)] else [])
    + Attachments(id, if detached then None else was, targets)
  }

  /** The plan of an Update for a volume that is on the server `was`, if any. */
  function UpdatePlan(id: int, was: Option<int>, target: Option<int>): seq<Request> {
    Plan(id, was, was.Some?, [target])
  }

  /** Where a volume is after requests. */
  function Ended(was: Option<int>, made: seq<Request>): Option<int> {
    if made == [] then was else made[|made| - 1].now
  }

  function Derefs(params: seq<Int64?>): (targets: seq<Option<int>>)
    ensures |targets| == |params| && forall i | 0 <= i < |params| :: targets[i] == Deref(params[i])
  {
    seq(|params|, i requires 0 <= i < |params| => Deref(params[i]))
  }

  /** What requests ask for, one by one. */
  function Wishes(requests: seq<Request>): seq<Option<int>> {
    seq(|requests|, i requires 0 <= i < |requests| => requests[i].wanted)
  }

  /** The server ids among the targets, in order. */
  function Somes(targets: seq<Option<int>>): seq<Option<int>> {
    if targets == [] then []
    else Somes(targets[..|targets| - 1]) + if targets[|targets| - 1].Some? then [targets[|targets| - 1]] else []
  }

  /** Requests for one volume, each carried out and starting where the one before has led. */
  ghost predicate Chained(id: int, from: Option<int>, requests: seq<Request>) {
    forall k | 0 <= k < |requests| ::
      && requests[k].id == id && requests[k].now == requests[k].wanted
      && requests[k].was == Before(from, requests, k)
  }

  /** Where the volume is before request `k`. */
  function Before(from: Option<int>, requests: seq<Request>, k: nat): Option<int>
    requires k <= |requests|
  {
    if k == 0 then from else requests[k - 1].now
  }

  lemma ChainsJoin(id: int, from: Option<int>, a: seq<Request>, b: seq<Request>)
    requires Chained(id, from, a) && Chained(id, Ended(from, a), b)
    ensures Chained(id, from, a + b) && Wishes(a + b) == Wishes(a) + Wishes(b)
  {
    var all := a + b;
    forall k | 0 <= k < |all|
      ensures all[k].id == id && all[k].now == all[k].wanted && all[k].was == Before(from, all, k)
    {
      if k >= |a| {
        assert b[k - |a|].was == Before(Ended(from, a), b, k - |a|);
      }
    }
  }

  lemma OneMoreLink(id: int, from: Option<int>, a: seq<Request>, target: Option<int>)
    requires Chained(id, from, a)
    ensures var more := a + [Request(id, Ended(from, a), target, target)];
            Chained(id, from, more) && Wishes(more) == Wishes(a) + [target] && Ended(from, more) == target
  {
    var one := [Request(id, Ended(from, a), target, target)];
    ChainsJoin(id, from, a, one);
    assert Wishes(one) == [target];
  }

  lemma {:induction false} AttachmentsMeaning(id: int, from: Option<int>, targets: seq<Option<int>>)
    ensures var requests := Attachments(id, from, targets);
            && Chained(id, from, requests) && Wishes(requests) == Somes(targets)
            && Ended(from, requests) == Last(from, targets)
  {
    if targets != [] {
      var earlier, target := targets[..|targets| - 1], targets[|targets| - 1];
      AttachmentsMeaning(id, from, earlier);
      var requests := Attachments(id, from, earlier);
      if target.Some? {
        OneMoreLink(id, from, requests, target);
        assert Somes(targets) == Somes(earlier) + [target];
      } else {
        assert Attachments(id, from, targets) == requests && Somes(targets) == Somes(earlier);
      }
    }
  }

  /** What a plan is: one request to detach if the volume is to be detached, then one to attach for each
      server id among the targets, in order, and nothing else. */
  lemma PlanMeaning(id: int, was: Option<int>, detached: bool, targets: seq<Option<int>>)
    ensures var plan := Plan(id, was, detached, targets);
            Chained(id, was, plan) && Wishes(plan) == (if detached then [None] else []) + Somes(targets)
  {
    var from := if detached then None else was;
    AttachmentsMeaning(id, from, targets);
    if detached {
      ChainsJoin(id, was, [Request(id, was, None, None)], Attachments(id, from, targets));
    }
  }

  /** The requests made are a first part of the plan, each of them carried out before the next is made;
      only the last may have had no effect. */
  ghost predicate Follows(made: seq<Request>, plan: seq<Request>) {
    && |made| <= |plan|
    && forall k | 0 <= k < |made| ::
         made[k] == plan[k] || (k == |made| - 1 && made[k] == plan[k].(now := plan[k].was))
  }

  /** The volume only ever was on the old server, on none or on the target, and it was asked onto a
      server only when it was on none. */
  ghost predicate Polite(requests: seq<Request>, id: int, before: Option<int>, target: Option<int>) {
    forall k | 0 <= k < |requests| :: PoliteRequest(requests[k], id, before, target)
  }

  predicate PoliteRequest(r: Request, id: int, before: Option<int>, target: Option<int>) {
    && r.id == id
    && (r.wanted.Some? ==> r.was == None && r.wanted == target)
    && (r.was == before || r.was == None)
    && (r.now == before || r.now == None || r.now == target)
  }

  /** Requests that follow the plan of an Update (one target, detached if it was on a server) or of a
      Delete (no target) are polite. */
  lemma PlansArePolite(made: seq<Request>, id: int, was: Option<int>, detached: bool, targets: seq<Option<int>>)
    requires Follows(made, Plan(id, was, detached, targets))
    requires |targets| <= 1 && (was.Some? ==> detached)
    ensures Polite(made, id, was, if targets == [] then None else targets[0])
  {
    if targets != [] {
      OneAttachment(id, None, targets[0]);
      assert targets == [targets[0]];
    }
    var plan := Plan(id, was, detached, targets);
    forall k | 0 <= k < |made|
      ensures PoliteRequest(made[k], id, was, if targets == [] then None else targets[0])
    {
      assert PoliteRequest(plan[k], id, was, if targets == [] then None else targets[0]);
    }
  }

  /** Where the requests of an Update lead: carried out, to the target. */
  lemma UpdatePlanLeads(made: seq<Request>, id: int, was: Option<int>, target: Option<int>)
    requires Follows(made, UpdatePlan(id, was, target))
    ensures Polite(made, id, was, target)
    ensures var now := Ended(was, made);
            (now == was || now == None || now == target) && (made == UpdatePlan(id, was, target) ==> now == target)
  {
    PlansArePolite(made, id, was, was.Some?, [target]);
    OneAttachment(id, None, target);
    assert made != [] ==> PoliteRequest(made[|made| - 1], id, was, target);
  }

  lemma OneAttachment(id: int, from: Option<int>, target: Option<int>)
    ensures Attachments(id, from, [target]) == if target.None? then [] else [Request(id, from, target, target)]
  {
    assert [target][..0] == [];
  }

  /** After the first `i` targets: the next request, done or not, follows the plan. */
  lemma NextAttachment(id: int, from: Option<int>, targets: seq<Option<int>>, i: nat, now: Option<int>)
    requires i < |targets| && targets[i].Some? && (now == targets[i] || now == Last(from, targets[..i]))
    ensures var done, was := Attachments(id, from, targets[..i]), Last(from, targets[..i]);
            && Follows(done + [Request(id, was, targets[i], now)], Attachments(id, from, targets))
            && Attachments(id, from, targets[..i + 1]) == done + [Request(id, was, targets[i], targets[i])]
            && Last(from, targets[..i + 1]) == targets[i]
  {
    assert targets[..i + 1][..i] == targets[..i];
    AttachmentsGrow(id, from, targets, i + 1);
  }

  lemma {:induction false} AttachmentsGrow(id: int, from: Option<int>, targets: seq<Option<int>>, i: nat)
    requires i <= |targets|
    ensures Attachments(id, from, targets[..i]) <= Attachments(id, from, targets)
  {
    if i < |targets| {
      AttachmentsGrow(id, from, targets[..|targets| - 1], i);
      assert targets[..|targets| - 1][..i] == targets[..i];
    } else {
      assert targets[..i] == targets;
    }
  }

  lemma FollowsAfter(first: Request, made: seq<Request>, plan: seq<Request>)
    requires Follows(made, plan)
    ensures Follows([first] + made, [first] + plan)
  {
  }

  // ---------------------------------------------------------------------------
  // The controller
  // ---------------------------------------------------------------------------

  class External {
    const cloud: VolumeCloud
    const kube: Store<VolumeParameters>
    /** History: what failed calls may have left undone. */
    ghost var dirty: Doubt

    constructor (cloud: VolumeCloud, kube: Store<VolumeParameters>)
      ensures this.cloud == cloud && this.kube == kube && dirty == Doubt(false, false)
    {
      this.cloud, this.kube, dirty := cloud, kube, Doubt(false, false);
    }

    ghost function Here(): VolumeWorld
      reads this, cloud, kube
    {
      World(kube.spec, kube.status, cloud.volumes, cloud.next, dirty)
    }

    /** How often cloud and cluster have let the controller down. */
    ghost function Faults(): nat
      reads cloud.api, kube
    {
      cloud.api.faults + kube.faults
    }

    method Observe(cr: VolumeResource) returns (seen: Observation)
      modifies cloud.api`faults
      ensures cloud.api.Counts(seen.ObserveFailed?)
      ensures seen.Observed? ==>
                seen.found == (cr.id in cloud.volumes) && seen.upToDate == (seen.found && cr.UpToDate())
    {
      var failed, volume := cloud.GetByID(cr.id);
      if failed {
        return ObserveFailed;
      }
      if volume == None {
        return Observed(false, false);
      }
      seen := Observed(true, cr.UpToDate());
    }

    method Create(cr: VolumeResource, now: int) returns (out: Outcome)
      modifies this`dirty, cloud`volumes, cloud`next, cloud.api`faults, kube`status, kube`faults, cr`id, cr`params
      ensures Faults() >= old(Faults())
      ensures out == Ok <==>
                && Faults() == old(Faults())
                && (old(cr.spec.location).Some? ==> old(cr.spec.location).value in cloud.locations)
                && (old(cr.spec.serverID) != null ==> old(cr.spec.serverID).value in cloud.servers)
      ensures CreateRel(old(cr.Seen()), old(Here()), Here(), out)
      ensures Here() != old(Here()) ==> Located(old(cr.spec.Value()), cloud.servers, cloud.locations)
    {
      var found, server := LookUp(cr.spec);
      if !found {
        return Failed;
      }
      ghost var view, w := cr.Seen(), Here();
      var labels := ApplyDefaultLabels(now, [Entries(cr.spec.labels)]);
      var volume := Volume(labels, cr.spec.size, server,
                           VolumeOptions(cr.spec.automount, cr.spec.format, cr.spec.location));
      var failed, id := cloud.Create(volume);
      if failed {
        assert Here() == w || Created(view, w, Here(), id, volume, false);
        return Failed;
      }
      cr.id := id;
      cr.params := cr.spec;
      var encoded := cr.params.Encode();
      failed := kube.UpdateStatus(Status(cr.id, Some(encoded)));
      if failed {
        assert Created(view, w, Here(), id, volume, kube.status != w.status);
        return Failed;
      }
      dirty := Doubt(false, false);
      assert Created(view, w, Here(), id, volume, true);
      out := Ok;
    }

    /** The lookups before a volume is requested. */
    method LookUp(spec: Parameters) returns (found: bool, server: Option<int>)
      modifies cloud.api`faults
      ensures cloud.api.faults >= old(cloud.api.faults)
      ensures found <==>
                cloud.api.faults == old(cloud.api.faults) && Located(spec.Value(), cloud.servers, cloud.locations)
      ensures found ==> server == Deref(spec.serverID)
    {
      server := None;
      var failed;
      if spec.location != None {
        failed, found := cloud.GetLocation(spec.location.value);
        if failed || !found {
          return false, None;
        }
      }
      if spec.serverID != null {
        failed, found := cloud.GetServer(spec.serverID.value);
        if failed || !found {
          return false, None;
        }
        server := Some(spec.serverID.value);
      }
      found := true;
    }

    /** `differ` is any comparison that agrees with the pointer comparison on this resource.  Where the
        pointers differ, a success has detached the volume from the server it was on and attached it to
        the target, be that the same one. */
    method Update(cr: VolumeResource, now: int, ghost differ: Comparison) returns (out: Outcome)
      requires cr.params != null ==>
                 (differ(Deref(cr.params.serverID), Deref(cr.spec.serverID))
                  <==> cr.params.serverID != cr.spec.serverID)
      modifies this`dirty, cloud`volumes, cloud`requests, cloud.api, kube`status, kube`faults, cr.params
      ensures Faults() >= old(Faults())
      ensures out == Ok <==> Faults() == old(Faults()) && cr.id in old(cloud.volumes) && cr.params != null
      ensures UpdateRel(differ, old(cr.Seen()), old(Here()), Here(), out)
      ensures NewRequestsPolite(cr.id, Deref(old(cr.spec.serverID)))
      ensures out == Ok && Moves(differ, old(cr.Seen())) ==>
                cloud.requests == old(cloud.requests) +
                                  UpdatePlan(cr.id, old(cloud.volumes)[cr.id].server, Deref(old(cr.spec.serverID)))
    {
      var failed, volume := cloud.GetByID(cr.id);
      if failed || volume == None {
        return Failed;
      }
      if cr.params == null {
        return Panicked;
      }
      ghost var labels, made;
      out, labels, made := Change(cr, now, differ, volume.value);
      assert cloud.requests[|old(cloud.requests)|..] == made;
    }

    /** The second half of Update: changes the volume and records that. */
    method Change(cr: VolumeResource, now: int, ghost differ: Comparison, volume: Volume)
      returns (out: Outcome, ghost labels: LabelMap, ghost made: seq<Request>)
      requires cr.id in cloud.volumes && cloud.volumes[cr.id] == volume && cr.params != null
      requires differ(Deref(cr.params.serverID), Deref(cr.spec.serverID)) <==> cr.params.serverID != cr.spec.serverID
      modifies this`dirty, cloud`volumes, cloud`requests, cloud.api, kube`status, kube`faults, cr.params
      ensures Faults() >= old(Faults())
      ensures out == Ok <==> Faults() == old(Faults())
      ensures cr.id in cloud.volumes
      ensures Moved(differ, old(cr.Seen()), old(Here()), Here(), labels, cloud.volumes[cr.id], made != [],
                    out == Ok || kube.status != old(kube.status))
      ensures dirty == if out == Ok then Doubt(false, old(dirty).rest && !Moves(differ, old(cr.Seen())))
                       else Doubt(true, old(dirty).rest || made != [])
      ensures cloud.requests == old(cloud.requests) + made
      ensures Polite(made, cr.id, volume.server, Deref(old(cr.spec.serverID)))
      ensures out == Ok && Moves(differ, old(cr.Seen())) ==>
                made == UpdatePlan(cr.id, volume.server, Deref(old(cr.spec.serverID)))
    {
      ghost var view := cr.Seen();
      var currentSize, currentServerID := cr.params.size, cr.params.serverID;
      var targetSize, targetServerID, targetLabels := cr.spec.size, cr.spec.serverID, cr.spec.labels;
      var wanted := ApplyDefaultLabels(now, [Entries(targetLabels)]);
      labels := wanted;
      out, made := Write(cr.id, volume, wanted, currentServerID, targetServerID, currentSize, targetSize);
      ghost var v := cloud.volumes[cr.id];
      ghost var goal := Goal(differ, volume, view.status.params.value, view.spec, labels);
      assert Halfway(volume, v, goal) && (out == Ok ==> v == goal);
      dirty := Doubt(true, dirty.rest || made != []);
      if out == Ok {
        var failed := Save(cr, targetLabels, targetServerID, targetSize);
        assert kube.status == Status(view.status.id, Some(Recorded(view.status.params.value, view.spec)))
               || (failed && kube.status == old(kube.status));
        if failed {
          out := Failed;
        } else {
          dirty := Doubt(false, old(dirty).rest && currentServerID == targetServerID);
        }
      }
    }

    /** Records labels, server id and size. */
    method Save(cr: VolumeResource, labels: Option<LabelMap>, serverID: Int64?, size: int) returns (failed: bool)
      requires cr.params != null
      modifies cr.params, kube`status, kube`faults
      ensures if failed then kube.faults > old(kube.faults) else kube.faults == old(kube.faults)
      ensures var p := old(cr.params.Value()).(labels := labels, serverID := Deref(serverID), size := size);
              kube.status == Status(cr.id, Some(Stored(p))) || (failed && kube.status == old(kube.status))
    {
      cr.params.Record(labels, serverID, size);
      var encoded := cr.params.Encode();
      failed := kube.UpdateStatus(Status(cr.id, Some(encoded)));
    }

    /** The requests made during a call are polite. */
    twostate predicate NewRequestsPolite(id: int, target: Option<int>)
      reads cloud
    {
      && old(cloud.requests) <= cloud.requests
      && if id in old(cloud.volumes) then
           Polite(cloud.requests[|old(cloud.requests)|..], id, old(cloud.volumes)[id].server, target)
         else
           cloud.requests == old(cloud.requests)
    }

    /** The cloud calls of Update, in their order. */
    method Write(id: int, volume: Volume, labels: LabelMap, currentServerID: Int64?, targetServerID: Int64?,
                 currentSize: int, targetSize: int) returns (out: Outcome, ghost made: seq<Request>)
      requires id in cloud.volumes && volume == cloud.volumes[id]
      modifies cloud`volumes, cloud`requests, cloud.api
      ensures cloud.api.Counts(out != Ok)
      ensures id in cloud.volumes && cloud.volumes == old(cloud.volumes)[id := cloud.volumes[id]]
      ensures var goal := volume.(
                labels := labels,
                size := if currentSize < targetSize then targetSize else volume.size,
                server := if currentServerID != targetServerID then Deref(targetServerID) else volume.server);
              Halfway(volume, cloud.volumes[id], goal) && (out == Ok ==> cloud.volumes[id] == goal)
      ensures cloud.requests == old(cloud.requests) + made && Polite(made, id, volume.server, Deref(targetServerID))
      ensures made == [] ==> cloud.volumes[id].server == volume.server
      ensures currentServerID == targetServerID ==> made == []
      ensures out == Ok && currentServerID != targetServerID ==>
                made == UpdatePlan(id, volume.server, Deref(targetServerID))
    {
      made := [];
      var failed := cloud.Update(id, labels);
      if failed {
        return Failed, made;
      }
      if currentServerID != targetServerID {
        out, made := UpdateServerAttachment(id, volume.server, [targetServerID]);
        assert Derefs([targetServerID]) == [Deref(targetServerID)];
        UpdatePlanLeads(made, id, volume.server, Deref(targetServerID));
        if out != Ok {
          return;
        }
      }
      if currentSize < targetSize {
        out := Resize(id, targetSize);
        return;
      }
      out := Ok;
    }

    /** Panics, before any request, if no server id is recorded.  The deletion is requested only once the
        volume is on no server. */
    method Delete(cr: VolumeResource) returns (out: Outcome)
      modifies this`dirty, cloud`volumes, cloud`requests, cloud`deletes, cloud.api
      ensures cloud.deletes == old(cloud.deletes) ||
              (cr.id in old(cloud.volumes)
               && cloud.deletes == old(cloud.deletes) + [old(cloud.volumes)[cr.id].(server := None)])
      ensures out == Ok ==> cloud.deletes != old(cloud.deletes)
      ensures Faults() >= old(Faults())
      ensures out == Ok <==>
                Faults() == old(Faults()) && cr.id in old(cloud.volumes) && !NoServerRecorded(old(cr.Seen()).status)
      ensures Faults() == old(Faults()) ==> (out == Panicked <==> NoServerRecorded(old(cr.Seen()).status))
      ensures cloud.requests != old(cloud.requests) <==>
                cr.id in old(cloud.volumes) && !NoServerRecorded(old(cr.Seen()).status)
      ensures DeleteRel(old(cr.Seen()), old(Here()), Here(), out)
      ensures NewRequestsPolite(cr.id, None)
    {
      if cr.params == null || cr.params.serverID == null {
        return Panicked;
      }
      ghost var made;
      out, made := UpdateServerAttachment(cr.id, Some(cr.params.serverID.value), []);
      assert cloud.requests[|old(cloud.requests)|..] == made;
      if cr.id in cloud.volumes {
        PlansArePolite(made, cr.id, old(cloud.volumes)[cr.id].server, true, []);
      }
      if out != Ok {
        dirty := dirty.(rest := dirty.rest || cr.id in cloud.volumes);
        return;
      }
      var failed := cloud.Delete(cr.id);
      if failed {
        dirty := dirty.(rest := true);
        return Failed;
      }
      out := Ok;
    }

    method Resize(id: int, size: int) returns (out: Outcome)
      requires id in cloud.volumes
      modifies cloud`volumes, cloud.api
      ensures cloud.api.Counts(out != Ok)
      ensures cloud.volumes == old(cloud.volumes)[id := old(cloud.volumes[id]).(size := size)]
              || (out != Ok && cloud.volumes == old(cloud.volumes))
    {
      var failed, actions := cloud.Resize(id, size);
      if failed {
        return Failed;
      }
      out := WaitForAll(cloud.api, actions);
    }

    /** Detaches a volume that is `on` a server; then attaches it to the server of each element of
        params that has one. */
    method UpdateServerAttachment(id: int, on: Option<int>, params: seq<Int64?>)
      returns (out: Outcome, ghost made: seq<Request>)
      modifies cloud`volumes, cloud`requests, cloud.api
      ensures cloud.api.faults >= old(cloud.api.faults)
      ensures cloud.requests == old(cloud.requests) + made
      ensures id !in old(cloud.volumes) ==>
                && cloud.volumes == old(cloud.volumes) && made == [] && (on.Some? ==> out == Failed)
                && (cloud.api.faults == old(cloud.api.faults) ==> out != Panicked)
      ensures id in old(cloud.volumes) ==>
                var v := old(cloud.volumes[id]);
                var plan := Plan(id, v.server, on.Some?, Derefs(params));
                && cloud.api.Counts(out != Ok)
                && cloud.volumes == old(cloud.volumes)[id := v.(server := Ended(v.server, made))]
                && Follows(made, plan) && (out == Ok ==> made == plan) && (on.Some? ==> made != [])
    {
      made := [];
      if on != None {
        out, made := Move(id, None);
        if out != Ok {
          return;
        }
      }
      ghost var more;
      out, more := AttachAll(id, params);
      if made != [] {
        FollowsAfter(made[0], more, Attachments(id, None, Derefs(params)));
      }
      made := made + more;
    }

    /** The loop over params. */
    method AttachAll(id: int, params: seq<Int64?>) returns (out: Outcome, ghost made: seq<Request>)
      modifies cloud`volumes, cloud`requests, cloud.api
      ensures cloud.api.faults >= old(cloud.api.faults)
      ensures cloud.requests == old(cloud.requests) + made
      ensures id !in old(cloud.volumes) ==>
                && cloud.volumes == old(cloud.volumes) && made == []
                && (cloud.api.faults == old(cloud.api.faults) ==> out != Panicked)
      ensures id in old(cloud.volumes) ==>
                var v := old(cloud.volumes[id]);
                var plan := Attachments(id, v.server, Derefs(params));
                && cloud.api.Counts(out != Ok)
                && cloud.volumes == old(cloud.volumes)[id := v.(server := Ended(v.server, made))]
                && Follows(made, plan) && (out == Ok ==> made == plan)
    {
      made := [];
      ghost var targets := Derefs(params);
      ghost var from := if id in cloud.volumes then cloud.volumes[id].server else None;
      for i := 0 to |params|
        invariant cloud.api.faults == old(cloud.api.faults)
        invariant cloud.requests == old(cloud.requests) + made
        invariant id !in old(cloud.volumes) ==> cloud.volumes == old(cloud.volumes) && made == []
        invariant id in old(cloud.volumes) ==>
                    && cloud.volumes
                       == old(cloud.volumes)[id := old(cloud.volumes[id]).(server := Last(from, targets[..i]))]
                    && made == Attachments(id, from, targets[..i])
                    && Last(from, targets[..i]) == Ended(from, made)
      {
        if params[i] == null {
          assert targets[..i + 1][..i] == targets[..i];
        } else {
          ghost var one;
          out, one := Move(id, Some(params[i].value));
          if one != [] {
            NextAttachment(id, from, targets, i, one[0].now);
          }
          made := made + one;
          if out != Ok {
            return;
          }
        }
      }
      assert targets[..|params|] == targets;
      out := Ok;
    }

    /** One request to change servers, and the wait for it. */
    method Move(id: int, server: Option<int>) returns (out: Outcome, ghost made: seq<Request>)
      modifies cloud`volumes, cloud`requests, cloud.api
      ensures cloud.api.faults >= old(cloud.api.faults)
      ensures cloud.requests == old(cloud.requests) + made
      ensures id !in old(cloud.volumes) ==> out == Failed && cloud.volumes == old(cloud.volumes) && made == []
      ensures id in old(cloud.volumes) ==>
                var v := old(cloud.volumes[id]);
                && cloud.api.Counts(out != Ok)
                && |made| == 1 && made[0] == Request(id, v.server, server, made[0].now)
                && (made[0].now == server || (out != Ok && made[0].now == v.server))
                && cloud.volumes == old(cloud.volumes)[id := v.(server := made[0].now)]
    {
      made := [];
      var failed, actions := cloud.SetServer(id, server);
      if id in cloud.volumes {
        made := [Request(id, old(cloud.volumes[id]).server, server, cloud.volumes[id].server)];
      }
      if failed {
        return Failed, made;
      }
      out := WaitForAll(cloud.api, actions);
    }

    /** One pass of the managed reconciler over a freshly decoded resource. */
    method Reconcile(now: int, deleting: bool) returns (out: Outcome)
      modifies this`dirty, cloud, cloud.api, kube`status, kube`faults
      ensures Faults() >= old(Faults())
      ensures out == Ok <==>
                && Faults() == old(Faults())
                && Passable(PointersDiffer, cloud.servers, cloud.locations, old(Here()), deleting)
      ensures !deleting && UpToDate(PointersDiffer, old(Here())) ==> Here() == old(Here())
      ensures Here() == old(Here()) || Next(PointersDiffer, old(Here()), Here())
      ensures out == Ok && !deleting && old(Inv(Here())) ==>
                && Satisfied(PointersDiffer, Here())
                && (UpToDate(PointersDiffer, old(Here())) ||
                    (!dirty.labels && (dirty.rest ==> StaysDoubtful(PointersDiffer, old(Here())))))
      ensures out == Ok && deleting ==> kube.status.id !in cloud.volumes
    {
      var cr := new VolumeResource(View(kube.spec, kube.status));
      if cr.params != null {
        cr.LoadedPointersDiffer();
      }
      var seen := Observe(cr);
      if seen.ObserveFailed? {
        return Failed;
      }
      ghost var w := Here();
      out := Ok;
      if deleting {
        if seen.found {
          out := Delete(cr);
          assert DeleteRel(w.Loaded(), w, Here(), out);
        }
      } else if !seen.found {
        out := Create(cr, now);
        assert CreateRel(w.Loaded(), w, Here(), out);
      } else if !seen.upToDate {
        out := Update(cr, now, PointersDiffer);
        assert UpdateRel(PointersDiffer, w.Loaded(), w, Here(), out);
      }
      if out == Ok && !deleting && Inv(w) {
        PassSatisfies(PointersDiffer, w, Here());
      }
    }

    /** Any number of passes with any edits of the spec in between: the class only goes through runs,
        so what every run keeps holds of it. */
    method Live(steps: nat) returns (ghost run: seq<VolumeWorld>)
      requires Initial(Here())
      modifies this`dirty, cloud, cloud.api, kube
      ensures IsRun(PointersDiffer, run) && run[|run| - 1] == Here()
      ensures Inv(Here())
    {
      run := [Here()];
      for i := 0 to steps
        invariant IsRun(PointersDiffer, run) && run[|run| - 1] == Here()
      {
        var edit: bool, deleting: bool, now: int := *, *, *;
        ghost var w := Here();
        if edit {
          kube.spec := *;
        } else {
          var _ := Reconcile(now, deleting);
        }
        if Here() != w {
          run := run + [Here()];
        }
      }
      RunSafety(PointersDiffer, run, |run| - 1);
    }
  }
}
