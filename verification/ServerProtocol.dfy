/** What the Server controller does to the world, and what every run of it keeps. */
module ServerProtocol {
  import opened Wrappers
  import opened Labels
  import opened SshKeys
  import opened Reconcile

  datatype ServerParameters = ServerParameters(
    image: string,
    serverType: string,
    datacenter: Option<string>,
    location: Option<string>,
    architecture: string,
    autoMount: bool,
    enableIPv4: bool,
    enableIPv6: bool,
    firewallIDs: Option<seq<int>>,
    labels: Option<LabelMap>,
    networkIDs: Option<seq<int>>,
    placementGroupID: Option<int>,
    powerOn: bool,
    sshKeys: Option<seq<string>>,
    startAfterCreate: bool,
    userData: string,
    volumeIDs: Option<seq<int>>)

  datatype Kind = FirewallKind | NetworkKind | VolumeKind | GroupKind

  /** An object that a lookup by id has found. */
  datatype Found = Found(kind: Kind, id: int)

  /** hcloud.ServerCreateOpts. */
  datatype CreateOpts = CreateOpts(
    autoMount: bool,
    datacenter: Option<string>,
    location: Option<string>,
    firewalls: seq<Found>,
    image: (string, string),
    labels: LabelMap,
    networks: seq<Found>,
    placementGroup: Option<Found>,
    enableIPv4: bool,
    enableIPv6: bool,
    serverType: string,
    sshKeys: seq<SSHKey>,
    startAfterCreate: bool,
    userData: string,
    volumes: seq<Found>)

  /** A server in the cloud: what it was requested with, and what can change later. */
  datatype Server = Server(opts: CreateOpts, labels: LabelMap, power: bool)

  type ServerWorld = World<ServerParameters, Server, Doubt>
  type ServerView = View<ServerParameters>

  /** What there is to look up. */
  datatype Catalogue = Catalogue(
    objects: set<Found>,
    datacenters: set<string>,
    locations: set<string>,
    images: set<(string, string)>,
    serverTypes: set<string>)

  /** The lookups of `ids` found every object, in order. */
  ghost predicate Resolves(found: seq<Found>, c: Catalogue, kind: Kind, ids: seq<int>) {
    && |found| == |ids|
    && forall i | 0 <= i < |ids| :: found[i] == Found(kind, ids[i]) && found[i] in c.objects
  }

  /** Everything that the spec names exists. */
  ghost predicate Resolvable(p: ServerParameters, c: Catalogue) {
    && (forall id | id in Elements(p.firewallIDs) :: Found(FirewallKind, id) in c.objects)
    && (forall id | id in Elements(p.networkIDs) :: Found(NetworkKind, id) in c.objects)
    && (forall id | id in Elements(p.volumeIDs) :: Found(VolumeKind, id) in c.objects)
    && (p.placementGroupID.Some? ==> Found(GroupKind, p.placementGroupID.value) in c.objects)
    && (if p.datacenter.Some? then p.datacenter.value in c.datacenters
        else p.location.Some? && p.location.value in c.locations)
    && (p.image, p.architecture) in c.images && p.serverType in c.serverTypes
  }

  /** A server can be requested: everything that the spec names exists, and its SSH keys are keys. */
  ghost predicate Orderable(p: ServerParameters, c: Catalogue, codec: Codec) {
    Resolvable(p, c) && AllHaveFingerprints(codec, Elements(p.sshKeys))
  }

  /** Apart from SSH keys the request says what the spec says, every name and id in it exists, and a
      datacenter goes before a location. */
  ghost predicate Prepared(opts: CreateOpts, p: ServerParameters, c: Catalogue) {
    && Resolves(opts.firewalls, c, FirewallKind, Elements(p.firewallIDs))
    && Resolves(opts.networks, c, NetworkKind, Elements(p.networkIDs))
    && Resolves(opts.volumes, c, VolumeKind, Elements(p.volumeIDs))
    && (match p.placementGroupID
        case None => opts.placementGroup == None
        case Some(id) => opts.placementGroup == Some(Found(GroupKind, id)) && Found(GroupKind, id) in c.objects)
    && (if p.datacenter.Some? then
          opts.datacenter == p.datacenter && opts.location == None && p.datacenter.value in c.datacenters
        else
          p.location.Some? && opts.datacenter == None && opts.location == p.location && p.location.value in c.locations)
    && opts.image == (p.image, p.architecture) && opts.image in c.images
    && opts.serverType == p.serverType && opts.serverType in c.serverTypes
    && LabelsAgree(opts.labels, p.labels)
    && opts.autoMount == p.autoMount && opts.userData == p.userData
    && opts.enableIPv4 == p.enableIPv4 && opts.enableIPv6 == p.enableIPv6
    && opts.startAfterCreate == p.startAfterCreate
  }

  /** A whole request: the SSH keys are those of the spec by fingerprint, in order. */
  ghost predicate Requests(opts: CreateOpts, p: ServerParameters, c: Catalogue, codec: Codec) {
    && Prepared(opts, p, c)
    && |opts.sshKeys| == |Elements(p.sshKeys)|
    && forall i | 0 <= i < |opts.sshKeys| ::
         Some(opts.sshKeys[i].fingerprint) == Fingerprint(codec, Elements(p.sshKeys)[i])
  }

  lemma PreparedIsResolvable(opts: CreateOpts, p: ServerParameters, c: Catalogue)
    requires Prepared(opts, p, c)
    ensures Resolvable(p, c)
  {
  }

  /** Server.IsUpToDate. */
  predicate IsUpToDate(target: ServerParameters, recorded: Option<ServerParameters>) {
    match recorded
    case None => false
    case Some(current) => target.labels == current.labels && target.powerOn == current.powerOn
  }

  /** Up to date means that the status differs from the spec at most where Update changes nothing. */
  lemma UpToDateMeansRecorded(target: ServerParameters, current: ServerParameters)
    ensures IsUpToDate(target, Some(current))
            <==> current == current.(labels := target.labels, powerOn := target.powerOn)
  {
  }

  function Stored(p: ServerParameters): ServerParameters {
    p.(labels := StoredLabels(p.labels))
  }

  /** What Update records: the two fields it assigns, over the parameters recorded before. */
  function Recorded(current: ServerParameters, target: ServerParameters): ServerParameters {
    Stored(current.(labels := target.labels, powerOn := target.powerOn))
  }

  /** The server an Update steers to: labels always, the power if recorded and wanted power differ. */
  function Goal(s: Server, current: ServerParameters, target: ServerParameters, labels: LabelMap): Server {
    s.(labels := labels, power := if current.powerOn != target.powerOn then target.powerOn else s.power)
  }

  /** What an Update may leave behind when it stops early: labels first, power last. */
  ghost predicate Halfway(s: Server, left: Server, goal: Server) {
    left == s || left == s.(labels := goal.labels) || left == goal
  }

  ghost predicate Created(c: Catalogue, codec: Codec, cr: ServerView, w: ServerWorld, w': ServerWorld,
                          id: int, opts: CreateOpts, saved: bool) {
    && w.next <= id && Requests(opts, cr.spec, c, codec)
    && w'.spec == w.spec && w'.next == id + 1
    && w'.cloud == w.cloud[id := Server(opts, opts.labels, opts.startAfterCreate)]
    && w'.status == if saved then Status(id, Some(Stored(cr.spec))) else w.status
  }

  /** The machine is started by startAfterCreate, but powerOn is what gets recorded. */
  ghost predicate CreateRel(c: Catalogue, codec: Codec, cr: ServerView, w: ServerWorld, w': ServerWorld, out: Outcome) {
    var odd := cr.spec.startAfterCreate != cr.spec.powerOn;
    if out == Ok then
      w'.dirty == Doubt(false, odd) && exists id, opts :: Created(c, codec, cr, w, w', id, opts, true)
    else
      w' == w || (w'.dirty == w.dirty.(rest := w.dirty.rest || odd)
                  && exists id, opts, saved :: Created(c, codec, cr, w, w', id, opts, saved))
  }

  /** The spec wants another power state than the one recorded. */
  predicate Switches(cr: ServerView) {
    cr.status.params.Some? && cr.status.params.value.powerOn != cr.spec.powerOn
  }

  /** The server is now `left`; the power has changed only if the Update `asked` for that. */
  ghost predicate Moved(cr: ServerView, w: ServerWorld, w': ServerWorld, labels: LabelMap, left: Server,
                        asked: bool, saved: bool) {
    && cr.status.id in w.cloud && cr.status.params.Some?
    && var s := w.cloud[cr.status.id];
    && var goal := Goal(s, cr.status.params.value, cr.spec, labels);
    && LabelsAgree(labels, cr.spec.labels)
    && Halfway(s, left, goal) && (asked ==> Switches(cr)) && (!asked ==> left.power == s.power)
    && (saved ==> left == goal && asked == Switches(cr))
    && w'.spec == w.spec && w'.cloud == w.cloud[cr.status.id := left] && w'.next == w.next
    && w'.status == if saved then Status(cr.status.id, Some(Recorded(cr.status.params.value, cr.spec))) else w.status
  }

  ghost predicate UpdateRel(cr: ServerView, w: ServerWorld, w': ServerWorld, out: Outcome) {
    && (cr.status.id !in w.cloud || cr.status.params.None? ==> out != Ok && w' == w)
    && if out == Ok then
         && w'.dirty == Doubt(false, w.dirty.rest && !Switches(cr))
         && exists labels, left :: Moved(cr, w, w', labels, left, Switches(cr), true)
       else
         || w' == w
         || exists labels, left, asked, saved ::
              && Moved(cr, w, w', labels, left, asked, saved)
              && w'.dirty == Doubt(true, w.dirty.rest || asked)
  }

  ghost predicate DeleteRel(cr: ServerView, w: ServerWorld, w': ServerWorld, out: Outcome) {
    || (out != Ok && w' == w)
    || (cr.status.id in w.cloud && w' == w.(cloud := w.cloud - {cr.status.id}))
  }

  ghost predicate Next(c: Catalogue, codec: Codec, w: ServerWorld, w': ServerWorld) {
    || w' == w.(spec := w'.spec)
    || (exists out :: CreateRel(c, codec, w.Loaded(), w, w', out))
    || (exists out :: UpdateRel(w.Loaded(), w, w', out))
    || (exists out :: DeleteRel(w.Loaded(), w, w', out))
  }

  ghost predicate Initial(w: ServerWorld) {
    w.IdsInUse() && w.status == Status(0, None) && w.dirty == Doubt(false, false)
  }

  ghost predicate IsRun(c: Catalogue, codec: Codec, run: seq<ServerWorld>) {
    && run != [] && Initial(run[0])
    && forall i | 0 <= i < |run| - 1 :: Next(c, codec, run[i], run[i + 1])
  }

  ghost predicate Inv(w: ServerWorld) {
    && w.IdsInUse()
    && (w.Tracked() && !w.dirty.labels ==> LabelsAgree(w.Tracks().labels, w.status.params.value.labels))
    && (w.Tracked() && !w.dirty.rest ==> w.Tracks().power == w.status.params.value.powerOn)
  }

  lemma CreateKeepsInv(c: Catalogue, codec: Codec, w: ServerWorld, w': ServerWorld, out: Outcome)
    requires Inv(w) && CreateRel(c, codec, w.Loaded(), w, w', out)
    ensures Inv(w')
  {
  }

  lemma UpdateKeepsInv(w: ServerWorld, w': ServerWorld, out: Outcome)
    requires Inv(w) && UpdateRel(w.Loaded(), w, w', out)
    ensures Inv(w')
  {
  }

  lemma InvKept(c: Catalogue, codec: Codec, w: ServerWorld, w': ServerWorld)
    requires Inv(w) && Next(c, codec, w, w')
    ensures Inv(w')
  {
    if out :| UpdateRel(w.Loaded(), w, w', out) {
      UpdateKeepsInv(w, w', out);
    } else if out :| CreateRel(c, codec, w.Loaded(), w, w', out) {
      CreateKeepsInv(c, codec, w, w', out);
    }
  }

  /** Safety over runs: where there is no doubt about them, power and labels of the server are the
      recorded ones, across all label-only and power-changing Updates, failures and edits. */
  lemma RunSafety(c: Catalogue, codec: Codec, run: seq<ServerWorld>, i: nat)
    requires IsRun(c, codec, run) && i < |run|
    ensures Inv(run[i])
  {
    forall w, w' | Inv(w) && Next(c, codec, w, w')
      ensures Inv(w')
    {
      InvKept(c, codec, w, w');
    }
    Always(run, w => Inv(w), (w, w') => Next(c, codec, w, w'), i);
  }

  /** An up-to-date report without doubt means the server runs, or is off, as the spec says. */
  lemma UpToDateMeansPowerAsWanted(c: Catalogue, codec: Codec, run: seq<ServerWorld>, i: nat)
    requires IsRun(c, codec, run) && i < |run|
    requires run[i].Tracked() && IsUpToDate(run[i].spec, run[i].status.params)
    ensures !run[i].dirty.rest ==> run[i].Tracks().power == run[i].spec.powerOn
    ensures !run[i].dirty.labels ==> LabelsAgree(run[i].Tracks().labels, run[i].spec.labels)
  {
    RunSafety(c, codec, run, i);
  }

  /** A successful Update that changes the power ends every doubt, whatever the power was before; one
      that finds recorded and wanted power equal leaves power and doubt about it alone. */
  lemma UpdateSettlesPower(w: ServerWorld, w': ServerWorld)
    requires UpdateRel(w.Loaded(), w, w', Ok)
    ensures w'.Tracked() && w'.status.params.value.powerOn == w.spec.powerOn
    ensures LabelsAgree(w'.Tracks().labels, w.spec.labels) && !w'.dirty.labels
    ensures if w.status.params.value.powerOn != w.spec.powerOn then
              w'.Tracks().power == w.spec.powerOn && !w'.dirty.rest
            else
              w'.Tracks().power == w.Tracks().power && w'.dirty.rest == w.dirty.rest
    ensures IsUpToDate(w'.spec, w'.status.params) <==> w.spec.labels != Some(map[])
    ensures w'.Tracks().opts == w.Tracks().opts
  {
  }

  /** Observe, when its lookup works: the server exists and is up to date. */
  predicate UpToDate(w: ServerWorld) {
    w.status.id in w.cloud && IsUpToDate(w.spec, w.status.params)
  }

  /** A pass without faults succeeds: there is nothing to do or only something to change, or there is
      no server yet and it can be requested. */
  ghost predicate Passable(c: Catalogue, codec: Codec, w: ServerWorld) {
    || UpToDate(w)
    || if w.status.id in w.cloud then w.status.params.Some? else Orderable(w.spec, c, codec)
  }

  /** The doubts that a pass cannot end: about a power state that the spec does not change, or that of
      a new server which is not started as it should be. */
  predicate StaysDoubtful(w: ServerWorld) {
    if w.status.id in w.cloud then w.dirty.rest && !Switches(w.Loaded())
    else w.spec.startAfterCreate != w.spec.powerOn
  }

  /** What a pass of the reconciler that reports no error leaves behind. */
  ghost predicate Satisfied(w: ServerWorld) {
    && w.Tracked()
    && (w.spec.labels != Some(map[]) ==> IsUpToDate(w.spec, w.status.params))
    && (!w.dirty.labels ==> LabelsAgree(w.Tracks().labels, w.spec.labels))
    && (!w.dirty.rest ==> w.Tracks().power == w.spec.powerOn)
  }

  /** Whichever way an error-free pass goes, the resource is satisfied afterwards; if there was
      something to do, doubt about the labels has ended, and so has doubt about the power where a
      pass can end it. */
  lemma PassSatisfies(c: Catalogue, codec: Codec, w: ServerWorld, w': ServerWorld)
    requires Inv(w)
    requires || (w' == w && UpToDate(w))
             || (w.status.id !in w.cloud && CreateRel(c, codec, w.Loaded(), w, w', Ok))
             || UpdateRel(w.Loaded(), w, w', Ok)
    ensures Satisfied(w')
    ensures UpToDate(w) || (!w'.dirty.labels && (w'.dirty.rest ==> StaysDoubtful(w)))
  {
  }

  /** The power of a new server agrees with what is recorded exactly when startAfterCreate and powerOn
      agree; otherwise the server counts as up to date all the same. */
  lemma CreationPower(c: Catalogue, codec: Codec, w: ServerWorld, w': ServerWorld)
    requires CreateRel(c, codec, w.Loaded(), w, w', Ok)
    ensures w'.Tracked()
    ensures w'.Tracks().power == w'.status.params.value.powerOn <==> w.spec.startAfterCreate == w.spec.powerOn
    ensures IsUpToDate(w'.spec, w'.status.params) <==> w.spec.labels != Some(map[])
  {
  }

  /** A request for whatever can be requested. */
  lemma RequestExists(c: Catalogue, codec: Codec, p: ServerParameters) returns (opts: CreateOpts)
    requires Orderable(p, c, codec)
    ensures Requests(opts, p, c, codec)
  {
    var keys, labels := Elements(p.sshKeys), Overlay(Defaults(0), [Entries(p.labels)]);
    assert LabelsAgree(labels, p.labels);
    var sshKeys := seq(|keys|, i requires 0 <= i < |keys| =>
                                 SSHKey(i, Fingerprint(codec, keys[i]).value, keys[i], labels));
    opts := CreateOpts(
      p.autoMount, p.datacenter, if p.datacenter.Some? then None else p.location,
      FoundAll(FirewallKind, Elements(p.firewallIDs)), (p.image, p.architecture), labels,
      FoundAll(NetworkKind, Elements(p.networkIDs)),
      if p.placementGroupID.Some? then Some(Found(GroupKind, p.placementGroupID.value)) else None,
      p.enableIPv4, p.enableIPv6, p.serverType, sshKeys, p.startAfterCreate, p.userData,
      FoundAll(VolumeKind, Elements(p.volumeIDs)));
  }

  function FoundAll(kind: Kind, ids: seq<int>): (found: seq<Found>)
    ensures |found| == |ids| && forall i | 0 <= i < |ids| :: found[i] == Found(kind, ids[i])
  {
    seq(|ids|, i requires 0 <= i < |ids| => Found(kind, ids[i]))
  }

  /** Every server that can be requested with startAfterCreate unlike powerOn is created in the wrong
      power state and counts as up to date at once. */
  lemma CreatedInWrongPower(c: Catalogue, codec: Codec, p: ServerParameters) returns (run: seq<ServerWorld>)
    requires Orderable(p, c, codec) && p.startAfterCreate != p.powerOn && p.labels != Some(map[])
    ensures IsRun(c, codec, run) && |run| == 2
    ensures var last := run[1];
            && last.spec == p && last.Tracked() && IsUpToDate(last.spec, last.status.params)
            && last.Tracks().power != last.spec.powerOn
  {
    var opts := RequestExists(c, codec, p);
    var w0: ServerWorld := World(p, Status(0, None), map[], 1, Doubt(false, false));
    var server := Server(opts, opts.labels, opts.startAfterCreate);
    var w1 := World(p, Status(1, Some(Stored(p))), map[1 := server], 2, Doubt(false, true));
    assert Created(c, codec, w0.Loaded(), w0, w1, 1, opts, true);
    assert CreateRel(c, codec, w0.Loaded(), w0, w1, Ok);
    run := [w0, w1];
    assert forall i | 0 <= i < 1 :: Next(c, codec, run[i], run[i + 1]);
  }

  // --- what holds in doubt, too -------------------------------------------------

  /** The server was requested as the parameters say, with some labels of that time. */
  ghost predicate OrderedAs(opts: CreateOpts, p: ServerParameters, c: Catalogue, codec: Codec) {
    exists labels :: Requests(opts, p.(labels := labels), c, codec)
  }

  ghost predicate OrderKept(c: Catalogue, codec: Codec, w: ServerWorld) {
    w.IdsInUse() && (w.Tracked() ==> OrderedAs(w.Tracks().opts, w.status.params.value, c, codec))
  }

  lemma OrderSurvivesRecording(opts: CreateOpts, p: ServerParameters, target: ServerParameters,
                               c: Catalogue, codec: Codec)
    requires OrderedAs(opts, p, c, codec)
    ensures OrderedAs(opts, Recorded(p, target), c, codec)
  {
    var labels :| Requests(opts, p.(labels := labels), c, codec);
    assert Requests(opts, Recorded(p, target).(labels := labels), c, codec);
  }

  lemma OrderStep(c: Catalogue, codec: Codec, w: ServerWorld, w': ServerWorld)
    requires OrderKept(c, codec, w) && Next(c, codec, w, w')
    ensures OrderKept(c, codec, w')
  {
    if out :| CreateRel(c, codec, w.Loaded(), w, w', out) {
      CreateKeepsOrder(c, codec, w, w', out);
    } else if out :| UpdateRel(w.Loaded(), w, w', out) {
      UpdateKeepsOrder(c, codec, w, w', out);
    }
  }

  lemma CreateKeepsOrder(c: Catalogue, codec: Codec, w: ServerWorld, w': ServerWorld, out: Outcome)
    requires OrderKept(c, codec, w) && CreateRel(c, codec, w.Loaded(), w, w', out)
    ensures OrderKept(c, codec, w')
  {
    if w' != w {
      var id, opts, saved :| Created(c, codec, w.Loaded(), w, w', id, opts, saved);
      CreatedKeepsOrder(c, codec, w, w', id, opts, saved);
    }
  }

  lemma CreatedKeepsOrder(c: Catalogue, codec: Codec, w: ServerWorld, w': ServerWorld,
                          id: int, opts: CreateOpts, saved: bool)
    requires OrderKept(c, codec, w) && Created(c, codec, w.Loaded(), w, w', id, opts, saved)
    ensures OrderKept(c, codec, w')
  {
    assert w.Loaded().spec == w.spec;
    OrderIsRecorded(opts, w.spec, c, codec);
  }

  lemma OrderIsRecorded(opts: CreateOpts, p: ServerParameters, c: Catalogue, codec: Codec)
    requires Requests(opts, p, c, codec)
    ensures OrderedAs(opts, Stored(p), c, codec)
  {
    assert Stored(p).(labels := p.labels) == p;
    assert Requests(opts, Stored(p).(labels := p.labels), c, codec);
  }

  lemma UpdateKeepsOrder(c: Catalogue, codec: Codec, w: ServerWorld, w': ServerWorld, out: Outcome)
    requires OrderKept(c, codec, w) && UpdateRel(w.Loaded(), w, w', out)
    ensures OrderKept(c, codec, w')
  {
    if w' != w {
      OrderSurvivesRecording(w.Tracks().opts, w.status.params.value, w.spec, c, codec);
      assert w'.Tracks().opts == w.Tracks().opts;
    }
  }

  /** In every state of every run, whatever failed and however the spec was edited, the server is the one
      that the recorded image, type, place, ids, keys and user data asked for. */
  lemma OrderedAsRecorded(c: Catalogue, codec: Codec, run: seq<ServerWorld>, i: nat)
    requires IsRun(c, codec, run) && i < |run| && run[i].Tracked()
    ensures OrderedAs(run[i].Tracks().opts, run[i].status.params.value, c, codec)
  {
    forall w, w' | OrderKept(c, codec, w) && Next(c, codec, w, w')
      ensures OrderKept(c, codec, w')
    {
      OrderStep(c, codec, w, w');
    }
    Always(run, w => OrderKept(c, codec, w), (w, w') => Next(c, codec, w, w'), i);
  }

  /** Both statuses record parameters, alike in all that Update does not touch. */
  ghost predicate SameCreation(s: Status<ServerParameters>, s': Status<ServerParameters>) {
    && s.params.Some? && s'.params.Some?
    && var p, p' := s.params.value, s'.params.value;
    p' == p.(labels := p'.labels, powerOn := p'.powerOn)
  }

  lemma CreationStep(c: Catalogue, codec: Codec, w: ServerWorld, w': ServerWorld)
    requires w.IdsInUse() && Next(c, codec, w, w')
    ensures w.status.id <= w'.status.id
    ensures w.status.params.Some? && w'.status.id == w.status.id ==> SameCreation(w.status, w'.status)
  {
    if out :| UpdateRel(w.Loaded(), w, w', out) {
      UpdateKeepsCreation(w, w', out);
    }
  }

  lemma UpdateKeepsCreation(w: ServerWorld, w': ServerWorld, out: Outcome)
    requires UpdateRel(w.Loaded(), w, w', out)
    ensures w'.status.id == w.status.id
    ensures w.status.params.Some? ==> SameCreation(w.status, w'.status)
  {
  }

  /** As long as the resource names the same server, all that it records beside labels and power stays
      as it was sent at creation. */
  lemma {:induction false} CreationIsFrozen(c: Catalogue, codec: Codec, run: seq<ServerWorld>, i: nat, j: nat)
    requires IsRun(c, codec, run) && i <= j < |run|
    ensures run[i].status.id <= run[j].status.id
    ensures run[i].status.params.Some? && run[j].status.id == run[i].status.id ==>
              SameCreation(run[i].status, run[j].status)
    decreases j
  {
    if i < j {
      var k := j - 1;
      CreationIsFrozen(c, codec, run, i, k);
      RunSafety(c, codec, run, k);
      assert Next(c, codec, run[k], run[k + 1]);
      CreationStep(c, codec, run[k], run[j]);
    }
  }

  // --- failed Updates that are taken back ---------------------------------------

  /** The server has what the parameters ask for. */
  ghost predicate Has(s: Server, p: ServerParameters) {
    LabelsAgree(s.labels, p.labels) && s.power == p.powerOn
  }

  /** Whenever an Update does not succeed and the spec is then taken back to `recorded`, a report of up
      to date can be trusted. */
  ghost predicate CanBeTakenBack(w: ServerWorld, recorded: ServerParameters) {
    forall out, w' | UpdateRel(w.Loaded(), w, w', out) && out != Ok
                     && w'.Tracked() && IsUpToDate(recorded, w'.status.params) ::
      Has(w'.Tracks(), recorded)
  }

  /** From a clean state those edits can be taken back after a failure that keep power and, in effect,
      labels, and no others. */
  lemma FailedUpdateCanBeTakenBack(w: ServerWorld, recorded: ServerParameters)
    requires w.Tracked() && w.status.params == Some(recorded) && Has(w.Tracks(), recorded)
    ensures CanBeTakenBack(w, recorded) <==>
            && w.spec.powerOn == recorded.powerOn
            && SameBesideDefaults(Entries(w.spec.labels), Entries(recorded.labels))
  {
    AgreeingWithBoth(w.spec.labels, recorded.labels);
    if CanBeTakenBack(w, recorded) {
      forall labels | LabelsAgree(labels, w.spec.labels)
        ensures LabelsAgree(labels, recorded.labels) && w.spec.powerOn == recorded.powerOn
      {
        var left, asked := Goal(w.Tracks(), recorded, w.spec, labels), Switches(w.Loaded());
        var w' := w.(cloud := w.cloud[w.status.id := left], dirty := Doubt(true, w.dirty.rest || asked));
        assert Moved(w.Loaded(), w, w', labels, left, asked, false);
        assert UpdateRel(w.Loaded(), w, w', Failed);
      }
      assert LabelsAgree(Overlay(Defaults(0), [Entries(w.spec.labels)]), w.spec.labels);
    }
  }
}
