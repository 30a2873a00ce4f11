/** What the Network controller does to the world, and what every run of it keeps. */
module NetworkProtocol {
  import opened Wrappers
  import opened Labels
  import opened Cidr
  import opened Reconcile

  datatype NetworkRoute = NetworkRoute(destination: string, gateway: string)

  datatype NetworkSubnet = NetworkSubnet(kind: string, ipRange: string, networkZone: string, vSwitchID: int)

  datatype NetworkParameters = NetworkParameters(
    ipRange: string,
    subnets: Option<seq<NetworkSubnet>>,
    routes: Option<seq<NetworkRoute>>,
    labels: Option<LabelMap>,
    exposeRoutesToVSwitch: bool)

  /** hcloud.NetworkSubnet and hcloud.NetworkRoute. */
  datatype SdkSubnet = SdkSubnet(kind: string, ipRange: IPNet, networkZone: string, vSwitchID: int)
  datatype SdkRoute = SdkRoute(destination: IPNet, gateway: Option<Address>)

  /** A network in the cloud. */
  datatype CloudNetwork = CloudNetwork(
    labels: LabelMap, expose: bool, ipRange: IPNet, subnets: seq<SdkSubnet>, routes: seq<SdkRoute>)

  type NetworkWorld = World<NetworkParameters, CloudNetwork, Doubt>
  type NetworkView = View<NetworkParameters>

  /** net.ParseCIDR and net.ParseIP; the latter reports no error but gives a nil address. */
  datatype Texts = Texts(cidr: Reader, ip: string -> Option<Address>)

  function ReadRange(t: Texts, text: string): Option<IPNet> {
    match t.cidr(text)
    case None => None
    case Some(notation) => Some(Network(notation))
  }

  function ReadSubnet(t: Texts, s: NetworkSubnet): Option<SdkSubnet> {
    match ReadRange(t, s.ipRange)
    case None => None
    case Some(ipRange) => Some(SdkSubnet(s.kind, ipRange, s.networkZone, s.vSwitchID))
  }

  function ReadRoute(t: Texts, r: NetworkRoute): Option<SdkRoute> {
    match ReadRange(t, r.destination)
    case None => None
    case Some(destination) => Some(SdkRoute(destination, t.ip(r.gateway)))
  }

  function SubnetReader(t: Texts): NetworkSubnet -> Option<SdkSubnet> {
    s => ReadSubnet(t, s)
  }

  function RouteReader(t: Texts): NetworkRoute -> Option<SdkRoute> {
    r => ReadRoute(t, r)
  }

  /** The subnets and routes of the cloud network are those of the parameters. */
  ghost predicate HasTopologyOf(t: Texts, n: CloudNetwork, p: NetworkParameters) {
    && Traverse(SubnetReader(t), Elements(p.subnets)) == Some(n.subnets)
    && Traverse(RouteReader(t), Elements(p.routes)) == Some(n.routes)
  }

  /** Every CIDR text of the parameters parses. */
  ghost predicate AllParse(t: Texts, p: NetworkParameters) {
    && t.cidr(p.ipRange).Some?
    && (forall s | s in Elements(p.subnets) :: t.cidr(s.ipRange).Some?)
    && (forall r | r in Elements(p.routes) :: t.cidr(r.destination).Some?)
  }

  /** Reading the topology is all or nothing, and keeps number and order. */
  lemma TopologyIsAllOrNothing(t: Texts, p: NetworkParameters)
    ensures AllParse(t, p) <==>
              && ReadRange(t, p.ipRange).Some?
              && Traverse(SubnetReader(t), Elements(p.subnets)).Some?
              && Traverse(RouteReader(t), Elements(p.routes)).Some?
    ensures forall n | HasTopologyOf(t, n, p) ::
              |n.subnets| == |Elements(p.subnets)| && |n.routes| == |Elements(p.routes)|
  {
    var subnets, routes := Elements(p.subnets), Elements(p.routes);
    TraverseIsAllOrNothing(SubnetReader(t), subnets);
    TraverseIsAllOrNothing(RouteReader(t), routes);
    assert (forall s | s in subnets :: t.cidr(s.ipRange).Some?)
           <==> forall i | 0 <= i < |subnets| :: SubnetReader(t)(subnets[i]).Some?;
    assert (forall r | r in routes :: t.cidr(r.destination).Some?)
           <==> forall i | 0 <= i < |routes| :: RouteReader(t)(routes[i]).Some?;
  }

  /** The range that is read from a text has exactly the addresses that the text covers. */
  ghost predicate Spans(t: Texts, n: IPNet, text: string) {
    t.cidr(text).Some? && forall a: Address :: n.Contains(a) <==> t.cidr(text).value.Covers(a)
  }

  lemma RangeMeaning(t: Texts, text: string)
    ensures ReadRange(t, text).Some? <==> t.cidr(text).Some?
    ensures ReadRange(t, text).Some? ==> Spans(t, ReadRange(t, text).value, text)
  {
    if t.cidr(text).Some? {
      forall a: Address
        ensures Network(t.cidr(text).value).Contains(a) <==> t.cidr(text).value.Covers(a)
      {
        MaskingKeepsMeaning(t.cidr(text).value, a);
      }
    }
  }

  /** What a network with the topology of the parameters has, one by one and in order: each route goes to
      the addresses its text covers by the gateway its text names, and each subnet has the addresses its
      text covers, in the zone and with the kind and switch of the parameters. */
  lemma TopologyMeaning(t: Texts, n: CloudNetwork, p: NetworkParameters)
    requires HasTopologyOf(t, n, p)
    ensures var subnets := Elements(p.subnets);
            && |n.subnets| == |subnets|
            && forall i | 0 <= i < |subnets| ::
                 && n.subnets[i].kind == subnets[i].kind && n.subnets[i].networkZone == subnets[i].networkZone
                 && n.subnets[i].vSwitchID == subnets[i].vSwitchID
                 && Spans(t, n.subnets[i].ipRange, subnets[i].ipRange)
    ensures var routes := Elements(p.routes);
            && |n.routes| == |routes|
            && forall i | 0 <= i < |routes| ::
                 && n.routes[i].gateway == t.ip(routes[i].gateway)
                 && Spans(t, n.routes[i].destination, routes[i].destination)
  {
    var subnets, routes := Elements(p.subnets), Elements(p.routes);
    TraverseIsAllOrNothing(SubnetReader(t), subnets);
    TraverseIsAllOrNothing(RouteReader(t), routes);
    forall i | 0 <= i < |subnets|
      ensures n.subnets[i] == ReadSubnet(t, subnets[i]).value && Spans(t, n.subnets[i].ipRange, subnets[i].ipRange)
    {
      assert SubnetReader(t)(subnets[i]).Some?;
      RangeMeaning(t, subnets[i].ipRange);
    }
    forall i | 0 <= i < |routes|
      ensures n.routes[i] == ReadRoute(t, routes[i]).value
      ensures Spans(t, n.routes[i].destination, routes[i].destination)
    {
      assert RouteReader(t)(routes[i]).Some?;
      RangeMeaning(t, routes[i].destination);
    }
  }

  /** Network.IsUpToDate: subnets and routes are not compared. */
  predicate IsUpToDate(target: NetworkParameters, recorded: Option<NetworkParameters>) {
    match recorded
    case None => false
    case Some(current) =>
      && target.exposeRoutesToVSwitch == current.exposeRoutesToVSwitch
      && target.labels == current.labels
      && target.ipRange == current.ipRange
  }

  /** Up to date means that the status records the spec, except for subnets and routes. */
  lemma UpToDateMeansRecorded(target: NetworkParameters, current: NetworkParameters)
    ensures IsUpToDate(target, Some(current))
            <==> current == target.(subnets := current.subnets, routes := current.routes)
  {
  }

  function Stored(p: NetworkParameters): NetworkParameters {
    p.(labels := StoredLabels(p.labels))
  }

  /** What Update records: the target, except for routes and subnets. */
  function Recorded(current: NetworkParameters, target: NetworkParameters): NetworkParameters {
    Stored(target.(routes := current.routes, subnets := current.subnets))
  }

  /** What one Network.Update call asks for. */
  function Flagged(n: CloudNetwork, target: NetworkParameters, labels: LabelMap): CloudNetwork {
    n.(labels := labels, expose := target.exposeRoutesToVSwitch)
  }

  ghost predicate Created(t: Texts, cr: NetworkView, w: NetworkWorld, w': NetworkWorld,
                          id: int, n: CloudNetwork, saved: bool) {
    && w.next <= id
    && LabelsAgree(n.labels, cr.spec.labels) && n.expose == cr.spec.exposeRoutesToVSwitch
    && ReadRange(t, cr.spec.ipRange) == Some(n.ipRange) && HasTopologyOf(t, n, cr.spec)
    && w'.spec == w.spec && w'.cloud == w.cloud[id := n] && w'.next == id + 1
    && w'.status == if saved then Status(id, Some(Stored(cr.spec))) else w.status
  }

  /** A created network has the addresses that the range of the spec covers. */
  lemma CreatedSpans(t: Texts, cr: NetworkView, w: NetworkWorld, w': NetworkWorld,
                     id: int, n: CloudNetwork, saved: bool)
    requires Created(t, cr, w, w', id, n, saved)
    ensures Spans(t, n.ipRange, cr.spec.ipRange)
  {
    RangeMeaning(t, cr.spec.ipRange);
  }

  ghost predicate CreateRel(t: Texts, cr: NetworkView, w: NetworkWorld, w': NetworkWorld, out: Outcome) {
    && (!AllParse(t, cr.spec) ==> out == Failed && w' == w)
    && if out == Ok then
         w'.dirty == Doubt(false, false) && exists id, n :: Created(t, cr, w, w', id, n, true)
       else
         w' == w || (w'.dirty == w.dirty && exists id, n, saved :: Created(t, cr, w, w', id, n, saved))
  }

  /** The spec names another range than the one recorded. */
  predicate Renumbers(cr: NetworkView) {
    cr.status.params.Some? && cr.spec.ipRange != cr.status.params.value.ipRange
  }

  /** An Update leaves the network as it was, or with the new labels and flag, or with a new range in
      addition if it `asked` for one, which takes a range that parses; the spec gets recorded only
      when everything it could change is in place. */
  ghost predicate Moved(t: Texts, cr: NetworkView, w: NetworkWorld, w': NetworkWorld,
                        labels: LabelMap, left: CloudNetwork, asked: bool, saved: bool) {
    && cr.status.id in w.cloud && cr.status.params.Some?
    && var n, current, range := w.cloud[cr.status.id], cr.status.params.value, ReadRange(t, cr.spec.ipRange);
    && var flagged := Flagged(n, cr.spec, labels);
    && LabelsAgree(labels, cr.spec.labels)
    && (asked ==> Renumbers(cr) && range.Some?)
    && (left == n || left == flagged || (asked && left == flagged.(ipRange := range.value)))
    && (saved ==> asked == Renumbers(cr) && left == if asked then flagged.(ipRange := range.value) else flagged)
    && w'.spec == w.spec && w'.cloud == w.cloud[cr.status.id := left] && w'.next == w.next
    && w'.status == if saved then Status(cr.status.id, Some(Recorded(current, cr.spec))) else w.status
  }

  ghost predicate UpdateRel(t: Texts, cr: NetworkView, w: NetworkWorld, w': NetworkWorld, out: Outcome) {
    && (cr.status.id !in w.cloud || cr.status.params.None? ==> out != Ok && w' == w)
    && if out == Ok then
         && w'.dirty == Doubt(false, w.dirty.rest && !Renumbers(cr))
         && exists labels, left :: Moved(t, cr, w, w', labels, left, Renumbers(cr), true)
       else
         || w' == w
         || exists labels, left, asked, saved ::
              && Moved(t, cr, w, w', labels, left, asked, saved)
              && w'.dirty == Doubt(true, w.dirty.rest || asked)
  }

  ghost predicate DeleteRel(cr: NetworkView, w: NetworkWorld, w': NetworkWorld, out: Outcome) {
    || (out != Ok && w' == w)
    || (cr.status.id in w.cloud && w' == w.(cloud := w.cloud - {cr.status.id}))
  }

  ghost predicate Next(t: Texts, w: NetworkWorld, w': NetworkWorld) {
    || w' == w.(spec := w'.spec)
    || (exists out :: CreateRel(t, w.Loaded(), w, w', out))
    || (exists out :: UpdateRel(t, w.Loaded(), w, w', out))
    || (exists out :: DeleteRel(w.Loaded(), w, w', out))
  }

  ghost predicate Initial(w: NetworkWorld) {
    w.IdsInUse() && w.status == Status(0, None) && w.dirty == Doubt(false, false)
  }

  ghost predicate IsRun(t: Texts, run: seq<NetworkWorld>) {
    && run != [] && Initial(run[0])
    && forall i | 0 <= i < |run| - 1 :: Next(t, run[i], run[i + 1])
  }

  ghost predicate Inv(t: Texts, w: NetworkWorld) {
    && w.IdsInUse()
    && (w.Tracked() ==> HasTopologyOf(t, w.Tracks(), w.status.params.value))
    && (w.Tracked() && !w.dirty.labels ==>
          && LabelsAgree(w.Tracks().labels, w.status.params.value.labels)
          && w.Tracks().expose == w.status.params.value.exposeRoutesToVSwitch)
    && (w.Tracked() && !w.dirty.rest ==> ReadRange(t, w.status.params.value.ipRange) == Some(w.Tracks().ipRange))
  }

  lemma CreateKeepsInv(t: Texts, w: NetworkWorld, w': NetworkWorld, out: Outcome)
    requires Inv(t, w) && CreateRel(t, w.Loaded(), w, w', out)
    ensures Inv(t, w')
  {
  }

  lemma UpdateKeepsInv(t: Texts, w: NetworkWorld, w': NetworkWorld, out: Outcome)
    requires Inv(t, w) && UpdateRel(t, w.Loaded(), w, w', out)
    ensures Inv(t, w')
  {
  }

  lemma InvKept(t: Texts, w: NetworkWorld, w': NetworkWorld)
    requires Inv(t, w) && Next(t, w, w')
    ensures Inv(t, w')
  {
    if out :| UpdateRel(t, w.Loaded(), w, w', out) {
      UpdateKeepsInv(t, w, w', out);
    } else if out :| CreateRel(t, w.Loaded(), w, w', out) {
      CreateKeepsInv(t, w, w', out);
    }
  }

  /** Safety over runs: the recorded subnets and routes are the ones the cloud network has, in every
      state, whatever failed and however the spec was edited; labels, flag and range are the recorded
      ones where there is no doubt about them. */
  lemma RunSafety(t: Texts, run: seq<NetworkWorld>, i: nat)
    requires IsRun(t, run) && i < |run|
    ensures Inv(t, run[i])
  {
    forall w, w' | Inv(t, w) && Next(t, w, w')
      ensures Inv(t, w')
    {
      InvKept(t, w, w');
    }
    Always(run, w => Inv(t, w), (w, w') => Next(t, w, w'), i);
  }

  /** Both statuses record parameters, with the same subnets and routes. */
  ghost predicate SameTopology(s: Status<NetworkParameters>, s': Status<NetworkParameters>) {
    && s.params.Some? && s'.params.Some?
    && s.params.value.subnets == s'.params.value.subnets
    && s.params.value.routes == s'.params.value.routes
  }

  lemma TopologyStep(t: Texts, w: NetworkWorld, w': NetworkWorld)
    requires w.IdsInUse() && Next(t, w, w')
    ensures w.status.id <= w'.status.id
    ensures w.status.params.Some? && w'.status.id == w.status.id ==> SameTopology(w.status, w'.status)
  {
  }

  lemma IdsAlwaysInUse(t: Texts, run: seq<NetworkWorld>, i: nat)
    requires IsRun(t, run) && i < |run|
    ensures run[i].IdsInUse()
  {
    RunSafety(t, run, i);
  }

  /** As long as the resource names the same network, its recorded subnets and routes are frozen: they
      stay the ones sent at creation. */
  lemma {:induction false} TopologyIsFrozen(t: Texts, run: seq<NetworkWorld>, i: nat, j: nat)
    requires IsRun(t, run) && i <= j < |run|
    ensures run[i].status.id <= run[j].status.id
    ensures run[i].status.params.Some? && run[j].status.id == run[i].status.id ==>
              SameTopology(run[i].status, run[j].status)
    decreases j
  {
    if i < j {
      var k := j - 1;
      TopologyIsFrozen(t, run, i, k);
      IdsAlwaysInUse(t, run, k);
      assert Next(t, run[k], run[k + 1]);
      TopologyStep(t, run[k], run[j]);
    }
  }

  /** A successful Update makes labels and flag agree with the spec always, and the range too if there
      was no doubt about it or the spec changes it.  Subnets and routes stay.  The next Observe then
      reports up to date, unless the label map is empty but not nil. */
  lemma UpdateAgrees(t: Texts, run: seq<NetworkWorld>, i: nat, w': NetworkWorld)
    requires IsRun(t, run) && i < |run| && UpdateRel(t, run[i].Loaded(), run[i], w', Ok)
    ensures w'.Tracked() && !w'.dirty.labels
    ensures LabelsAgree(w'.Tracks().labels, run[i].spec.labels)
    ensures w'.Tracks().expose == run[i].spec.exposeRoutesToVSwitch
    ensures !run[i].dirty.rest || Renumbers(run[i].Loaded()) ==>
              !w'.dirty.rest && ReadRange(t, run[i].spec.ipRange) == Some(w'.Tracks().ipRange)
    ensures w'.Tracks().subnets == run[i].Tracks().subnets && w'.Tracks().routes == run[i].Tracks().routes
    ensures !Renumbers(run[i].Loaded()) ==> w'.Tracks().ipRange == run[i].Tracks().ipRange
    ensures var spec, before := run[i].spec, run[i].status.params.value;
            w'.status.params == Some(Stored(spec.(subnets := before.subnets, routes := before.routes)))
    ensures IsUpToDate(w'.spec, w'.status.params) <==> run[i].spec.labels != Some(map[])
  {
    RunSafety(t, run, i);
  }

  /** Observe, when its lookup works: the network exists and is up to date. */
  predicate UpToDate(w: NetworkWorld) {
    w.status.id in w.cloud && IsUpToDate(w.spec, w.status.params)
  }

  /** A pass without faults succeeds: there is nothing to do, or what it has to read parses. */
  ghost predicate Passable(t: Texts, w: NetworkWorld) {
    || UpToDate(w)
    || if w.status.id in w.cloud then Updatable(t, w.Loaded()) else AllParse(t, w.spec)
  }

  /** What an Update of an existing network takes: recorded parameters, and the same range as before
      or one that parses. */
  predicate Updatable(t: Texts, cr: NetworkView) {
    cr.status.params.Some? && (cr.spec.ipRange == cr.status.params.value.ipRange || t.cidr(cr.spec.ipRange).Some?)
  }

  /** What a pass of the reconciler that reports no error leaves behind. */
  ghost predicate Satisfied(t: Texts, w: NetworkWorld) {
    && w.Tracked()
    && (w.spec.labels != Some(map[]) ==> IsUpToDate(w.spec, w.status.params))
    && HasTopologyOf(t, w.Tracks(), w.status.params.value)
    && (!w.dirty.labels ==>
          LabelsAgree(w.Tracks().labels, w.spec.labels) && w.Tracks().expose == w.spec.exposeRoutesToVSwitch)
    && (!w.dirty.rest ==> ReadRange(t, w.spec.ipRange) == Some(w.Tracks().ipRange))
  }

  /** The one doubt that an Update cannot end: about a range that the spec does not change. */
  predicate StaysDoubtful(w: NetworkWorld) {
    w.dirty.rest && w.status.id in w.cloud && !Renumbers(w.Loaded())
  }

  /** Whichever way an error-free pass goes, the resource is satisfied afterwards; if there was
      something to do, doubt about labels and flag has ended, and so has doubt about the range unless
      the spec kept the recorded one. */
  lemma PassSatisfies(t: Texts, w: NetworkWorld, w': NetworkWorld)
    requires Inv(t, w)
    requires || (w' == w && UpToDate(w))
             || CreateRel(t, w.Loaded(), w, w', Ok)
             || UpdateRel(t, w.Loaded(), w, w', Ok)
    ensures Satisfied(t, w')
    ensures UpToDate(w) || (!w'.dirty.labels && (w'.dirty.rest ==> StaysDoubtful(w)))
  {
  }

  // --- subnets and routes -------------------------------------------------------

  ghost predicate ReadsAlike(t: Texts, a: NetworkParameters, b: NetworkParameters) {
    && Traverse(SubnetReader(t), Elements(a.subnets)) == Traverse(SubnetReader(t), Elements(b.subnets))
    && Traverse(RouteReader(t), Elements(a.routes)) == Traverse(RouteReader(t), Elements(b.routes))
  }

  /** The cloud network has the subnets and routes of the spec exactly when these read like the recorded
      ones, up to date or not, in doubt or not. */
  lemma TopologyAsWanted(t: Texts, run: seq<NetworkWorld>, i: nat)
    requires IsRun(t, run) && i < |run| && run[i].Tracked()
    ensures HasTopologyOf(t, run[i].Tracks(), run[i].spec)
            <==> ReadsAlike(t, run[i].spec, run[i].status.params.value)
  {
    RunSafety(t, run, i);
  }

  /** Edits of subnets and routes alone go unnoticed: the resource stays up to date, although the cloud
      network has the topology of the edited spec only if that reads like the recorded one. */
  lemma TopologyEditsGoUnnoticed(t: Texts, run: seq<NetworkWorld>, i: nat,
                                 subnets: Option<seq<NetworkSubnet>>, routes: Option<seq<NetworkRoute>>)
    requires IsRun(t, run) && i < |run| && run[i].Tracked() && IsUpToDate(run[i].spec, run[i].status.params)
    ensures var edited := run[i].(spec := run[i].spec.(subnets := subnets, routes := routes));
            && IsRun(t, run[..i + 1] + [edited])
            && IsUpToDate(edited.spec, edited.status.params)
            && (HasTopologyOf(t, edited.Tracks(), edited.spec)
                <==> ReadsAlike(t, edited.spec, edited.status.params.value))
  {
    RunSafety(t, run, i);
    var edited := run[i].(spec := run[i].spec.(subnets := subnets, routes := routes));
    var longer := run[..i + 1] + [edited];
    forall k | 0 <= k < |longer| - 1
      ensures Next(t, longer[k], longer[k + 1])
    {
      if k < i {
        assert Next(t, run[k], run[k + 1]);
      }
    }
  }

  function Plain(ipRange: string, expose: bool): NetworkParameters {
    NetworkParameters(ipRange, None, None, None, expose)
  }

  /** A network as Create makes it from plain parameters. */
  lemma CreatedPlain(t: Texts, ipRange: string) returns (w: NetworkWorld, w': NetworkWorld)
    requires t.cidr(ipRange).Some?
    ensures Initial(w) && Next(t, w, w') && w'.Tracked() && w'.dirty == Doubt(false, false)
    ensures w'.spec == Plain(ipRange, false) && w'.status.params == Some(w'.spec) && !w'.Tracks().expose
  {
    var labels: LabelMap := Overlay(Defaults(0), [map[]]);
    assert labels == Overlay(Defaults(0), [Entries<string, string>(None)]);
    assert LabelsAgree(labels, None);
    var p := Plain(ipRange, false);
    var n := CloudNetwork(labels, false, ReadRange(t, ipRange).value, [], []);
    w := World(p, Status(0, None), map[], 1, Doubt(false, false));
    w' := World(p, Status(1, Some(p)), map[1 := n], 2, Doubt(false, false));
    TopologyIsAllOrNothing(t, p);
    assert Created(t, w.Loaded(), w, w', 1, n, true);
    assert CreateRel(t, w.Loaded(), w, w', Ok);
  }

  /** A route added to the spec of a network without any: clean, up to date, and not what the cloud has,
      whatever the route is. */
  lemma AddedRouteIsMissing(t: Texts, ipRange: string, route: NetworkRoute) returns (run: seq<NetworkWorld>)
    requires t.cidr(ipRange).Some?
    ensures IsRun(t, run)
    ensures var last := run[|run| - 1];
            && last.Tracked() && last.dirty == Doubt(false, false) && last.spec.routes == Some([route])
            && IsUpToDate(last.spec, last.status.params) && !HasTopologyOf(t, last.Tracks(), last.spec)
  {
    var w0, w1 := CreatedPlain(t, ipRange);
    var w2 := w1.(spec := w1.spec.(routes := Some([route])));
    run := [w0, w1, w2];
    assert forall i | 0 <= i < 2 :: Next(t, run[i], run[i + 1]);
    TopologyAsWanted(t, run, 2);
    TraverseIsAllOrNothing(RouteReader(t), [route]);
  }

  // --- ranges that do not parse -------------------------------------------------

  /** An Update of a tracked network can succeed exactly when the spec keeps the recorded range or names
      one that parses. */
  lemma UpdateCanSucceed(t: Texts, w: NetworkWorld)
    requires w.Tracked()
    ensures (exists w' :: UpdateRel(t, w.Loaded(), w, w', Ok)) <==> Updatable(t, w.Loaded())
  {
    if Updatable(t, w.Loaded()) {
      var labels := Overlay(Defaults(0), [Entries(w.spec.labels)]);
      var flagged := Flagged(w.Tracks(), w.spec, labels);
      var renumbers := Renumbers(w.Loaded());
      var left := if renumbers then flagged.(ipRange := ReadRange(t, w.spec.ipRange).value) else flagged;
      assert LabelsAgree(labels, w.spec.labels);
      var w' := World(w.spec, Status(w.status.id, Some(Recorded(w.status.params.value, w.spec))),
                      w.cloud[w.status.id := left], w.next, Doubt(false, w.dirty.rest && !renumbers));
      assert Moved(t, w.Loaded(), w, w', labels, left, renumbers, true);
      assert UpdateRel(t, w.Loaded(), w, w', Ok);
    }
  }

  /** A range that does not parse is noticed only after the first cloud call: the Update fails, labels
      and flag are either as before or already the new ones, and no doubt arises about the range. */
  lemma BadRangeFailsLate(t: Texts, w: NetworkWorld, w': NetworkWorld, out: Outcome)
    requires UpdateRel(t, w.Loaded(), w, w', out) && w.Tracked() && !Updatable(t, w.Loaded())
    ensures out != Ok && w'.status == w.status && w'.dirty.rest == w.dirty.rest
    ensures w'.Tracks() == w.Tracks() ||
            exists labels ::
              LabelsAgree(labels, w.spec.labels) && w'.Tracks() == Flagged(w.Tracks(), w.spec, labels)
  {
  }

  /** An edit of the flag together with a range that does not parse: the Update fails, and the network
      has the new flag. */
  lemma BadRangeFailsAfterWriting(t: Texts, good: string, bad: string) returns (run: seq<NetworkWorld>)
    requires t.cidr(good).Some? && t.cidr(bad).None?
    ensures IsRun(t, run) && |run| == 4
    ensures var edited, last := run[2], run[3];
            && UpdateRel(t, edited.Loaded(), edited, last, Failed) && edited.Tracked() && last.Tracked()
            && !edited.Tracks().expose && last.Tracks().expose && last.status == edited.status
  {
    var w0, w1 := CreatedPlain(t, good);
    var w2 := w1.(spec := Plain(bad, true));
    var labels := Overlay(Defaults(0), [Entries<string, string>(None)]);
    assert LabelsAgree(labels, None);
    var flagged := Flagged(w2.Tracks(), w2.spec, labels);
    var w3 := w2.(cloud := w2.cloud[w2.status.id := flagged], dirty := Doubt(true, false));
    assert Moved(t, w2.Loaded(), w2, w3, labels, flagged, false, false);
    assert UpdateRel(t, w2.Loaded(), w2, w3, Failed);
    run := [w0, w1, w2, w3];
    assert forall i | 0 <= i < 3 :: Next(t, run[i], run[i + 1]);
  }

  // --- failed Updates that are taken back ---------------------------------------

  /** The network has the labels, flag and range that the parameters ask for. */
  ghost predicate Has(t: Texts, n: CloudNetwork, p: NetworkParameters) {
    && LabelsAgree(n.labels, p.labels) && n.expose == p.exposeRoutesToVSwitch
    && ReadRange(t, p.ipRange) == Some(n.ipRange)
  }

  /** Whenever an Update does not succeed and the spec is then taken back to `recorded`, a report of up
      to date can be trusted. */
  ghost predicate CanBeTakenBack(t: Texts, w: NetworkWorld, recorded: NetworkParameters) {
    forall out, w' | UpdateRel(t, w.Loaded(), w, w', out) && out != Ok
                     && w'.Tracked() && IsUpToDate(recorded, w'.status.params) ::
      Has(t, w'.Tracks(), recorded)
  }

  /** The edit keeps the flag and, in effect, the labels, and its range is the same network or does not
      parse at all. */
  ghost predicate Harmless(t: Texts, wanted: NetworkParameters, recorded: NetworkParameters) {
    && wanted.exposeRoutesToVSwitch == recorded.exposeRoutesToVSwitch
    && SameBesideDefaults(Entries(wanted.labels), Entries(recorded.labels))
    && (ReadRange(t, wanted.ipRange) == None || ReadRange(t, wanted.ipRange) == ReadRange(t, recorded.ipRange))
  }

  /** From a clean state exactly the harmless edits can be taken back after a failure. */
  lemma FailedUpdateCanBeTakenBack(t: Texts, w: NetworkWorld, recorded: NetworkParameters)
    requires w.Tracked() && w.status.params == Some(recorded) && Has(t, w.Tracks(), recorded)
    ensures CanBeTakenBack(t, w, recorded) <==> Harmless(t, w.spec, recorded)
  {
    AgreeingWithBoth(w.spec.labels, recorded.labels);
    if CanBeTakenBack(t, w, recorded) {
      forall labels | LabelsAgree(labels, w.spec.labels)
        ensures LabelsAgree(labels, recorded.labels)
        ensures w.spec.exposeRoutesToVSwitch == recorded.exposeRoutesToVSwitch
        ensures ReadRange(t, w.spec.ipRange).Some? ==> ReadRange(t, w.spec.ipRange) == ReadRange(t, recorded.ipRange)
      {
        var range, flagged := ReadRange(t, w.spec.ipRange), Flagged(w.Tracks(), w.spec, labels);
        var asked := Renumbers(w.Loaded()) && range.Some?;
        var left := if asked then flagged.(ipRange := range.value) else flagged;
        var w' := w.(cloud := w.cloud[w.status.id := left], dirty := Doubt(true, w.dirty.rest || asked));
        assert Moved(t, w.Loaded(), w, w', labels, left, asked, false);
        assert UpdateRel(t, w.Loaded(), w, w', Failed);
      }
      assert LabelsAgree(Overlay(Defaults(0), [Entries(w.spec.labels)]), w.spec.labels);
    }
  }
}
