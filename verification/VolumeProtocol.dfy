/** What the Volume controller does to the world, and what every run of it keeps. */
module VolumeProtocol {
  import opened Wrappers
  import opened Labels
  import opened Reconcile

  datatype VolumeParameters = VolumeParameters(
    size: int,
    automount: bool,
    format: string,
    labels: Option<LabelMap>,
    location: Option<string>,
    serverID: Option<int>)

  /** What a volume is requested with for good. */
  datatype VolumeOptions = VolumeOptions(automount: bool, format: string, location: Option<string>)

  /** A volume in the cloud. */
  datatype Volume = Volume(labels: LabelMap, size: int, server: Option<int>, options: VolumeOptions)

  type VolumeWorld = World<VolumeParameters, Volume, Doubt>
  type VolumeView = View<VolumeParameters>

  /** How recorded and wanted server ids are compared: true when they count as different. */
  type Comparison = (Option<int>, Option<int>) -> bool

  /** Different ids never pass for equal. */
  ghost predicate Sound(differ: Comparison) {
    forall a, b :: a != b ==> differ(a, b)
  }

  /** Comparing the pointers of a freshly loaded resource: only two nil pointers are equal. */
  predicate PointersDiffer(recorded: Option<int>, wanted: Option<int>) {
    recorded.Some? || wanted.Some?
  }

  /** Comparing what the pointers point to. */
  predicate ValuesDiffer(recorded: Option<int>, wanted: Option<int>) {
    recorded != wanted
  }

  /** Volume.IsUpToDate. */
  predicate IsUpToDate(differ: Comparison, target: VolumeParameters, recorded: Option<VolumeParameters>) {
    match recorded
    case None => false
    case Some(current) =>
      target.labels == current.labels && !differ(current.serverID, target.serverID) && !(current.size < target.size)
  }

  function Stored(p: VolumeParameters): VolumeParameters {
    p.(labels := StoredLabels(p.labels))
  }

  /** What Update records: the three fields it assigns, over the parameters recorded before. */
  function Recorded(current: VolumeParameters, target: VolumeParameters): VolumeParameters {
    Stored(current.(labels := target.labels, serverID := target.serverID, size := target.size))
  }

  /** The volume an Update steers to: labels always, the server if the ids differ, a larger size. */
  function Goal(differ: Comparison, v: Volume, current: VolumeParameters, target: VolumeParameters,
                labels: LabelMap): Volume
  {
    v.(labels := labels,
       size := if current.size < target.size then target.size else v.size,
       server := if differ(current.serverID, target.serverID) then target.serverID else v.server)
  }

  /** Up to date means that an Update would have nothing to change: not the labels or the server, and
      not the size, whatever volume it finds; a spec below the recorded size is up to date. */
  lemma UpToDateMeansNothingToChange(differ: Comparison, target: VolumeParameters, current: VolumeParameters)
    ensures IsUpToDate(differ, target, Some(current)) <==>
            && target.labels == current.labels && !differ(current.serverID, target.serverID)
            && forall v: Volume, labels | v.size == current.size ::
                 Goal(differ, v, current, target, labels).size == v.size
  {
    var v := Volume(map[], current.size, None, VolumeOptions(false, "", None));
    assert v.size == current.size;
    assert Goal(differ, v, current, target, map[]).size == if current.size < target.size then target.size else v.size;
  }

  /** What an Update may leave behind when it stops early: labels first, then the server changes by
      way of no server at all, and the size last. */
  ghost predicate Halfway(v: Volume, left: Volume, goal: Volume) {
    || left == v
    || (left == v.(labels := goal.labels, server := left.server)
        && (left.server == v.server || left.server == None || left.server == goal.server))
    || left == goal
  }

  ghost predicate Created(cr: VolumeView, w: VolumeWorld, w': VolumeWorld, id: int, v: Volume, saved: bool) {
    && w.next <= id
    && LabelsAgree(v.labels, cr.spec.labels) && v.size == cr.spec.size && v.server == cr.spec.serverID
    && v.options == VolumeOptions(cr.spec.automount, cr.spec.format, cr.spec.location)
    && w'.spec == w.spec && w'.cloud == w.cloud[id := v] && w'.next == id + 1
    && w'.status == if saved then Status(id, Some(Stored(cr.spec))) else w.status
  }

  ghost predicate CreateRel(cr: VolumeView, w: VolumeWorld, w': VolumeWorld, out: Outcome) {
    if out == Ok then w'.dirty == Doubt(false, false) && exists id, v :: Created(cr, w, w', id, v, true)
    else w' == w || (w'.dirty == w.dirty && exists id, v, saved :: Created(cr, w, w', id, v, saved))
  }

  /** Recorded and wanted server id count as different. */
  predicate Moves(differ: Comparison, cr: VolumeView) {
    cr.status.params.Some? && differ(cr.status.params.value.serverID, cr.spec.serverID)
  }

  /** The volume is now `left`; it changed servers only if the Update `asked` for that. */
  ghost predicate Moved(differ: Comparison, cr: VolumeView, w: VolumeWorld, w': VolumeWorld,
                        labels: LabelMap, left: Volume, asked: bool, saved: bool) {
    && cr.status.id in w.cloud && cr.status.params.Some?
    && var v, current := w.cloud[cr.status.id], cr.status.params.value;
    && var goal := Goal(differ, v, current, cr.spec, labels);
    && LabelsAgree(labels, cr.spec.labels) && Halfway(v, left, goal) && (saved ==> left == goal)
    && (asked ==> Moves(differ, cr)) && (!asked ==> left.server == v.server)
    && w'.spec == w.spec && w'.cloud == w.cloud[cr.status.id := left] && w'.next == w.next
    && w'.status == if saved then Status(cr.status.id, Some(Recorded(current, cr.spec))) else w.status
  }

  /** Doubt about the server arises only where an Update asked for another one, and only an Update that
      finds the ids different ends it. */
  ghost predicate UpdateRel(differ: Comparison, cr: VolumeView, w: VolumeWorld, w': VolumeWorld, out: Outcome) {
    && (cr.status.id !in w.cloud ==> out == Failed && w' == w)
    && (cr.status.params.None? ==> out != Ok && w' == w)
    && if out == Ok then
         && w'.dirty == Doubt(false, w.dirty.rest && !Moves(differ, cr))
         && exists labels, left, asked :: Moved(differ, cr, w, w', labels, left, asked, true)
       else
         || w' == w
         || exists labels, left, asked, saved ::
              && Moved(differ, cr, w, w', labels, left, asked, saved)
              && w'.dirty == Doubt(true, w.dirty.rest || asked)
  }

  /** The server id that Delete dereferences is nil. */
  predicate NoServerRecorded(status: Status<VolumeParameters>) {
    status.params.None? || status.params.value.serverID.None?
  }

  ghost predicate DeleteRel(cr: VolumeView, w: VolumeWorld, w': VolumeWorld, out: Outcome) {
    var id := cr.status.id;
    && (NoServerRecorded(cr.status) ==> out == Panicked && w' == w)
    && (!NoServerRecorded(cr.status) && id !in w.cloud ==> out == Failed && w' == w)
    && (out == Panicked ==> NoServerRecorded(cr.status) || w'.dirty.rest)
    && if out == Ok then w' == w.(cloud := w.cloud - {id})
       else
         || w' == w
         || (id in w.cloud
             && w'.dirty == w.dirty.(rest := true)
             && (w' == w.(cloud := w.cloud - {id}, dirty := w'.dirty)
                 || w' == w.(dirty := w'.dirty)
                 || w' == w.(cloud := w.cloud[id := w.cloud[id].(server := None)], dirty := w'.dirty)))
  }

  ghost predicate Next(differ: Comparison, w: VolumeWorld, w': VolumeWorld) {
    || w' == w.(spec := w'.spec)
    || (exists out :: CreateRel(w.Loaded(), w, w', out))
    || (exists out :: UpdateRel(differ, w.Loaded(), w, w', out))
    || (exists out :: DeleteRel(w.Loaded(), w, w', out))
  }

  ghost predicate Initial(w: VolumeWorld) {
    w.IdsInUse() && w.status == Status(0, None) && w.dirty == Doubt(false, false)
  }

  ghost predicate IsRun(differ: Comparison, run: seq<VolumeWorld>) {
    && run != [] && Initial(run[0])
    && forall i | 0 <= i < |run| - 1 :: Next(differ, run[i], run[i + 1])
  }

  ghost predicate Inv(w: VolumeWorld) {
    && w.IdsInUse()
    && (w.Tracked() ==>
          var p := w.status.params.value;
          w.Tracks().options == VolumeOptions(p.automount, p.format, p.location))
    && (w.Tracked() ==> w.Tracks().size >= w.status.params.value.size)
    && (w.Tracked() && !w.dirty.labels ==> LabelsAgree(w.Tracks().labels, w.status.params.value.labels))
    && (w.Tracked() && !w.dirty.rest ==> w.Tracks().server == w.status.params.value.serverID)
  }

  lemma UpdateKeepsInv(differ: Comparison, w: VolumeWorld, w': VolumeWorld, out: Outcome)
    requires Sound(differ) && Inv(w) && UpdateRel(differ, w.Loaded(), w, w', out)
    ensures Inv(w')
  {
  }

  lemma CreateKeepsInv(w: VolumeWorld, w': VolumeWorld, out: Outcome)
    requires Inv(w) && CreateRel(w.Loaded(), w, w', out)
    ensures Inv(w')
  {
    if w'.Tracked() {
      StoredLabelsAgree(w.spec.labels, w'.Tracks().labels);
    }
  }

  lemma InvKept(differ: Comparison, w: VolumeWorld, w': VolumeWorld)
    requires Sound(differ) && Inv(w) && Next(differ, w, w')
    ensures Inv(w')
  {
    if out :| UpdateRel(differ, w.Loaded(), w, w', out) {
      UpdateKeepsInv(differ, w, w', out);
    } else if out :| CreateRel(w.Loaded(), w, w', out) {
      CreateKeepsInv(w, w', out);
    }
  }

  /** Safety over runs, however ids are compared as long as different ones never pass for equal: the
      cloud is never smaller than recorded and has the recorded automount, format and location,
      whatever failed before; and where there is no doubt the
      labels and the attachment are the recorded ones. */
  lemma RunSafety(differ: Comparison, run: seq<VolumeWorld>, i: nat)
    requires Sound(differ) && IsRun(differ, run) && i < |run|
    ensures Inv(run[i])
  {
    forall w, w' | Inv(w) && Next(differ, w, w')
      ensures Inv(w')
    {
      InvKept(differ, w, w');
    }
    Always(run, w => Inv(w), (w, w') => Next(differ, w, w'), i);
  }

  /** A volume reported up to date is at least as large as the spec says, in doubt or not; without
      doubt it is also attached as the spec says and carries its labels. */
  lemma UpToDateMeansLargeEnough(differ: Comparison, run: seq<VolumeWorld>, i: nat)
    requires Sound(differ) && IsRun(differ, run) && i < |run|
    requires run[i].Tracked() && IsUpToDate(differ, run[i].spec, run[i].status.params)
    ensures run[i].Tracks().size >= run[i].spec.size
    ensures !run[i].dirty.rest ==> run[i].Tracks().server == run[i].spec.serverID
    ensures !run[i].dirty.labels ==> LabelsAgree(run[i].Tracks().labels, run[i].spec.labels)
  {
    RunSafety(differ, run, i);
  }

  /** A successful Update leaves the volume where the spec says exactly when the ids count as different or
      it was there already; so it does if there was no doubt about the attachment.  Labels and size are
      always right. */
  lemma UpdateAttaches(differ: Comparison, run: seq<VolumeWorld>, i: nat, w': VolumeWorld)
    requires Sound(differ) && IsRun(differ, run) && i < |run|
    requires UpdateRel(differ, run[i].Loaded(), run[i], w', Ok)
    ensures w'.Tracked() && w'.status.params.value.serverID == run[i].spec.serverID
    ensures w'.Tracks().server == run[i].spec.serverID
            <==> Moves(differ, run[i].Loaded()) || run[i].Tracks().server == run[i].spec.serverID
    ensures !run[i].dirty.rest || Moves(differ, run[i].Loaded()) ==>
              w'.dirty == Doubt(false, false) && w'.Tracks().server == run[i].spec.serverID
    ensures w'.Tracks().size >= run[i].spec.size && LabelsAgree(w'.Tracks().labels, run[i].spec.labels)
  {
    RunSafety(differ, run, i);
  }

  /** After a successful Update the next Observe reports up to date exactly when the labels survive
      being stored and the comparison takes the wanted id for equal to itself. */
  lemma UpdateSettles(differ: Comparison, w: VolumeWorld, w': VolumeWorld)
    requires UpdateRel(differ, w.Loaded(), w, w', Ok)
    ensures IsUpToDate(differ, w'.spec, w'.status.params)
            <==> w.spec.labels != Some(map[]) && !differ(w.spec.serverID, w.spec.serverID)
  {
  }

  /** Observe, when its lookup works: the volume exists and is up to date. */
  predicate UpToDate(differ: Comparison, w: VolumeWorld) {
    w.status.id in w.cloud && IsUpToDate(differ, w.spec, w.status.params)
  }

  /** The location and the server that the spec names, if any, exist. */
  predicate Located(spec: VolumeParameters, servers: set<int>, locations: set<string>) {
    && (spec.location.Some? ==> spec.location.value in locations)
    && (spec.serverID.Some? ==> spec.serverID.value in servers)
  }

  /** A pass without faults succeeds: there is nothing to do or only something to change, or there is
      no volume yet and it can be requested; deleting succeeds unless it would dereference nil. */
  predicate Passable(differ: Comparison, servers: set<int>, locations: set<string>, w: VolumeWorld, deleting: bool) {
    if deleting then w.status.id !in w.cloud || !NoServerRecorded(w.status)
    else || UpToDate(differ, w)
         || if w.status.id in w.cloud then w.status.params.Some? else Located(w.spec, servers, locations)
  }

  /** The one doubt that an Update cannot end: about a server that it does not find different. */
  predicate StaysDoubtful(differ: Comparison, w: VolumeWorld) {
    w.dirty.rest && w.status.id in w.cloud && !Moves(differ, w.Loaded())
  }

  /** What a pass of the reconciler that reports no error leaves behind. */
  ghost predicate Satisfied(differ: Comparison, w: VolumeWorld) {
    && w.Tracked()
    && (w.spec.labels != Some(map[]) && !differ(w.spec.serverID, w.spec.serverID) ==>
          IsUpToDate(differ, w.spec, w.status.params))
    && w.Tracks().size >= w.spec.size
    && (!w.dirty.labels ==> LabelsAgree(w.Tracks().labels, w.spec.labels))
    && (!w.dirty.rest ==> w.Tracks().server == w.spec.serverID)
  }

  /** Whichever way an error-free pass goes, the resource is satisfied afterwards; if there was
      something to do, doubt about the labels has ended, and so has doubt about the server unless
      the ids did not count as different. */
  lemma PassSatisfies(differ: Comparison, w: VolumeWorld, w': VolumeWorld)
    requires Sound(differ) && Inv(w)
    requires || (w' == w && UpToDate(differ, w))
             || CreateRel(w.Loaded(), w, w', Ok)
             || UpdateRel(differ, w.Loaded(), w, w', Ok)
    ensures Satisfied(differ, w')
    ensures UpToDate(differ, w) || (!w'.dirty.labels && (w'.dirty.rest ==> StaysDoubtful(differ, w)))
  {
  }

  /** With pointers compared, a volume that wants a server, or has one recorded, is never up to date;
      one that neither wants nor records a server compares as it would by value. */
  lemma AttachedVolumesNeverSettle(target: VolumeParameters, recorded: VolumeParameters)
    ensures Sound(PointersDiffer) && Sound(ValuesDiffer)
    ensures IsUpToDate(PointersDiffer, target, Some(recorded))
            <==> IsUpToDate(ValuesDiffer, target, Some(recorded)) && target.serverID == None
  {
  }

  /** The recorded size is the wanted one after every success: it falls exactly when the spec is below
      it, and then, and only then, a volume of the recorded size is larger than recorded afterwards. */
  lemma RecordedSizeFollowsSpec(differ: Comparison, w: VolumeWorld, w': VolumeWorld)
    requires UpdateRel(differ, w.Loaded(), w, w', Ok)
    ensures w'.status.params.value.size == w.spec.size
    ensures if w.spec.size > w.status.params.value.size then w'.Tracks().size == w.spec.size
            else w'.Tracks().size == w.Tracks().size
    ensures w'.status.params.value.size < w.status.params.value.size <==> w.spec.size < w.status.params.value.size
    ensures w.Tracks().size == w.status.params.value.size ==>
              (w'.Tracks().size == w'.status.params.value.size <==> w.spec.size >= w.status.params.value.size)
  {
  }

  /** A volume can be deleted exactly when it exists and a server id is recorded. */
  lemma DeleteCanSucceed(w: VolumeWorld)
    ensures (exists w' :: DeleteRel(w.Loaded(), w, w', Ok)) <==>
            w.status.id in w.cloud && w.status.params.Some? && w.status.params.value.serverID.Some?
  {
    if w.status.id in w.cloud && !NoServerRecorded(w.status) {
      assert DeleteRel(w.Loaded(), w, w.(cloud := w.cloud - {w.status.id}), Ok);
    }
  }

  // --- what holds in doubt, too -------------------------------------------------

  /** Some spec in force up to state `i` asked for the labels, some for the size, and some for the server,
      if there is one. */
  ghost predicate OnceAsked(run: seq<VolumeWorld>, i: nat, v: Volume)
    requires i < |run|
  {
    && (exists j :: 0 <= j <= i && LabelsAgree(v.labels, run[j].spec.labels))
    && (exists j :: 0 <= j <= i && v.size == run[j].spec.size)
    && (v.server == None || exists j :: 0 <= j <= i && v.server == run[j].spec.serverID)
  }

  /** Every field of the tracked volume is as it was or as the spec asks, or the volume is on no server. */
  lemma TrackedStep(differ: Comparison, w: VolumeWorld, w': VolumeWorld)
    requires w.IdsInUse() && Next(differ, w, w') && w'.Tracked()
    ensures var v := w'.Tracks();
            && (LabelsAgree(v.labels, w.spec.labels) || (w.Tracked() && v.labels == w.Tracks().labels))
            && (v.size == w.spec.size || (w.Tracked() && v.size == w.Tracks().size))
            && (v.server == None || v.server == w.spec.serverID || (w.Tracked() && v.server == w.Tracks().server))
  {
  }

  /** In every state of every run, in doubt or not, the volume is on no server or on that of a spec that
      was in force, and has the labels and the size of specs that were in force. */
  lemma {:induction false} NeverElsewhere(differ: Comparison, run: seq<VolumeWorld>, i: nat)
    requires Sound(differ) && IsRun(differ, run) && i < |run| && run[i].Tracked()
    ensures OnceAsked(run, i, run[i].Tracks())
  {
    if i > 0 {
      var w := run[i - 1];
      RunSafety(differ, run, i - 1);
      assert Next(differ, w, run[i - 1 + 1]);
      TrackedStep(differ, w, run[i]);
      if w.Tracked() {
        NeverElsewhere(differ, run, i - 1);
      }
      assert 0 <= i - 1 <= i && run[i - 1] == w;
    }
  }

  /** Both statuses record parameters, alike in all that Update does not touch. */
  ghost predicate SameCreation(s: Status<VolumeParameters>, s': Status<VolumeParameters>) {
    && s.params.Some? && s'.params.Some?
    && var p, p' := s.params.value, s'.params.value;
    p' == p.(labels := p'.labels, serverID := p'.serverID, size := p'.size)
  }

  lemma CreationStep(differ: Comparison, w: VolumeWorld, w': VolumeWorld)
    requires w.IdsInUse() && Next(differ, w, w')
    ensures w.status.id <= w'.status.id
    ensures w.status.params.Some? && w'.status.id == w.status.id ==> SameCreation(w.status, w'.status)
  {
  }

  /** As long as the resource names the same volume, automount, format and location stay recorded as
      they were sent at creation, however the spec is edited. */
  lemma {:induction false} CreationIsFrozen(differ: Comparison, run: seq<VolumeWorld>, i: nat, j: nat)
    requires Sound(differ) && IsRun(differ, run) && i <= j < |run|
    ensures run[i].status.id <= run[j].status.id
    ensures run[i].status.params.Some? && run[j].status.id == run[i].status.id ==>
              SameCreation(run[i].status, run[j].status)
    decreases j
  {
    if i < j {
      var k := j - 1;
      CreationIsFrozen(differ, run, i, k);
      RunSafety(differ, run, k);
      assert Next(differ, run[k], run[k + 1]);
      CreationStep(differ, run[k], run[j]);
    }
  }

  // --- failed Updates that are taken back ---------------------------------------

  /** The volume has what the parameters ask for. */
  ghost predicate Has(v: Volume, p: VolumeParameters) {
    LabelsAgree(v.labels, p.labels) && v.server == p.serverID && v.size >= p.size
  }

  /** Whenever an Update does not succeed and the spec is then taken back to `recorded`, a report of up
      to date can be trusted. */
  ghost predicate CanBeTakenBack(differ: Comparison, w: VolumeWorld, recorded: VolumeParameters) {
    forall out, w' | UpdateRel(differ, w.Loaded(), w, w', out) && out != Ok
                     && w'.Tracked() && IsUpToDate(differ, recorded, w'.status.params) ::
      Has(w'.Tracks(), recorded)
  }

  /** Such a report never comes, because the recorded id does not pass for itself, or the edit keeps the
      server and, in effect, the labels. */
  ghost predicate Harmless(differ: Comparison, wanted: VolumeParameters, recorded: VolumeParameters) {
    || differ(recorded.serverID, recorded.serverID)
    || (wanted.serverID == recorded.serverID && SameBesideDefaults(Entries(wanted.labels), Entries(recorded.labels)))
  }

  /** From a clean state exactly the harmless edits can be taken back after a failure. */
  lemma FailedUpdateCanBeTakenBack(differ: Comparison, w: VolumeWorld, recorded: VolumeParameters)
    requires Sound(differ) && w.Tracked() && w.status.params == Some(recorded) && Has(w.Tracks(), recorded)
    ensures CanBeTakenBack(differ, w, recorded) <==> Harmless(differ, w.spec, recorded)
  {
    AgreeingWithBoth(w.spec.labels, recorded.labels);
    if CanBeTakenBack(differ, w, recorded) && !differ(recorded.serverID, recorded.serverID) {
      forall labels | LabelsAgree(labels, w.spec.labels)
        ensures LabelsAgree(labels, recorded.labels) && w.spec.serverID == recorded.serverID
      {
        var moves := Moves(differ, w.Loaded());
        var v := w.Tracks().(labels := labels, server := if moves then w.spec.serverID else w.Tracks().server);
        var w' := MayBeLeft(differ, w, labels, v, moves);
      }
      assert LabelsAgree(Overlay(Defaults(0), [Entries(w.spec.labels)]), w.spec.labels);
    }
  }

  /** What a failing Update may leave, as a step. */
  lemma MayBeLeft(differ: Comparison, w: VolumeWorld, labels: LabelMap, left: Volume, asked: bool)
    returns (w': VolumeWorld)
    requires w.Tracked() && LabelsAgree(labels, w.spec.labels) && (asked ==> Moves(differ, w.Loaded()))
    requires left == w.Tracks().(labels := labels, server := if asked then w.spec.serverID else w.Tracks().server)
    ensures UpdateRel(differ, w.Loaded(), w, w', Failed)
    ensures w'.status == w.status && w'.Tracked() && w'.Tracks() == left
  {
    w' := w.(cloud := w.cloud[w.status.id := left], dirty := Doubt(true, w.dirty.rest || asked));
    assert Moved(differ, w.Loaded(), w, w', labels, left, asked, false);
  }

  // --- runs that show what is not promised -------------------------------------

  function Sized(size: int, serverID: Option<int>): VolumeParameters {
    VolumeParameters(size, false, "ext4", None, None, serverID)
  }

  const PLAIN_OPTIONS := VolumeOptions(false, "ext4", None)
  const PLAIN: LabelMap := Overlay(Defaults(0), [map[]])

  lemma PlainAgrees()
    ensures LabelsAgree(PLAIN, None)
  {
    assert PLAIN == Overlay(Defaults(0), [Entries<string, string>(None)]);
  }

  /** A volume that was created without a server: every attempt to delete it panics and leaves it. */
  lemma CreatedWithoutServerStays() returns (run: seq<VolumeWorld>)
    ensures IsRun(PointersDiffer, run) && |run| == 3
    ensures var created, last := run[1], run[2];
            && DeleteRel(created.Loaded(), created, last, Panicked)
            && last.Tracked() && last.dirty == Doubt(false, false) && last.spec.serverID == None
            && forall out, w' | DeleteRel(last.Loaded(), last, w', out) :: out == Panicked && w' == last
  {
    PlainAgrees();
    var off, v := Sized(10, None), Volume(PLAIN, 10, None, PLAIN_OPTIONS);
    var w0: VolumeWorld := World(off, Status(0, None), map[], 1, Doubt(false, false));
    var w1 := World(off, Status(1, Some(off)), map[1 := v], 2, Doubt(false, false));
    assert Created(w0.Loaded(), w0, w1, 1, v, true);
    assert CreateRel(w0.Loaded(), w0, w1, Ok);
    run := [w0, w1, w1];
    assert forall i | 0 <= i < 2 :: Next(PointersDiffer, run[i], run[i + 1]);
  }

  /** The recorded size follows the spec downwards although the volume keeps its size. */
  lemma RecordedSizeMayShrink() returns (run: seq<VolumeWorld>)
    ensures IsRun(PointersDiffer, run) && |run| == 4
    ensures var created, last := run[1], run[3];
            && created.Tracked() && last.Tracked() && last.dirty == Doubt(false, false)
            && last.Tracks() == created.Tracks()
            && last.status.params.value.size < created.status.params.value.size == last.Tracks().size
  {
    PlainAgrees();
    var big, small, v := Sized(20, None), Sized(10, None), Volume(PLAIN, 20, None, PLAIN_OPTIONS);
    var w0: VolumeWorld := World(big, Status(0, None), map[], 1, Doubt(false, false));
    var w1 := World(big, Status(1, Some(big)), map[1 := v], 2, Doubt(false, false));
    var w2 := w1.(spec := small);
    var w3 := World(small, Status(1, Some(small)), map[1 := v], 2, Doubt(false, false));
    assert Created(w0.Loaded(), w0, w1, 1, v, true);
    assert CreateRel(w0.Loaded(), w0, w1, Ok);
    assert Goal(PointersDiffer, v, big, small, PLAIN) == v && w2.cloud[1 := v] == w3.cloud;
    assert Moved(PointersDiffer, w2.Loaded(), w2, w3, PLAIN, v, false, true);
    assert UpdateRel(PointersDiffer, w2.Loaded(), w2, w3, Ok);
    run := [w0, w1, w2, w3];
    assert forall i | 0 <= i < 3 :: Next(PointersDiffer, run[i], run[i + 1]);
  }

  /** An Update attaches the volume and then fails; the user takes the server out of the spec again:
      the volume counts as up to date and stays attached, even through later successful Updates. */
  lemma AbandonedAttachmentStays() returns (run: seq<VolumeWorld>)
    ensures IsRun(PointersDiffer, run)
    ensures var last := run[|run| - 1];
            && last.Tracked() && last.dirty == Doubt(false, true)
            && IsUpToDate(PointersDiffer, last.spec, last.status.params)
            && last.spec.serverID == None && last.Tracks().server == Some(7)
            && UpdateRel(PointersDiffer, last.Loaded(), last, last, Ok)
  {
    PlainAgrees();
    var off, on := Sized(10, None), Sized(10, Some(7));
    var detached := Volume(PLAIN, 10, None, PLAIN_OPTIONS);
    var attached := detached.(server := Some(7));
    var w0: VolumeWorld := World(off, Status(0, None), map[], 1, Doubt(false, false));
    var w1 := World(off, Status(1, Some(off)), map[1 := detached], 2, Doubt(false, false));
    var w2 := w1.(spec := on);
    var w3 := World(on, Status(1, Some(off)), map[1 := attached], 2, Doubt(true, true));
    var w4 := w3.(spec := off);
    assert Created(w0.Loaded(), w0, w1, 1, detached, true);
    assert CreateRel(w0.Loaded(), w0, w1, Ok);
    assert Goal(PointersDiffer, detached, off, on, PLAIN) == attached && w2.cloud[1 := attached] == w3.cloud;
    assert Moved(PointersDiffer, w2.Loaded(), w2, w3, PLAIN, attached, true, false);
    assert UpdateRel(PointersDiffer, w2.Loaded(), w2, w3, Failed);
    var w5 := w4.(dirty := Doubt(false, true));
    assert Goal(PointersDiffer, attached, off, off, PLAIN) == attached && w4.cloud[1 := attached] == w4.cloud;
    assert Moved(PointersDiffer, w4.Loaded(), w4, w5, PLAIN, attached, false, true);
    assert UpdateRel(PointersDiffer, w4.Loaded(), w4, w5, Ok);
    assert Moved(PointersDiffer, w5.Loaded(), w5, w5, PLAIN, attached, false, true);
    run := [w0, w1, w2, w3, w4, w5];
    assert forall i | 0 <= i < 5 :: Next(PointersDiffer, run[i], run[i + 1]);
  }
}
