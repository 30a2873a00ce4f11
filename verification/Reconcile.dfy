/** What the controllers of all kinds share: the custom resource in the cluster, its copy in memory,
    and the world that reconciling moves through. */
module Reconcile {
  import opened Wrappers
  import opened Decimal
  import opened Labels

  /** status.atProvider: the id in the cloud and the parameters that were last recorded. */
  datatype Status<P> = Status(id: int, params: Option<P>)

  /** A custom resource as a controller has read it. */
  datatype View<P> = View(spec: P, status: Status<P>)

  /** The three copies of the truth for one custom resource: the desired spec, the recorded status
      and the cloud objects by id.  Ids from `next` on were never handed out.  `dirty` is history: it
      says whether a call may have left the object that the status names half changed. */
  datatype World<P, O, D> = World(spec: P, status: Status<P>, cloud: map<int, O>, next: int, dirty: D) {
    function Loaded(): View<P> {
      View(spec, status)
    }

    ghost predicate IdsInUse() {
      status.id < next && forall id | id in cloud :: id < next
    }

    /** The status records parameters of an object that exists. */
    predicate Tracked() {
      status.params.Some? && status.id in cloud
    }

    function Tracks(): O
      requires Tracked()
    {
      cloud[status.id]
    }
  }

  /** Doubt about an object, by field: its labels, and the one other field that Update changes only
      when spec and status differ in it. */
  datatype Doubt = Doubt(labels: bool, rest: bool)

  /** JSON drops an empty `labels` map of the parameters (omitempty): it loads again as nil. */
  function StoredLabels(labels: Option<LabelMap>): Option<LabelMap> {
    if labels == Some(map[]) then None else labels
  }

  /** The labels of a cloud object are the defaults of some moment overlaid with `labels`. */
  ghost predicate LabelsAgree(inCloud: LabelMap, labels: Option<LabelMap>) {
    exists now :: inCloud == Overlay(Defaults(now), [Entries(labels)])
  }

  lemma StoredLabelsAgree(labels: Option<LabelMap>, inCloud: LabelMap)
    ensures LabelsAgree(inCloud, StoredLabels(labels)) <==> LabelsAgree(inCloud, labels)
  {
    assert Entries(StoredLabels(labels)) == Entries(labels);
  }

  /** The two say the same beside the defaults, except that `wanted` may spell out a time stamp that
      `recorded` leaves to the clock. */
  ghost predicate SameBesideDefaults(wanted: LabelMap, recorded: LabelMap) {
    && WithProvider(wanted) == WithProvider(recorded)
    && if GENERATED_DATE_TIME in recorded then
         GENERATED_DATE_TIME in wanted && wanted[GENERATED_DATE_TIME] == recorded[GENERATED_DATE_TIME]
       else
         GENERATED_DATE_TIME in wanted ==> exists now :: wanted[GENERATED_DATE_TIME] == Itoa(now)
  }

  function WithProvider(labels: LabelMap): LabelMap {
    map[PROVIDER_LABEL := PROVIDER] + labels - {GENERATED_DATE_TIME}
  }

  /** That is exactly when all labels that agree with `wanted` agree with `recorded` as well. */
  lemma AgreeingWithBoth(wanted: Option<LabelMap>, recorded: Option<LabelMap>)
    ensures (forall inCloud | LabelsAgree(inCloud, wanted) :: LabelsAgree(inCloud, recorded))
            <==> SameBesideDefaults(Entries(wanted), Entries(recorded))
  {
    var a, b := Entries(wanted), Entries(recorded);
    if SameBesideDefaults(a, b) {
      forall inCloud | LabelsAgree(inCloud, wanted)
        ensures LabelsAgree(inCloud, recorded)
      {
        var now :| inCloud == Overlay(Defaults(now), [a]);
        AgreesAtSomeTime(now, a, b);
      }
    } else if forall inCloud | LabelsAgree(inCloud, wanted) :: LabelsAgree(inCloud, recorded) {
      AgreesNotAlways(a, b, wanted, recorded);
    }
  }

  lemma AgreesAtSomeTime(now: int, wanted: LabelMap, recorded: LabelMap)
    requires SameBesideDefaults(wanted, recorded)
    ensures exists now' :: Overlay(Defaults(now), [wanted]) == Overlay(Defaults(now'), [recorded])
  {
    var now' := now;
    if GENERATED_DATE_TIME in wanted && GENERATED_DATE_TIME !in recorded {
      now' :| wanted[GENERATED_DATE_TIME] == Itoa(now');
    }
    var x, y := Overlay(Defaults(now), [wanted]), Overlay(Defaults(now'), [recorded]);
    OverlayOfOne(now, wanted);
    OverlayOfOne(now', recorded);
    assert x == y;
  }

  /** The labels that a single map gives, seen apart from the time stamp. */
  lemma OverlayOfOne(now: int, labels: LabelMap)
    ensures var all := Overlay(Defaults(now), [labels]);
            && all - {GENERATED_DATE_TIME} == WithProvider(labels)
            && GENERATED_DATE_TIME in all
            && all[GENERATED_DATE_TIME] ==
               (if GENERATED_DATE_TIME in labels then labels[GENERATED_DATE_TIME] else Itoa(now))
            && all == WithProvider(labels)[GENERATED_DATE_TIME := all[GENERATED_DATE_TIME]]
  {
    assert Overlay(Defaults(now), [labels]) == Defaults(now) + labels;
  }

  lemma AgreesNotAlways(a: LabelMap, b: LabelMap, wanted: Option<LabelMap>, recorded: Option<LabelMap>)
    requires a == Entries(wanted) && b == Entries(recorded)
    requires forall inCloud | LabelsAgree(inCloud, wanted) :: LabelsAgree(inCloud, recorded)
    ensures SameBesideDefaults(a, b)
  {
    var early, late := Overlay(Defaults(0), [a]), Overlay(Defaults(1), [a]);
    assert LabelsAgree(early, wanted) && LabelsAgree(late, wanted);
    var now0 :| early == Overlay(Defaults(now0), [b]);
    var now1 :| late == Overlay(Defaults(now1), [b]);
    OverlayOfOne(0, a);
    OverlayOfOne(1, a);
    OverlayOfOne(now0, b);
    OverlayOfOne(now1, b);
    assert Itoa(0) == "0" && Itoa(1) == "1";
  }

  datatype Observation = Observed(found: bool, upToDate: bool) | ObserveFailed

  /** The in-memory custom resource that the methods of a controller receive and change. */
  class Managed<P> {
    var spec: P
    var id: int
    var params: Option<P>

    constructor (view: View<P>)
      ensures Seen() == view
    {
      spec, id, params := view.spec, view.status.id, view.status.params;
    }

    ghost function Seen(): View<P>
      reads this
    {
      View(spec, Status(id, params))
    }
  }

  /** The custom resource in the cluster. */
  class Store<P> {
    var spec: P
    var status: Status<P>
    /** How many saves have failed. */
    ghost var faults: nat

    constructor (spec: P)
      ensures this.spec == spec && status == Status(0, None) && faults == 0
    {
      this.spec, status, faults := spec, Status(0, None), 0;
    }

    method Load() returns (cr: Managed<P>)
      ensures fresh(cr) && cr.Seen() == View(spec, status)
    {
      cr := new Managed(View(spec, status));
    }

    /** kube.Status().Update: saves the status only.  A failed save may have been committed. */
    method UpdateStatus(encoded: Status<P>) returns (failed: bool)
      modifies this`status, this`faults
      ensures if failed then faults > old(faults) else faults == old(faults)
      ensures status == encoded || (failed && status == old(status))
    {
      failed := *;
      var committed: bool := *;
      if !failed || committed {
        status := encoded;
      }
      if failed {
        faults := faults + 1;
      }
    }
  }

  /** Induction over a run, for the invariants of the kinds. */
  lemma {:induction false} Always<W(!new)>(run: seq<W>, inv: W -> bool, next: (W, W) -> bool, i: nat)
    requires i < |run| && inv(run[0])
    requires forall j | 0 <= j < |run| - 1 :: next(run[j], run[j + 1])
    requires forall w, w' :: inv(w) && next(w, w') ==> inv(w')
    ensures inv(run[i])
  {
    if i > 0 {
      Always(run, inv, next, i - 1);
      assert next(run[i - 1], run[i - 1 + 1]);
    }
  }
}
