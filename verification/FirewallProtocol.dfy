/** What the Firewall controller does to the world, and what every run of it keeps. */
module FirewallProtocol {
  import opened Wrappers
  import opened Labels
  import opened Cidr
  import opened FirewallTypes
  import opened Reconcile

  datatype Firewall = Firewall(labels: LabelMap, applied: set<Resource>, rules: seq<SdkRule>)

  type FirewallWorld = World<FirewallParameters, Firewall, bool>
  type FirewallView = View<FirewallParameters>

  /** `rs` are resources that may be built for the entries of `applyTo`, in order. */
  ghost predicate AreResourcesOf(rs: seq<Resource>, applyTo: seq<FirewallApplyTo>) {
    |rs| == |applyTo| && forall i | 0 <= i < |rs| :: IsResourceOf(rs[i], applyTo[i])
  }

  ghost predicate AppliesTo(applied: set<Resource>, applyTo: seq<FirewallApplyTo>) {
    exists rs: seq<Resource> :: AreResourcesOf(rs, applyTo) && applied == (set r | r in rs)
  }

  lemma {:induction false} ResourcesExist(applyTo: seq<FirewallApplyTo>) returns (rs: seq<Resource>)
    ensures AreResourcesOf(rs, applyTo)
  {
    if applyTo == [] {
      rs := [];
    } else {
      var n := |applyTo| - 1;
      var f := applyTo[n];
      rs := ResourcesExist(applyTo[..n]);
      var selector: Option<string> := None;
      if f.labels.Some? {
        var order := OrderExists(f.labels.value);
        assert IsSelectorOf(Join(Pieces(order, f.labels.value)), f.labels.value);
        selector := Some(Join(Pieces(order, f.labels.value)));
      }
      rs := rs + [Resource(f.kind, f.serverID, selector)];
    }
  }

  /** The cloud firewall is what the parameters ask for. */
  ghost predicate Agrees(parse: Reader, p: FirewallParameters, f: Firewall) {
    && LabelsAgree(f.labels, p.labels)
    && AppliesTo(f.applied, Elements(p.applyTo))
    && CompileRules(parse, Elements(p.rules)) == Some(f.rules)
  }

  function Stored(p: FirewallParameters): FirewallParameters {
    p.(labels := StoredLabels(p.labels))
  }

  /** Firewall.IsUpToDate. */
  predicate IsUpToDate(target: FirewallParameters, recorded: Option<FirewallParameters>) {
    match recorded
    case None => false
    case Some(current) =>
      target.applyTo == current.applyTo && target.labels == current.labels && target.rules == current.rules
  }

  /** Up to date means that the status records the spec. */
  lemma UpToDateMeansRecorded(target: FirewallParameters, recorded: Option<FirewallParameters>)
    ensures IsUpToDate(target, recorded) <==> recorded == Some(target)
  {
  }

  /** What an Update from `f` towards `plan` may leave behind when it stops early: its labels come
      first, then every old resource goes, then the new ones come, and the rules are last. */
  ghost predicate Halfway(f: Firewall, left: Firewall, plan: Firewall) {
    || left == f
    || (left.labels == plan.labels && left.rules == f.rules
        && (left.applied <= f.applied || left.applied <= plan.applied))
    || left == plan
  }

  /** The cloud has a new firewall, as the spec asks; the status names it if it was saved. */
  ghost predicate Created(parse: Reader, cr: FirewallView, w: FirewallWorld, w': FirewallWorld,
                          id: int, plan: Firewall, saved: bool) {
    && w.next <= id && Agrees(parse, cr.spec, plan)
    && w'.spec == w.spec && w'.cloud == w.cloud[id := plan] && w'.next == id + 1
    && w'.status == if saved then Status(id, Some(Stored(cr.spec))) else w.status
  }

  ghost predicate CreateRel(parse: Reader, cr: FirewallView, w: FirewallWorld, w': FirewallWorld, out: Outcome) {
    && (CompileRules(parse, Elements(cr.spec.rules)).None? ==> out == Failed && w' == w)
    && if out == Ok then
         !w'.dirty && exists id, plan :: Created(parse, cr, w, w', id, plan, true)
       else
         w' == w || (w'.dirty == w.dirty && exists id, plan, saved :: Created(parse, cr, w, w', id, plan, saved))
  }

  /** The firewall that the resource names is now `left`, on the way to `plan`; the status records
      the spec only if it is there. */
  ghost predicate Moved(parse: Reader, cr: FirewallView, w: FirewallWorld, w': FirewallWorld,
                        plan: Firewall, left: Firewall, saved: bool) {
    && cr.status.id in w.cloud && Agrees(parse, cr.spec, plan)
    && Halfway(w.cloud[cr.status.id], left, plan) && (saved ==> left == plan)
    && w'.spec == w.spec && w'.cloud == w.cloud[cr.status.id := left] && w'.next == w.next
    && w'.status == if saved then Status(cr.status.id, Some(Stored(cr.spec))) else w.status
  }

  ghost predicate UpdateRel(parse: Reader, cr: FirewallView, w: FirewallWorld, w': FirewallWorld, out: Outcome) {
    && (CompileRules(parse, Elements(cr.spec.rules)).None? || cr.status.id !in w.cloud ==> out == Failed && w' == w)
    && if out == Ok then
         !w'.dirty && exists plan :: Moved(parse, cr, w, w', plan, plan, true)
       else
         w' == w || (w'.dirty && exists plan, left, saved :: Moved(parse, cr, w, w', plan, left, saved))
  }

  ghost predicate DeleteRel(cr: FirewallView, w: FirewallWorld, w': FirewallWorld, out: Outcome) {
    var id := cr.status.id;
    && (id !in w.cloud ==> out == Failed && w' == w)
    && if out == Ok then w' == w.(cloud := w.cloud - {id})
       else
         || w' == w
         || (id in w.cloud && w'.dirty
             && (w' == w.(cloud := w.cloud - {id}, dirty := true)
                 || exists left ::
                      && left <= w.cloud[id].applied
                      && w' == w.(cloud := w.cloud[id := w.cloud[id].(applied := left)], dirty := true)))
  }

  /** One step: the user edits the spec, or the controller reads the resource and runs an operation. */
  ghost predicate Next(parse: Reader, w: FirewallWorld, w': FirewallWorld) {
    || w' == w.(spec := w'.spec)
    || (exists out :: CreateRel(parse, w.Loaded(), w, w', out))
    || (exists out :: UpdateRel(parse, w.Loaded(), w, w', out))
    || (exists out :: DeleteRel(w.Loaded(), w, w', out))
  }

  ghost predicate Initial(w: FirewallWorld) {
    w.IdsInUse() && w.status == Status(0, None) && !w.dirty
  }

  ghost predicate IsRun(parse: Reader, run: seq<FirewallWorld>) {
    && run != [] && Initial(run[0])
    && forall i | 0 <= i < |run| - 1 :: Next(parse, run[i], run[i + 1])
  }

  ghost predicate Inv(parse: Reader, w: FirewallWorld) {
    && w.IdsInUse()
    && (w.status.params.Some? ==> w.status.params.value == Stored(w.status.params.value))
    && (w.Tracked() && !w.dirty ==> Agrees(parse, w.status.params.value, w.Tracks()))
  }

  lemma UpdateKeepsInv(parse: Reader, w: FirewallWorld, w': FirewallWorld, out: Outcome)
    requires Inv(parse, w) && UpdateRel(parse, w.Loaded(), w, w', out)
    ensures Inv(parse, w')
  {
  }

  lemma CreateKeepsInv(parse: Reader, w: FirewallWorld, w': FirewallWorld, out: Outcome)
    requires Inv(parse, w) && CreateRel(parse, w.Loaded(), w, w', out)
    ensures Inv(parse, w')
  {
  }

  lemma InvKept(parse: Reader, w: FirewallWorld, w': FirewallWorld)
    requires Inv(parse, w) && Next(parse, w, w')
    ensures Inv(parse, w')
  {
    if out :| UpdateRel(parse, w.Loaded(), w, w', out) {
      UpdateKeepsInv(parse, w, w', out);
    } else if out :| CreateRel(parse, w.Loaded(), w, w', out) {
      CreateKeepsInv(parse, w, w', out);
    }
  }

  /** Safety over runs: in every state of every run, if no failed call has left the firewall half
      changed since the last success, the cloud firewall agrees with the recorded parameters. */
  lemma RunSafety(parse: Reader, run: seq<FirewallWorld>, i: nat)
    requires IsRun(parse, run) && i < |run|
    ensures Inv(parse, run[i])
  {
    forall w, w' | Inv(parse, w) && Next(parse, w, w')
      ensures Inv(parse, w')
    {
      InvKept(parse, w, w');
    }
    Always(run, w => Inv(parse, w), (w, w') => Next(parse, w, w'), i);
  }

  /** A report "exists and up to date" in a clean state can be trusted: the cloud agrees with the
      spec itself, it admits exactly the packets the rules of the spec want, and its resources are
      the ones the spec names. */
  lemma UpToDateMeansAgreement(parse: Reader, run: seq<FirewallWorld>, i: nat)
    requires IsRun(parse, run) && i < |run|
    requires run[i].Tracked() && IsUpToDate(run[i].spec, run[i].status.params) && !run[i].dirty
    ensures Agrees(parse, run[i].spec, run[i].Tracks())
    ensures forall p ::
              AnyAdmits(run[i].Tracks().rules, p) <==> AnyWants(parse, Elements(run[i].spec.rules), p)
  {
    RunSafety(parse, run, i);
    assert run[i].status.params.value == run[i].spec;
    forall p
      ensures AnyAdmits(run[i].Tracks().rules, p) <==> AnyWants(parse, Elements(run[i].spec.rules), p)
    {
      CompilationPreservesMeaning(parse, Elements(run[i].spec.rules), p);
    }
  }

  /** Update stabilises itself: wherever earlier calls left the firewall, a successful Update makes
      it agree with the spec, down to the packets it admits, and the state clean.  The next Observe
      then reports up to date, unless the spec holds an empty, non-nil label map, which does not
      survive being stored. */
  lemma UpdateStabilises(parse: Reader, w: FirewallWorld, w': FirewallWorld)
    requires UpdateRel(parse, w.Loaded(), w, w', Ok)
    ensures w'.Tracked() && Agrees(parse, w.spec, w'.Tracks()) && !w'.dirty
    ensures forall p :: AnyAdmits(w'.Tracks().rules, p) <==> AnyWants(parse, Elements(w.spec.rules), p)
    ensures IsUpToDate(w'.spec, w'.status.params) <==> w.spec.labels != Some(map[])
  {
    forall p
      ensures AnyAdmits(w'.Tracks().rules, p) <==> AnyWants(parse, Elements(w.spec.rules), p)
    {
      CompilationPreservesMeaning(parse, Elements(w.spec.rules), p);
    }
  }

  /** Observe, when its lookup works: the firewall exists and is up to date. */
  predicate UpToDate(w: FirewallWorld) {
    w.status.id in w.cloud && IsUpToDate(w.spec, w.status.params)
  }

  /** A pass without faults succeeds: there is nothing to do, or the rules of the spec compile. */
  predicate Passable(parse: Reader, w: FirewallWorld) {
    UpToDate(w) || CompileRules(parse, Elements(w.spec.rules)).Some?
  }

  /** What a pass of the reconciler that reports no error leaves behind. */
  ghost predicate Satisfied(parse: Reader, w: FirewallWorld) {
    && w.Tracked()
    && (w.spec.labels != Some(map[]) ==> IsUpToDate(w.spec, w.status.params))
    && (!w.dirty ==> Agrees(parse, w.spec, w.Tracks()))
  }

  /** Whichever way an error-free pass goes, creating, updating or finding nothing to do, the resource
      is satisfied afterwards, and out of doubt if there was something to do. */
  lemma PassSatisfies(parse: Reader, w: FirewallWorld, w': FirewallWorld)
    requires Inv(parse, w)
    requires || (w' == w && UpToDate(w))
             || CreateRel(parse, w.Loaded(), w, w', Ok)
             || UpdateRel(parse, w.Loaded(), w, w', Ok)
    ensures Satisfied(parse, w') && (w'.dirty ==> w' == w)
  {
  }

  /** Until then nothing is claimed: an Update that does not succeed leaves the recorded status as it
      was, or records the new parameters only when the cloud already agrees with them. */
  lemma FailedUpdateClaimsNothingNew(parse: Reader, w: FirewallWorld, w': FirewallWorld, out: Outcome)
    requires UpdateRel(parse, w.Loaded(), w, w', out) && out != Ok && w'.status != w.status
    ensures w'.Tracked() && w'.status.params == Some(Stored(w.spec))
    ensures Agrees(parse, w'.status.params.value, w'.Tracks())
  {
  }

  /** With an empty, non-nil label map in the spec no reachable state is ever up to date. */
  lemma EmptyLabelsNeverSettle(parse: Reader, run: seq<FirewallWorld>, i: nat)
    requires IsRun(parse, run) && i < |run| && run[i].spec.labels == Some(map[])
    ensures !IsUpToDate(run[i].spec, run[i].status.params)
  {
    RunSafety(parse, run, i);
  }

  // --- what holds in doubt, too -------------------------------------------------

  /** Some spec in force up to state `i` asked for the labels, some for all the rules as one list, and
      some for every resource. */
  ghost predicate OnceAsked(parse: Reader, run: seq<FirewallWorld>, i: nat, f: Firewall)
    requires i < |run|
  {
    && (exists j :: 0 <= j <= i && LabelsAgree(f.labels, run[j].spec.labels))
    && (exists j :: 0 <= j <= i && AppliesWithin(f.applied, Elements(run[j].spec.applyTo)))
    && (exists j :: 0 <= j <= i && CompileRules(parse, Elements(run[j].spec.rules)) == Some(f.rules))
  }

  ghost predicate AppliesWithin(applied: set<Resource>, applyTo: seq<FirewallApplyTo>) {
    exists rs: seq<Resource> :: AreResourcesOf(rs, applyTo) && applied <= (set r | r in rs)
  }

  lemma AgreeingWasAsked(parse: Reader, run: seq<FirewallWorld>, j: nat, i: nat, f: Firewall)
    requires j <= i < |run| && Agrees(parse, run[j].spec, f)
    ensures OnceAsked(parse, run, i, f)
  {
    assert AppliesWithin(f.applied, Elements(run[j].spec.applyTo));
  }

  /** With fewer resources, or later, or on the way to something asked for, it was still asked for. */
  lemma LeftWasAsked(parse: Reader, run: seq<FirewallWorld>, i: nat, f: Firewall, plan: Firewall, left: Firewall)
    requires 0 < i < |run| && OnceAsked(parse, run, i - 1, f) && OnceAsked(parse, run, i, plan)
    requires Halfway(f, left, plan)
    ensures OnceAsked(parse, run, i, left)
  {
    forall smaller, larger, applyTo | smaller <= larger && AppliesWithin(larger, applyTo)
      ensures AppliesWithin(smaller, applyTo)
    {
      var rs :| AreResourcesOf(rs, applyTo) && larger <= (set r | r in rs);
      assert smaller <= (set r | r in rs);
    }
  }

  /** In every state of every run, in doubt or not, the firewall carries the whole rule list of one
      spec that was in force, never a mixture; so are its labels those of one spec, and its resources
      among those of one spec. */
  lemma {:induction false} NeverAMixture(parse: Reader, run: seq<FirewallWorld>, i: nat)
    requires IsRun(parse, run) && i < |run| && run[i].Tracked()
    ensures OnceAsked(parse, run, i, run[i].Tracks())
  {
    if i > 0 {
      RunSafety(parse, run, i - 1);
      var w, w' := run[i - 1], run[i];
      assert Next(parse, w, run[i - 1 + 1]);
      if w.Tracked() {
        NeverAMixture(parse, run, i - 1);
      }
      TrackedStep(parse, w, w');
      var f := w'.Tracks();
      if Agrees(parse, w.spec, f) {
        AgreeingWasAsked(parse, run, i - 1, i, f);
      } else {
        var plan :| (plan == w.Tracks() || Agrees(parse, w.spec, plan)) && Halfway(w.Tracks(), f, plan);
        if Agrees(parse, w.spec, plan) {
          AgreeingWasAsked(parse, run, i - 1, i, plan);
        }
        LeftWasAsked(parse, run, i, w.Tracks(), plan, f);
      }
    }
  }

  /** One step leaves the tracked firewall as the spec asks, or takes it part of the way from where it
      was to what the spec asks, or takes resources away. */
  lemma TrackedStep(parse: Reader, w: FirewallWorld, w': FirewallWorld)
    requires w.IdsInUse() && Next(parse, w, w') && w'.Tracked()
    ensures Agrees(parse, w.spec, w'.Tracks()) ||
            (w.Tracked() && exists plan ::
               (plan == w.Tracks() || Agrees(parse, w.spec, plan)) && Halfway(w.Tracks(), w'.Tracks(), plan))
  {
    if out :| UpdateRel(parse, w.Loaded(), w, w', out) {
      if w' != w {
        var plan, left, saved :| Moved(parse, w.Loaded(), w, w', plan, left, saved);
      }
    } else if out :| CreateRel(parse, w.Loaded(), w, w', out) {
    } else {
      assert Halfway(w.Tracks(), w'.Tracks(), w.Tracks());
    }
  }

  // --- the hole that a failed Update leaves ----------------------------------

  /** Nothing that an Update towards `wanted` does can disturb what `recorded` asks for: it changes
      nothing because the rules do not compile, or labels and rules stay in effect the same and
      there are no resources to take away or to bring. */
  ghost predicate Harmless(parse: Reader, wanted: FirewallParameters, recorded: FirewallParameters) {
    var rules := CompileRules(parse, Elements(wanted.rules));
    || rules == None
    || (&& SameBesideDefaults(Entries(wanted.labels), Entries(recorded.labels))
        && Elements(wanted.applyTo) == [] && Elements(recorded.applyTo) == []
        && rules == CompileRules(parse, Elements(recorded.rules)))
  }

  /** Whenever an Update does not succeed and the spec is then taken back to `recorded`, a report of
      up to date can be trusted. */
  ghost predicate CanBeTakenBack(parse: Reader, w: FirewallWorld, recorded: FirewallParameters) {
    forall out, w' | UpdateRel(parse, w.Loaded(), w, w', out) && out != Ok
                     && w'.Tracked() && IsUpToDate(recorded, w'.status.params) ::
      Agrees(parse, recorded, w'.Tracks())
  }

  /** From a clean state exactly the harmless edits can be taken back after a failure. */
  lemma FailedUpdateCanBeTakenBack(parse: Reader, w: FirewallWorld, recorded: FirewallParameters)
    requires w.Tracked() && w.status.params == Some(recorded) && Agrees(parse, recorded, w.Tracks())
    ensures CanBeTakenBack(parse, w, recorded) <==> Harmless(parse, w.spec, recorded)
  {
    if Harmless(parse, w.spec, recorded) {
      HarmlessEdit(parse, w, recorded);
    } else if CanBeTakenBack(parse, w, recorded) {
      HarmfulEdit(parse, w, recorded);
    }
  }

  lemma HarmlessEdit(parse: Reader, w: FirewallWorld, recorded: FirewallParameters)
    requires w.Tracked() && w.status.params == Some(recorded) && Agrees(parse, recorded, w.Tracks())
    requires Harmless(parse, w.spec, recorded)
    ensures CanBeTakenBack(parse, w, recorded)
  {
    AgreeingWithBoth(w.spec.labels, recorded.labels);
    assert AreResourcesOf([], []);
    assert {} == (set r: Resource | r in []);
    forall out, w' | UpdateRel(parse, w.Loaded(), w, w', out) && out != Ok && w' != w
      ensures Agrees(parse, recorded, w'.Tracks())
    {
      var plan, left, saved :| Moved(parse, w.Loaded(), w, w', plan, left, saved);
      assert w.Tracks().applied == {} == plan.applied;
      assert left.applied == {};
    }
  }

  /** What a failing Update may leave, as a step. */
  lemma MayBeLeft(parse: Reader, w: FirewallWorld, plan: Firewall, left: Firewall) returns (w': FirewallWorld)
    requires w.Tracked() && Agrees(parse, w.spec, plan) && Halfway(w.Tracks(), left, plan)
    ensures UpdateRel(parse, w.Loaded(), w, w', Failed) && w'.status == w.status && w'.Tracked() && w'.Tracks() == left
  {
    w' := w.(cloud := w.cloud[w.status.id := left], dirty := true);
    assert Moved(parse, w.Loaded(), w, w', plan, left, false);
  }

  lemma LeftBare(parse: Reader, w: FirewallWorld, recorded: FirewallParameters, plan: Firewall)
    requires w.Tracked() && w.status.params == Some(recorded)
    requires CanBeTakenBack(parse, w, recorded) && Agrees(parse, w.spec, plan)
    ensures Agrees(parse, recorded, w.Tracks().(labels := plan.labels, applied := {})) && Agrees(parse, recorded, plan)
  {
    var bare := MayBeLeft(parse, w, plan, w.Tracks().(labels := plan.labels, applied := {}));
    var full := MayBeLeft(parse, w, plan, plan);
  }

  lemma HarmfulEdit(parse: Reader, w: FirewallWorld, recorded: FirewallParameters)
    requires w.Tracked() && w.status.params == Some(recorded) && Agrees(parse, recorded, w.Tracks())
    requires CanBeTakenBack(parse, w, recorded) && CompileRules(parse, Elements(w.spec.rules)).Some?
    ensures Harmless(parse, w.spec, recorded)
  {
    var f := w.Tracks();
    var rs := ResourcesExist(Elements(w.spec.applyTo));
    var rules := CompileRules(parse, Elements(w.spec.rules)).value;
    forall labels | LabelsAgree(labels, w.spec.labels)
      ensures LabelsAgree(labels, recorded.labels)
    {
      LeftBare(parse, w, recorded, Firewall(labels, (set r | r in rs), rules));
    }
    AgreeingWithBoth(w.spec.labels, recorded.labels);
    var labels := Overlay(Defaults(0), [Entries(w.spec.labels)]);
    assert LabelsAgree(labels, w.spec.labels);
    var plan := Firewall(labels, (set r | r in rs), rules);
    LeftBare(parse, w, recorded, plan);
    NothingApplied({}, Elements(recorded.applyTo));
    NothingApplied(plan.applied, Elements(recorded.applyTo));
    NothingApplied(plan.applied, Elements(w.spec.applyTo));
  }

  lemma NothingApplied(applied: set<Resource>, applyTo: seq<FirewallApplyTo>)
    requires AppliesTo(applied, applyTo)
    ensures applied == {} <==> applyTo == []
  {
    var rs :| AreResourcesOf(rs, applyTo) && applied == (set r | r in rs);
    assert rs != [] ==> rs[0] in applied;
  }

  function Labelled(value: string): FirewallParameters {
    FirewallParameters(None, Some(map["env" := value]), None)
  }

  function LabelledFirewall(value: string): Firewall {
    Firewall(Overlay(Defaults(0), [map["env" := value]]), {}, [])
  }

  lemma LabelledAgrees(parse: Reader, value: string)
    ensures Agrees(parse, Labelled(value), LabelledFirewall(value))
    ensures Stored(Labelled(value)) == Labelled(value)
  {
    assert AreResourcesOf([], []);
    assert LabelledFirewall(value).applied == (set r: Resource | r in []);
    assert LabelsAgree(LabelledFirewall(value).labels, Labelled(value).labels);
    assert "env" in Labelled(value).labels.value;
  }

  lemma LabelOf(now: int, value: string)
    ensures var labels := Overlay(Defaults(now), [map["env" := value]]);
            "env" in labels && labels["env"] == value
  {
  }

  lemma LabelledDisagrees(parse: Reader, a: string, b: string)
    requires a != b
    ensures !Agrees(parse, Labelled(a), LabelledFirewall(b))
  {
    forall now
      ensures LabelledFirewall(b).labels != Overlay(Defaults(now), [Entries(Labelled(a).labels)])
    {
      LabelOf(now, a);
      LabelOf(0, b);
    }
  }

  lemma CreateStep(parse: Reader, w: FirewallWorld, w': FirewallWorld, id: int, plan: Firewall)
    requires Created(parse, w.Loaded(), w, w', id, plan, true) && !w'.dirty
    ensures Next(parse, w, w')
  {
    assert CreateRel(parse, w.Loaded(), w, w', Ok);
  }

  lemma FailedUpdateStep(parse: Reader, w: FirewallWorld, w': FirewallWorld, plan: Firewall, left: Firewall)
    requires Moved(parse, w.Loaded(), w, w', plan, left, false) && w'.dirty
    ensures Next(parse, w, w')
  {
    assert UpdateRel(parse, w.Loaded(), w, w', Failed);
  }

  /** An Update fails after it wrote the labels, and the user takes the edit back: the resource now
      counts as up to date although the cloud carries the abandoned labels.  This is why `dirty` is
      needed in the lemmas above. */
  lemma RevertAfterFailureGoesUnnoticed(parse: Reader) returns (run: seq<FirewallWorld>)
    ensures IsRun(parse, run)
    ensures var last := run[|run| - 1];
            && last.Tracked() && IsUpToDate(last.spec, last.status.params)
            && last.dirty && !Agrees(parse, last.spec, last.Tracks())
  {
    var a, b := Labelled("a"), Labelled("b");
    var fa, fb := LabelledFirewall("a"), LabelledFirewall("b");
    LabelledAgrees(parse, "a");
    LabelledAgrees(parse, "b");
    var w0: FirewallWorld := World(a, Status(0, None), map[], 1, false);
    var w1 := World(a, Status(1, Some(a)), map[1 := fa], 2, false);
    var w2 := w1.(spec := b);
    var w3 := World(b, Status(1, Some(a)), map[1 := fb], 2, true);
    var w4 := w3.(spec := a);
    CreateStep(parse, w0, w1, 1, fa);
    assert w2.cloud[1 := fb] == w3.cloud;
    FailedUpdateStep(parse, w2, w3, fb, fb);
    run := [w0, w1, w2, w3, w4];
    LabelledDisagrees(parse, "a", "b");
  }
}
