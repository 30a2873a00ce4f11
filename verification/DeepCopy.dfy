/** Deep copies of parameters (apis/cloud/v1alpha1/zz_generated.deepcopy.go), on a heap of slices,
    maps and pointers as Go has them.  Structs held in slices are values; everything a struct points
    to is an object. */
module DeepCopy {
  import opened Wrappers
  import opened Labels
  import opened FirewallTypes
  import opened NetworkProtocol

  /** The target of a pointer to a plain value: *int64, *int or *string. */
  class Cell<T> {
    var value: T

    constructor (value: T)
      ensures this.value == value
    {
      this.value := value;
    }
  }

  /** A map[string]string that is not nil. */
  class GoMap {
    var entries: LabelMap

    constructor ()
      ensures entries == map[]
    {
      entries := map[];
    }
  }

  class Port {
    var all: bool
    var start: Cell?<int>
    var end: Cell?<int>

    constructor (all: bool, start: Cell?<int>, end: Cell?<int>)
      ensures this.all == all && this.start == start && this.end == end
    {
      this.all, this.start, this.end := all, start, end;
    }
  }

  datatype ApplyTo = ApplyTo(kind: string, serverID: Cell?<int>, labels: Cell?<GoMap?>)

  datatype Rule = Rule(
    direction: string, protocol: string, targetIPs: array?<string>, description: Cell?<string>, port: Port?)

  class Parameters {
    var applyTo: array?<ApplyTo>
    var labels: GoMap?
    var rules: array?<Rule>

    constructor (applyTo: array?<ApplyTo>, labels: GoMap?, rules: array?<Rule>)
      ensures this.applyTo == applyTo && this.labels == labels && this.rules == rules
    {
      this.applyTo, this.labels, this.rules := applyTo, labels, rules;
    }
  }

  class NetworkStruct {
    var ipRange: string
    var subnets: array?<NetworkSubnet>
    var routes: array?<NetworkRoute>
    var labels: GoMap?
    var expose: bool

    constructor (ipRange: string, subnets: array?<NetworkSubnet>, routes: array?<NetworkRoute>,
                 labels: GoMap?, expose: bool)
      ensures this.ipRange == ipRange && this.subnets == subnets && this.routes == routes
      ensures this.labels == labels && this.expose == expose
    {
      this.ipRange, this.subnets, this.routes, this.labels, this.expose := ipRange, subnets, routes, labels, expose;
    }
  }

  // ---------------------------------------------------------------------------
  // What a structure holds, and the objects it is made of
  // ---------------------------------------------------------------------------

  /** An applyTo entry at every depth: a pointer to a nil map differs from a nil pointer. */
  datatype ApplyToValue = ApplyToValue(kind: string, serverID: Option<int>, labels: Option<Option<LabelMap>>)

  datatype ParametersValue = ParametersValue(
    applyTo: Option<seq<ApplyToValue>>, labels: Option<LabelMap>, rules: Option<seq<FirewallRules>>)

  function Objects(o: object?): set<object> {
    if o == null then {} else {o}
  }

  ghost function CellValue<T>(c: Cell?<T>): Option<T>
    reads c
  {
    if c == null then None else Some(c.value)
  }

  ghost function MapValue(m: GoMap?): Option<LabelMap>
    reads m
  {
    if m == null then None else Some(m.entries)
  }

  ghost function SliceValue<T>(s: array?<T>): Option<seq<T>>
    reads s
  {
    if s == null then None else Some(s[..])
  }

  ghost function PortObjects(p: Port?): set<object>
    reads p
  {
    if p == null then {} else {p} + Objects(p.start) + Objects(p.end)
  }

  ghost function PortValue(p: Port?): Option<FirewallPort>
    reads p, PortObjects(p)
  {
    if p == null then None else Some(FirewallPort(p.all, CellValue(p.start), CellValue(p.end)))
  }

  ghost function ApplyToObjects(a: ApplyTo): set<object>
    reads a.labels
  {
    Objects(a.serverID) + if a.labels == null then {} else {a.labels} + Objects(a.labels.value)
  }

  ghost function ValueOfApplyTo(a: ApplyTo): ApplyToValue
    reads a.labels, ApplyToObjects(a)
  {
    ApplyToValue(a.kind, CellValue(a.serverID), if a.labels == null then None else Some(MapValue(a.labels.value)))
  }

  ghost function RuleObjects(r: Rule): set<object>
    reads r.port
  {
    Objects(r.targetIPs) + Objects(r.description) + PortObjects(r.port)
  }

  ghost function ValueOfRule(r: Rule): FirewallRules
    reads r.port, RuleObjects(r)
  {
    FirewallRules(r.direction, r.protocol, SliceValue(r.targetIPs), CellValue(r.description), PortValue(r.port))
  }

  ghost predicate ListHolds(list: seq<ApplyTo>, v: seq<ApplyToValue>)
    reads *
  {
    |list| == |v| && forall i | 0 <= i < |v| :: ValueOfApplyTo(list[i]) == v[i]
  }

  ghost predicate RulesHold(list: seq<Rule>, v: seq<FirewallRules>)
    reads *
  {
    |list| == |v| && forall i | 0 <= i < |v| :: ValueOfRule(list[i]) == v[i]
  }

  /** The parameters hold exactly `v`, at every depth. */
  ghost predicate Holds(p: Parameters, v: ParametersValue)
    reads *
  {
    && MapValue(p.labels) == v.labels
    && (p.applyTo == null <==> v.applyTo.None?) && (p.applyTo != null ==> ListHolds(p.applyTo[..], v.applyTo.value))
    && (p.rules == null <==> v.rules.None?) && (p.rules != null ==> RulesHold(p.rules[..], v.rules.value))
  }

  /** All the objects the parameters are made of are among `objects`. */
  ghost predicate MadeOf(p: Parameters, objects: set<object>)
    reads *
  {
    && p in objects && Objects(p.labels) <= objects
    && Objects(p.applyTo) <= objects && Objects(p.rules) <= objects
    && (p.applyTo != null ==> forall i | 0 <= i < p.applyTo.Length :: ApplyToObjects(p.applyTo[i]) <= objects)
    && (p.rules != null ==> forall i | 0 <= i < p.rules.Length :: RuleObjects(p.rules[i]) <= objects)
  }

  /** Holding a value is holding no other: it fixes every entry, and nil apart from empty. */
  lemma HeldValueIsUnique(p: Parameters, v: ParametersValue, v': ParametersValue)
    requires Holds(p, v) && Holds(p, v')
    ensures v == v'
  {
    assert v.applyTo.Some? ==> v.applyTo.value == v'.applyTo.value;
    assert v.rules.Some? ==> v.rules.value == v'.rules.value;
  }

  /** Two slices are both nil, or hold the same. */
  ghost predicate SameSlice<T>(a: array?<T>, b: array?<T>)
    reads a, b
  {
    if a == null then b == null else b != null && a[..] == b[..]
  }

  /** Two pointers are both nil, or point to the same value. */
  ghost predicate SameCell<T>(a: Cell?<T>, b: Cell?<T>)
    reads a, b
  {
    if a == null then b == null else b != null && a.value == b.value
  }

  /** Ports with the same value are the same field by field, behind every pointer. */
  lemma SamePort(a: Port?, b: Port?)
    ensures PortValue(a) == PortValue(b) <==>
            if a == null then b == null
            else b != null && a.all == b.all && SameCell(a.start, b.start) && SameCell(a.end, b.end)
  {
  }

  /** Rules with the same value are the same field by field, behind every pointer and slice. */
  lemma SameRule(a: Rule, b: Rule)
    ensures ValueOfRule(a) == ValueOfRule(b) <==>
            && a.direction == b.direction && a.protocol == b.protocol
            && SameSlice(a.targetIPs, b.targetIPs) && SameCell(a.description, b.description)
            && PortValue(a.port) == PortValue(b.port)
  {
  }

  /** So are applyTo entries. */
  lemma SameApplyTo(a: ApplyTo, b: ApplyTo)
    ensures ValueOfApplyTo(a) == ValueOfApplyTo(b) <==>
            && a.kind == b.kind && SameCell(a.serverID, b.serverID)
            && if a.labels == null then b.labels == null
               else b.labels != null && MapValue(a.labels.value) == MapValue(b.labels.value)
  {
  }

  // ---------------------------------------------------------------------------
  // Copying
  // ---------------------------------------------------------------------------

  method CopyCell<T>(c: Cell?<T>) returns (out: Cell?<T>)
    ensures fresh(Objects(out)) && CellValue(out) == CellValue(c)
  {
    out := null;
    if c != null {
      out := new Cell(c.value);
    }
  }

  /** Ranges over the map in any order. */
  method CopyMap(m: GoMap?) returns (out: GoMap?)
    ensures fresh(Objects(out)) && MapValue(out) == MapValue(m)
  {
    out := null;
    if m != null {
      out := new GoMap();
      var left := m.entries.Keys;
      while left != {}
        invariant left <= m.entries.Keys
        invariant out.entries == m.entries - left
      {
        var k :| k in left;
        out.entries := out.entries[k := m.entries[k]];
        left := left - {k};
      }
      assert m.entries - left == m.entries;
    }
  }

  method CopySlice<T>(s: array?<T>) returns (out: array?<T>)
    ensures fresh(Objects(out)) && SliceValue(out) == SliceValue(s)
  {
    out := null;
    if s != null {
      out := new T[s.Length](i requires 0 <= i < s.Length reads s => s[i]);
      assert out[..] == s[..];
    }
  }

  /** FirewallPort.DeepCopyInto. */
  method CopyPort(p: Port?) returns (out: Port?)
    ensures fresh(PortObjects(out)) && PortValue(out) == PortValue(p)
  {
    out := null;
    if p != null {
      var start := CopyCell(p.start);
      var end := CopyCell(p.end);
      out := new Port(p.all, start, end);
    }
  }

  /** FirewallApplyTo.DeepCopyInto. */
  method CopyApplyTo(a: ApplyTo) returns (out: ApplyTo)
    ensures fresh(ApplyToObjects(out)) && ValueOfApplyTo(out) == ValueOfApplyTo(a)
  {
    out := a;
    var serverID := CopyCell(a.serverID);
    out := out.(serverID := serverID);
    if a.labels != null {
      var m := CopyMap(a.labels.value);
      var labels := new Cell(m);
      out := out.(labels := labels);
    }
  }

  /** FirewallRules.DeepCopyInto. */
  method CopyRule(r: Rule) returns (out: Rule)
    ensures fresh(RuleObjects(out)) && ValueOfRule(out) == ValueOfRule(r)
  {
    var targetIPs := CopySlice(r.targetIPs);
    var description := CopyCell(r.description);
    var port := CopyPort(r.port);
    out := r.(targetIPs := targetIPs, description := description, port := port);
  }

  /** The entry holds `v` and is made of `objects` only. */
  ghost predicate ApplyToWithin(a: ApplyTo, v: ApplyToValue, objects: set<object>)
    reads objects
  {
    Objects(a.labels) <= objects && ApplyToObjects(a) <= objects && ValueOfApplyTo(a) == v
  }

  /** Makes a slice of the same length and fills it with deep copies of the entries, one by one.  What
      each copy is made of is kept apart, so that later ones cannot touch it. */
  method CopyApplyToSlice(s: array<ApplyTo>, ghost v: seq<ApplyToValue>)
    returns (out: array<ApplyTo>, ghost objects: set<object>)
    requires ListHolds(s[..], v)
    ensures fresh(out) && ListHolds(out[..], v)
    ensures fresh(objects) && forall i | 0 <= i < out.Length :: ApplyToObjects(out[i]) <= objects
  {
    out := new ApplyTo[s.Length](i requires 0 <= i < s.Length reads s => s[i]);
    ghost var parts: seq<set<object>> := [];
    for i := 0 to s.Length
      invariant |parts| == i
      invariant forall j | 0 <= j < i :: fresh(parts[j]) && out !in parts[j]
      invariant forall j | 0 <= j < i :: ApplyToWithin(out[j], v[j], parts[j])
    {
      assert ValueOfApplyTo(s[i]) == v[i];
      var copy := CopyApplyTo(s[i]);
      parts := parts + [ApplyToObjects(copy)];
      out[i] := copy;
    }
    objects := set j, o | 0 <= j < |parts| && o in parts[j] :: o;
    assert forall j | 0 <= j < |parts| :: parts[j] <= objects;
  }

  /** The entry holds `v` and is made of `objects` only. */
  ghost predicate RuleWithin(r: Rule, v: FirewallRules, objects: set<object>)
    reads objects
  {
    Objects(r.port) <= objects && RuleObjects(r) <= objects && ValueOfRule(r) == v
  }

  method CopyRuleSlice(s: array<Rule>, ghost v: seq<FirewallRules>)
    returns (out: array<Rule>, ghost objects: set<object>)
    requires RulesHold(s[..], v)
    ensures fresh(out) && RulesHold(out[..], v)
    ensures fresh(objects) && forall i | 0 <= i < out.Length :: RuleObjects(out[i]) <= objects
  {
    out := new Rule[s.Length](i requires 0 <= i < s.Length reads s => s[i]);
    ghost var parts: seq<set<object>> := [];
    for i := 0 to s.Length
      invariant |parts| == i
      invariant forall j | 0 <= j < i :: fresh(parts[j]) && out !in parts[j]
      invariant forall j | 0 <= j < i :: RuleWithin(out[j], v[j], parts[j])
    {
      assert ValueOfRule(s[i]) == v[i];
      var copy := CopyRule(s[i]);
      parts := parts + [RuleObjects(copy)];
      out[i] := copy;
    }
    objects := set j, o | 0 <= j < |parts| && o in parts[j] :: o;
    assert forall j | 0 <= j < |parts| :: parts[j] <= objects;
  }

  /** FirewallParameters.DeepCopy: the copy holds what the original holds, and all it is made of is new. */
  method CopyParameters(p: Parameters, ghost v: ParametersValue)
    returns (out: Parameters, ghost objects: set<object>)
    requires Holds(p, v)
    ensures Holds(out, v) && MadeOf(out, objects) && fresh(objects)
  {
    objects := {};
    var applyTo: array?<ApplyTo>, rules: array?<Rule> := null, null;
    if p.applyTo != null {
      ghost var more;
      applyTo, more := CopyApplyToSlice(p.applyTo, v.applyTo.value);
      objects := objects + {applyTo} + more;
    }
    var labels := CopyMap(p.labels);
    if p.rules != null {
      ghost var more;
      rules, more := CopyRuleSlice(p.rules, v.rules.value);
      objects := objects + {rules} + more;
    }
    out := new Parameters(applyTo, labels, rules);
    objects := objects + {out} + Objects(labels);
  }

  /** The copy saved by Update survives anything done to the original afterwards: whatever is written
      to whatever the original is made of, the copy still holds what it held. */
  method CopySurvivesEdits(p: Parameters, ghost v: ParametersValue, ghost original: set<object>)
    returns (copy: Parameters)
    requires Holds(p, v) && MadeOf(p, original)
    modifies original
    ensures Holds(copy, v)
  {
    ghost var objects;
    copy, objects := CopyParameters(p, v);
    assert objects !! original;
    modify original;
  }

  ghost predicate NetworkHolds(p: NetworkStruct, v: NetworkParameters)
    reads *
  {
    && p.ipRange == v.ipRange && p.expose == v.exposeRoutesToVSwitch
    && SliceValue(p.subnets) == v.subnets && SliceValue(p.routes) == v.routes && MapValue(p.labels) == v.labels
  }

  /** NetworkParameters.DeepCopy. */
  method CopyNetwork(p: NetworkStruct, ghost v: NetworkParameters) returns (out: NetworkStruct)
    requires NetworkHolds(p, v)
    ensures NetworkHolds(out, v)
    ensures fresh(out) && fresh(Objects(out.subnets) + Objects(out.routes) + Objects(out.labels))
  {
    var subnets := CopySlice(p.subnets);
    var routes := CopySlice(p.routes);
    var labels := CopyMap(p.labels);
    out := new NetworkStruct(p.ipRange, subnets, routes, labels, p.expose);
  }
}
