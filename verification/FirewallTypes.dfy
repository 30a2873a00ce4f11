/** Firewall parameters and their translation into the SDK's types
    (apis/cloud/v1alpha1/firewall_types.go, internal/controller/firewall/firewall.go). */
module FirewallTypes {
  import opened Wrappers
  import opened Decimal
  import opened Labels
  import opened Cidr

  const IN := "in"
  const OUT := "out"
  const TCP := "tcp"
  const UDP := "udp"

  datatype FirewallPort = FirewallPort(all: bool, start: Option<int>, end: Option<int>)

  datatype FirewallRules = FirewallRules(
    direction: string,
    protocol: string,
    targetIPs: Option<seq<string>>,
    description: Option<string>,
    port: Option<FirewallPort>)

  datatype FirewallApplyTo = FirewallApplyTo(kind: string, serverID: Option<int>, labels: Option<LabelMap>)

  datatype FirewallParameters = FirewallParameters(
    applyTo: Option<seq<FirewallApplyTo>>,
    labels: Option<LabelMap>,
    rules: Option<seq<FirewallRules>>)

  /** hcloud.FirewallRule. */
  datatype SdkRule = SdkRule(
    description: Option<string>,
    direction: string,
    sourceIPs: seq<IPNet>,
    destinationIPs: seq<IPNet>,
    protocol: string,
    port: Option<string>)

  /** hcloud.FirewallResource. */
  datatype Resource = Resource(kind: string, server: Option<int>, selector: Option<string>)

  // ---------------------------------------------------------------------------
  // Ports
  // ---------------------------------------------------------------------------

  /** What a port setting says, without the redundancy of the Go struct. */
  datatype PortForm = AnyPort | NoPort | OnePort(port: int) | Range(first: int, last: int)

  function NormalForm(f: Option<FirewallPort>): PortForm {
    if f == None || f.value.all then AnyPort
    else if f.value.start == None then NoPort
    else if f.value.end == None || f.value.end == f.value.start then OnePort(f.value.start.value)
    else Range(f.value.start.value, f.value.end.value)
  }

  function FormText(form: PortForm): string {
    match form
    case AnyPort => "any"
    case NoPort => ""
    case OnePort(port) => Itoa(port)
    case Range(first, last) => Itoa(first) + "-" + Itoa(last)
  }

  /** FirewallPort.String; a nil receiver is None. */
  method PortString(f: Option<FirewallPort>) returns (s: string)
    ensures s == FormText(NormalForm(f))
    ensures f.None? || f.value.all ==> s == "any"
    ensures f.Some? && !f.value.all && f.value.start.None? ==> s == ""
    ensures f.Some? && !f.value.all && f.value.start.Some? ==>
              var FirewallPort(_, start, end) := f.value;
              s == if end.None? || end == start then Itoa(start.value)
                   else Itoa(start.value) + "-" + Itoa(end.value)
  {
    if f == None || f.value.all {
      s := "any";
      return;
    }
    s := "";
    if f.value.start != None {
      var start := f.value.start.value;
      s := Itoa(start);
      if f.value.end != None {
        var end := f.value.end.value;
        if start != end {
          s := s + ("-" + Itoa(end));
          assert s == Itoa(start) + "-" + Itoa(end);
        }
      }
    }
  }

  /** Reads a port text on its own, as whoever enforces the rule has to. */
  function ReadPort(text: string): Option<PortForm> {
    if text == "any" then Some(AnyPort)
    else if text == "" then Some(NoPort)
    else match TakeInt(text)
      case NoInt => None
      case Int(first, rest) =>
        if rest == "" then Some(OnePort(first))
        else if rest[0] != '-' then None
        else match TakeInt(rest[1..])
          case NoInt => None
          case Int(last, rest') => if rest' == "" then Some(Range(first, last)) else None
  }

  lemma ReadOnePort(port: int)
    ensures ReadPort(Itoa(port)) == Some(OnePort(port))
  {
    ItoaStart(port);
    TakeIntOfItoa(port, "");
    assert Itoa(port) + "" == Itoa(port);
  }

  /** Reading a range whose first number has been taken already. */
  lemma ReadRangeFrom(text: string, first: int, last: int, tail: string)
    requires text != "" && text[0] != 'a' && TakeInt(text) == Int(first, "-" + tail) && TakeInt(tail) == Int(last, "")
    ensures ReadPort(text) == Some(Range(first, last))
  {
  }

  lemma ReadRange(first: int, last: int)
    ensures ReadPort(Itoa(first) + "-" + Itoa(last)) == Some(Range(first, last))
  {
    var tail := Itoa(last);
    ItoaStart(first);
    TakeIntOfItoa(first, "-" + tail);
    TakeIntOfItoa(last, "");
    assert tail + "" == tail;
    var text := Itoa(first) + ("-" + tail);
    assert text[0] == Itoa(first)[0];
    ReadRangeFrom(text, first, last, tail);
    assert Itoa(first) + "-" + tail == text;
  }

  /** Every printed form reads back as itself, through the decimal digits, for all integers. */
  lemma ReadPortOfText(form: PortForm)
    ensures ReadPort(FormText(form)) == Some(form)
  {
    match form
    case AnyPort =>
    case NoPort =>
    case OnePort(port) => ReadOnePort(port);
    case Range(first, last) => ReadRange(first, last);
  }

  /** Two port settings print alike exactly when they say the same. */
  lemma SamePortText(a: Option<FirewallPort>, b: Option<FirewallPort>)
    ensures FormText(NormalForm(a)) == FormText(NormalForm(b)) <==> NormalForm(a) == NormalForm(b)
  {
    ReadPortOfText(NormalForm(a));
    ReadPortOfText(NormalForm(b));
  }

  // ---------------------------------------------------------------------------
  // Rules
  // ---------------------------------------------------------------------------

  function ReadNetwork(parse: Reader): string -> Option<IPNet> {
    text => match parse(text) case None => None case Some(notation) => Some(Network(notation))
  }

  function ReadNetworks(parse: Reader, texts: seq<string>): Option<seq<IPNet>> {
    Traverse(ReadNetwork(parse), texts)
  }

  function CompileRule(parse: Reader, f: FirewallRules): Option<SdkRule> {
    match ReadNetworks(parse, Elements(f.targetIPs))
    case None => None
    case Some(networks) =>
      Some(SdkRule(
             f.description,
             f.direction,
             if f.direction == IN then networks else [],
             if f.direction == OUT then networks else [],
             f.protocol,
             if f.protocol == TCP || f.protocol == UDP then Some(FormText(NormalForm(f.port))) else None))
  }

  function RuleCompiler(parse: Reader): FirewallRules -> Option<SdkRule> {
    f => CompileRule(parse, f)
  }

  function CompileRules(parse: Reader, input: seq<FirewallRules>): Option<seq<SdkRule>> {
    Traverse(RuleCompiler(parse), input)
  }

  /** Every CIDR text of the rule parses. */
  predicate AllParse(parse: Reader, f: FirewallRules) {
    forall i | 0 <= i < |Elements(f.targetIPs)| :: parse(Elements(f.targetIPs)[i]).Some?
  }

  lemma RuleCompiles(parse: Reader, f: FirewallRules)
    ensures CompileRule(parse, f).Some? <==> AllParse(parse, f)
  {
    TraverseIsAllOrNothing(ReadNetwork(parse), Elements(f.targetIPs));
  }

  /** The conversion of a list of rules is all or nothing: it fails exactly when some CIDR of some
      rule does not parse, and otherwise keeps the number of rules and their order. */
  lemma CompileIsAllOrNothing(parse: Reader, input: seq<FirewallRules>)
    ensures CompileRules(parse, input).Some? <==> forall i | 0 <= i < |input| :: AllParse(parse, input[i])
    ensures CompileRules(parse, input).Some? ==>
              && |CompileRules(parse, input).value| == |input|
              && forall i | 0 <= i < |input| ::
                   CompileRule(parse, input[i]) == Some(CompileRules(parse, input).value[i])
  {
    TraverseIsAllOrNothing(RuleCompiler(parse), input);
    forall i | 0 <= i < |input|
      ensures RuleCompiler(parse)(input[i]).Some? <==> AllParse(parse, input[i])
    {
      RuleCompiles(parse, input[i]);
    }
  }

  /** FirewallRules.ToFirewallRule; None is its error. */
  method ToFirewallRule(parse: Reader, f: FirewallRules) returns (r: Option<SdkRule>)
    ensures r == CompileRule(parse, f)
  {
    var opts := SdkRule(f.description, f.direction, [], [], f.protocol, None);
    if f.protocol == TCP || f.protocol == UDP {
      var text := PortString(f.port);
      opts := opts.(port := Some(text));
    }
    var texts := Elements(f.targetIPs);
    var targetIPs: seq<IPNet> := [];
    for i := 0 to |texts|
      invariant ReadNetworks(parse, texts[..i]) == Some(targetIPs)
    {
      TraverseStep(ReadNetwork(parse), texts, i);
      var netip := parse(texts[i]);
      if netip == None {
        TraverseIsAllOrNothing(ReadNetwork(parse), texts);
        return None;
      }
      targetIPs := targetIPs + [Network(netip.value)];
    }
    assert texts[..|texts|] == texts;
    if f.direction == IN {
      opts := opts.(sourceIPs := targetIPs);
    } else if f.direction == OUT {
      opts := opts.(destinationIPs := targetIPs);
    }
    r := Some(opts);
  }

  /** getFirewallRules; None is its error. */
  method GetFirewallRules(parse: Reader, input: seq<FirewallRules>) returns (out: Option<seq<SdkRule>>)
    ensures out == CompileRules(parse, input)
    ensures out.None? <==> exists i :: 0 <= i < |input| && !AllParse(parse, input[i])
  {
    CompileIsAllOrNothing(parse, input);
    var rules: seq<SdkRule> := [];
    for i := 0 to |input|
      invariant CompileRules(parse, input[..i]) == Some(rules)
    {
      TraverseStep(RuleCompiler(parse), input, i);
      var r := ToFirewallRule(parse, input[i]);
      if r == None {
        RuleCompiles(parse, input[i]);
        return None;
      }
      rules := rules + [r.value];
    }
    assert input[..|input|] == input;
    out := Some(rules);
  }

  // ---------------------------------------------------------------------------
  // Which packets a rule admits
  // ---------------------------------------------------------------------------

  datatype Packet = Packet(incoming: bool, protocol: string, port: nat, remote: Address) {
    function Direction(): string {
      if incoming then IN else OUT
    }
  }

  /** The ports a port setting of the custom resource stands for. */
  predicate PortWanted(f: Option<FirewallPort>, port: nat) {
    match f
    case None => true
    case Some(FirewallPort(all, start, end)) =>
      all || (start.Some? && start.value <= port <= (if end.Some? then end.value else start.value))
  }

  /** A rule of the custom resource admits a packet. */
  ghost predicate Wants(parse: Reader, f: FirewallRules, p: Packet) {
    && f.direction == p.Direction()
    && f.protocol == p.protocol
    && (p.protocol == TCP || p.protocol == UDP ==> PortWanted(f.port, p.port))
    && exists i :: 0 <= i < |Elements(f.targetIPs)| && TextCovers(parse, Elements(f.targetIPs)[i], p.remote)
  }

  ghost predicate TextCovers(parse: Reader, text: string, a: Address) {
    parse(text).Some? && parse(text).value.Covers(a)
  }

  /** The ports a port text of an SDK rule stands for; no text stands for every port. */
  predicate PortTextAdmits(text: Option<string>, port: nat) {
    text == None ||
    match ReadPort(text.value)
    case None => false
    case Some(AnyPort) => true
    case Some(NoPort) => false
    case Some(OnePort(n)) => port == n
    case Some(Range(first, last)) => first <= port <= last
  }

  /** A rule of the SDK admits a packet: sources count for incoming ones, destinations for outgoing. */
  ghost predicate Admits(r: SdkRule, p: Packet) {
    && r.direction == p.Direction()
    && r.protocol == p.protocol
    && PortTextAdmits(r.port, p.port)
    && exists n | n in (if p.incoming then r.sourceIPs else r.destinationIPs) :: n.Contains(p.remote)
  }

  /** Some rule of the custom resource wants the packet. */
  ghost predicate AnyWants(parse: Reader, rules: seq<FirewallRules>, p: Packet) {
    exists f | f in rules :: Wants(parse, f, p)
  }

  /** Some rule of the SDK list admits the packet. */
  ghost predicate AnyAdmits(rules: seq<SdkRule>, p: Packet) {
    exists r | r in rules :: Admits(r, p)
  }

  lemma PortTextMeaning(f: Option<FirewallPort>, port: nat)
    ensures PortTextAdmits(Some(FormText(NormalForm(f))), port) <==> PortWanted(f, port)
  {
    ReadPortOfText(NormalForm(f));
  }

  /** As the API validates it: values from 1 on, and a range that is not empty. */
  predicate WellFormed(f: Option<FirewallPort>) {
    f.Some? ==>
      && (f.value.start.Some? ==> f.value.start.value >= 1)
      && (f.value.end.Some? ==> f.value.end.value >= 1)
      && (f.value.start.Some? && f.value.end.Some? ==> f.value.start.value <= f.value.end.value)
  }

  /** The text is canonical: settings print alike exactly when they stand for the same ports. */
  lemma SamePortsSameText(a: Option<FirewallPort>, b: Option<FirewallPort>)
    requires WellFormed(a) && WellFormed(b)
    ensures FormText(NormalForm(a)) == FormText(NormalForm(b))
            <==> forall port: nat :: PortWanted(a, port) <==> PortWanted(b, port)
  {
    SamePortText(a, b);
    if FormText(NormalForm(a)) == FormText(NormalForm(b)) {
      forall port: nat
        ensures PortWanted(a, port) <==> PortWanted(b, port)
      {
        PortTextMeaning(a, port);
        PortTextMeaning(b, port);
      }
    } else if forall port: nat :: PortWanted(a, port) <==> PortWanted(b, port) {
      assert PortWanted(a, Top(a) + Top(b) + 1) <==> PortWanted(b, Top(a) + Top(b) + 1);
      assert PortWanted(a, Top(a)) <==> PortWanted(b, Top(a));
      assert PortWanted(a, Top(b)) <==> PortWanted(b, Top(b));
      assert PortWanted(a, Bottom(a)) <==> PortWanted(b, Bottom(a));
      assert PortWanted(a, Bottom(b)) <==> PortWanted(b, Bottom(b));
    }
  }

  /** The first and the last port of a well-formed setting that is not for all ports, if it has one. */
  function Bottom(f: Option<FirewallPort>): nat
    requires WellFormed(f)
  {
    if f.Some? && f.value.start.Some? then f.value.start.value else 0
  }

  function Top(f: Option<FirewallPort>): nat
    requires WellFormed(f)
  {
    if f.Some? && f.value.start.Some? && f.value.end.Some? then f.value.end.value else Bottom(f)
  }

  lemma RuleMeaning(parse: Reader, f: FirewallRules, p: Packet)
    requires CompileRule(parse, f).Some?
    ensures Admits(CompileRule(parse, f).value, p) <==> Wants(parse, f, p)
  {
    var texts := Elements(f.targetIPs);
    var networks := ReadNetworks(parse, texts).value;
    TraverseIsAllOrNothing(ReadNetwork(parse), texts);
    forall i | 0 <= i < |texts|
      ensures networks[i].Contains(p.remote) <==> TextCovers(parse, texts[i], p.remote)
    {
      MaskingKeepsMeaning(parse(texts[i]).value, p.remote);
    }
    PortTextMeaning(f.port, p.port);
    var r := CompileRule(parse, f).value;
    if r.direction == p.Direction() {
      assert (if p.incoming then r.sourceIPs else r.destinationIPs) == networks;
      if Wants(parse, f, p) {
        var i :| 0 <= i < |texts| && TextCovers(parse, texts[i], p.remote);
        assert networks[i] in networks;
      }
    }
  }

  /** Two lists whose elements correspond one by one have an element in common or not together. */
  lemma AdmitsTogether(parse: Reader, input: seq<FirewallRules>, rules: seq<SdkRule>, p: Packet)
    requires |rules| == |input|
    requires forall i | 0 <= i < |input| :: Admits(rules[i], p) <==> Wants(parse, input[i], p)
    ensures AnyAdmits(rules, p) <==> AnyWants(parse, input, p)
  {
    if AnyWants(parse, input, p) {
      var f :| f in input && Wants(parse, f, p);
      var i :| 0 <= i < |input| && input[i] == f;
      assert rules[i] in rules && Admits(rules[i], p);
    }
    if AnyAdmits(rules, p) {
      var r :| r in rules && Admits(r, p);
      var i :| 0 <= i < |rules| && rules[i] == r;
      assert input[i] in input && Wants(parse, input[i], p);
    }
  }

  /** Rule compilation preserves meaning: once the rules compile, the compiled list admits a packet
      exactly when the rules of the custom resource do, through the printed ports and masked networks. */
  lemma CompilationPreservesMeaning(parse: Reader, input: seq<FirewallRules>, p: Packet)
    requires CompileRules(parse, input).Some?
    ensures AnyAdmits(CompileRules(parse, input).value, p) <==> AnyWants(parse, input, p)
  {
    CompileIsAllOrNothing(parse, input);
    var rules := CompileRules(parse, input).value;
    forall i | 0 <= i < |input|
      ensures Admits(rules[i], p) <==> Wants(parse, input[i], p)
    {
      RuleMeaning(parse, input[i], p);
    }
    AdmitsTogether(parse, input, rules, p);
  }

  /** Description, direction and protocol are carried over, and only TCP and UDP have a port. */
  lemma RuleCarriesOver(parse: Reader, f: FirewallRules)
    requires CompileRule(parse, f).Some?
    ensures var r := CompileRule(parse, f).value;
            && r.description == f.description && r.direction == f.direction && r.protocol == f.protocol
            && (r.port.Some? <==> f.protocol == TCP || f.protocol == UDP)
  {
  }

  /** Each rule's networks sit in exactly one of the two lists; any other direction drops them all,
      and such a rule admits nothing. */
  lemma NetworksOnOneSide(parse: Reader, f: FirewallRules)
    requires CompileRule(parse, f).Some?
    ensures var r := CompileRule(parse, f).value;
            && (f.direction == IN ==> |r.sourceIPs| == |Elements(f.targetIPs)| && r.destinationIPs == [])
            && (f.direction == OUT ==> |r.destinationIPs| == |Elements(f.targetIPs)| && r.sourceIPs == [])
            && (f.direction != IN && f.direction != OUT ==> forall p :: !Admits(r, p))
  {
    TraverseIsAllOrNothing(ReadNetwork(parse), Elements(f.targetIPs));
  }

  // ---------------------------------------------------------------------------
  // What a firewall applies to
  // ---------------------------------------------------------------------------

  /** `r` is a resource that ToFirewallResource may build: the selector text depends on map order. */
  ghost predicate IsResourceOf(r: Resource, f: FirewallApplyTo) {
    && r.kind == f.kind
    && r.server == f.serverID
    && (r.selector.Some? <==> f.labels.Some?)
    && (f.labels.Some? ==> IsSelectorOf(r.selector.value, f.labels.value))
  }

  method ToFirewallResource(f: FirewallApplyTo) returns (r: Resource)
    ensures IsResourceOf(r, f)
    ensures r.kind == f.kind && r.server == f.serverID && (r.selector.Some? <==> f.labels.Some?)
  {
    var server: Option<int>, labels: Option<string> := None, None;
    if f.serverID != None {
      server := Some(f.serverID.value);
    }
    if f.labels != None {
      var selector := ToSelector(f.labels.value);
      labels := Some(selector);
    }
    r := Resource(f.kind, server, labels);
  }

  /** Entries with unambiguous labels that give the same resource are the same. */
  lemma ResourcesTellEntriesApart(r: Resource, a: FirewallApplyTo, b: FirewallApplyTo)
    requires IsResourceOf(r, a) && IsResourceOf(r, b)
    requires a.labels.Some? ==> Unambiguous(a.labels.value)
    requires b.labels.Some? ==> Unambiguous(b.labels.value)
    ensures a == b
  {
    if r.selector.Some? {
      SelectorsTellLabelsApart(a.labels.value, b.labels.value, r.selector.value);
    }
  }

  /** The resource selects what its `applyTo` entry names, as a reader of the selector sees it. */
  lemma ResourceMeaning(r: Resource, f: FirewallApplyTo)
    requires IsResourceOf(r, f) && f.labels.Some?
    ensures ParseSelector(r.selector.value) == Some(f.labels.value) <==> Unambiguous(f.labels.value)
  {
    SelectorRoundTrip(f.labels.value, r.selector.value);
  }
}
