# Verified model of the Hetzner provider

A Crossplane provider keeps cloud objects in line with Kubernetes resources. For each kind the
reconciler calls Observe, and then Create, Update or Delete, over three copies of the truth: the
`spec` the user wants, the parameters last recorded in `status.atProvider`, and the object in the
cloud. Any call may fail, with or without having had its effect. This project models that state
machine for Firewall, Volume, Server and Network, the compiler that turns firewall rules into the
SDK's rules, and the helpers the controllers share, and proves what they keep over every run.

`dafny verify dfyconfig.toml` verifies everything.

## How the model is built

- **Protocol and controller.** `XProtocol` states each operation as a relation between worlds
  (`CreateRel`, `UpdateRel`, `DeleteRel`), a run as a sequence of such steps and spec edits, and the
  theorems about runs. `XController` holds the class `External` with the methods of the Go file; each
  is proved to stay within its relation, `Reconcile` within one step of a run, and `Live` shows that
  everything the class ever does is a run. So the theorems about runs hold of the methods.
- **The cloud** is a class whose methods fail arbitrarily: refused, done, or failed after all, partly
  or not at all done. An action (`Actions.ActionApi`) ends well, ends badly or never ends; the call
  that starts it has its complete effect if its action ends well, and an arbitrary part of it
  otherwise. Ids are never handed out twice and nobody else changes the cloud.
- **Faults are counted.** Every class of the outside world counts, in a ghost `faults`, each call that
  fails although there was nothing wrong with it, each action that does not end well and each deadline
  that passes; only a deadline of a minute or more counts. Every operation states exactly when it succeeds: there was no fault, and a condition
  holds that can be checked beforehand (the rules compile, the id exists, the range parses).
- **History.** A ghost `dirty` says what failed calls may have left undone since the last success.
  For a firewall it is one flag. For the other kinds it has two (`Reconcile.Doubt`): doubt about the
  labels, which every successful Update ends, and about the one field that Update touches only where
  spec and recorded status differ (attachment, power, IP range), which only an Update that changes
  that field ends. Doubt about that field arises only once a change of it has been asked for.
- **Method and function.** Where the Go code loops over a slice or map, a method does so, in any map
  order, and is proved equal to a function or relation; lemmas then say what that means. Helpers with
  the names `Write`, `Change`, `Save`, `Order`, `Prepare`, `LookUp`, `AttachAll` and `Move` are parts of one
  Go function.
- **Parameters of the model.** Text grammars of `net.ParseCIDR` and `net.ParseIP`, base64 decoding,
  MD5 and the clock are arbitrary functions or inputs. A nil dereference is the outcome `Panicked`.

## What the code turns out not to do

Each with a run or input that shows it, and the exact condition.

- An Update that fails half way and a spec that is then taken back leave a resource that counts as up
  to date while the cloud is changed (`RevertAfterFailureGoesUnnoticed`, `AbandonedAttachmentStays`).
  Which edits can be taken back safely is a check of spec against status, exact for every kind (the
  `FailedUpdateCanBeTakenBack` lemmas). Firewall: rules that do not compile at all, or neither rules nor
  labels change in effect and spec and status apply to nothing. Volume: a server is recorded, so that
  no report of up to date ever comes, or neither server nor labels change in effect. Server: neither
  power nor labels change in effect. Network: neither flag nor labels change in effect, and the range
  is the same network or does not parse.
- A successful Update of a volume leaves a wrong attachment exactly when the ids do not count as
  different (`AbandonedAttachmentStays`, `UpdateAttaches`).
- A volume that wants a server, or records one, is never up to date, because the ids are compared as
  pointers (`AttachedVolumesNeverSettle`); every successful Update detaches it from the server it is on
  and attaches it to the one it wants, be it the same (`VolumeController.External.Update`).
- `Volume.Delete` dereferences a nil pointer, before any request, exactly when no server id is recorded
  (`VolumeController.External.Delete`, `DeleteCanSucceed`): a volume created without a server cannot be
  deleted (`CreatedWithoutServerStays`).
- The recorded size of a volume falls with the spec, below the size in the cloud
  (`RecordedSizeMayShrink`), exactly when the spec is below the recorded size
  (`RecordedSizeFollowsSpec`).
- A server is started by `startAfterCreate` while `powerOn` is recorded; the power is the recorded one
  exactly if they are equal, and the server counts as up to date either way (`CreationPower`,
  `CreatedInWrongPower`).
- An empty label map that is not nil is dropped by JSON and never compares equal
  (`EmptyLabelsNeverSettle`, `UpdateSettles`).
- Edits of subnets and routes are never noticed (`TopologyEditsGoUnnoticed`, `AddedRouteIsMissing`): the
  network has the topology of the spec exactly when it reads like the recorded one (`TopologyAsWanted`).
- An IP range that does not parse is noticed only after the network was written to
  (`BadRangeFailsAfterWriting`, `NetworkController.External.Update`); an Update can succeed exactly when
  the spec keeps the recorded range or names one that parses (`UpdateCanSucceed`).
- `escapeLabels` escapes nothing, so labels with commas give ambiguous selectors
  (`CommaInValueCollides`), and exactly labels without commas, or equals signs in keys, read back
  (`SelectorRoundTrip`).

The runs among these are runs of the relations, which list what the methods may do.

## Model

| member | source | states |
|---|---|---|
| `FirewallProtocol.RunSafety` | internal/controller/firewall/firewall.go:134-265 | In every state of every run, under all failures and spec edits, a firewall without an unfinished call agrees with the recorded parameters: labels over defaults, applied set, rules |
| `FirewallProtocol.UpToDateMeansAgreement` | apis/cloud/v1alpha1/firewall_types.go:197-216 | A clean up-to-date report means the cloud firewall agrees with the spec and admits exactly the packets the rules of the spec want |
| `FirewallProtocol.UpToDateMeansRecorded` | apis/cloud/v1alpha1/firewall_types.go:197-216 | Up to date exactly when the status records the spec |
| `FirewallProtocol.UpdateStabilises` | internal/controller/firewall/firewall.go:193-238 | From any state an earlier call left, a successful Update makes the cloud agree with the spec down to single packets and ends the doubt; it is up to date afterwards exactly when the label map is not empty-but-non-nil |
| `FirewallProtocol.FailedUpdateClaimsNothingNew` | internal/controller/firewall/firewall.go:232-236 | An Update that fails changes the recorded status only if the cloud already agrees with what it then records |
| `FirewallProtocol.PassSatisfies` | hack/helpers/controller/KIND_LOWER/KIND_LOWER.go.tmpl:144-151 | Every error-free pass, whichever branch it takes, leaves an existing, up-to-date firewall that agrees with the spec unless in doubt, and out of doubt if there was anything to do |
| `FirewallProtocol.EmptyLabelsNeverSettle` | apis/cloud/v1alpha1/firewall_types.go:32-33 | With an empty, non-nil label map in the spec no reachable state is up to date |
| `FirewallProtocol.RevertAfterFailureGoesUnnoticed` | internal/controller/firewall/firewall.go:209-236 | A run of four steps after which the firewall counts as up to date and does not agree with the spec |
| `FirewallProtocol.FailedUpdateCanBeTakenBack` | internal/controller/firewall/firewall.go:201-236 | From a clean state, every failure of an Update can be taken back with reports that can be trusted exactly when the edit is harmless: rules that do not compile, or the same rules and labels in effect and no resources on either side |
| `Reconcile.AgreeingWithBoth` | pkg/hcloud/labels.go:16-30 | All labels in the cloud that agree with one label map agree with another exactly when the two are the same beside the defaults |
| `FirewallProtocol.NeverAMixture` | internal/controller/firewall/firewall.go:193-265 | In every state of every run, in doubt too, the firewall carries the whole rule list of one spec that was in force, the labels of one, and resources among those of one |
| `FirewallController.External.Observe` | internal/controller/firewall/firewall.go:134-154 | Fails exactly when the lookup does; otherwise reports existence as the cloud has it and up-to-dateness as the status records it |
| `FirewallController.External.Create` | internal/controller/firewall/firewall.go:156-191 | Succeeds exactly when there is no fault and the rules compile; success adds one firewall that agrees with the spec and records it; rules that do not compile change nothing; every failure leaves nothing or that firewall |
| `FirewallController.External.Update` | internal/controller/firewall/firewall.go:193-238 | Succeeds exactly when there is no fault, the rules compile and the id exists; wherever it stops, the firewall is as before, relabelled with part of the old or part of the new resources, or complete; bad rules and an unknown id change nothing |
| `FirewallController.External.Delete` | internal/controller/firewall/firewall.go:240-265 | Succeeds exactly when there is no fault and the firewall exists, and then removes it only; the deletion is requested only once nothing is applied; a failure leaves the firewall with some of its resources gone, or gone |
| `FirewallController.External.RemoveResources` | internal/controller/firewall/firewall.go:287-300 | Succeeds exactly when there is no fault, and then the given resources are no longer applied; a failure takes away some of them; nothing else changes |
| `FirewallController.External.ApplyResources` | internal/controller/firewall/firewall.go:267-285 | Succeeds exactly when there is no fault, and then the resources of the list are applied besides those that were; a failure brings some of them; nothing else changes |
| `FirewallController.External.SetRules` | internal/controller/firewall/firewall.go:302-317 | Succeeds exactly when there is no fault, and then sets exactly the given rules; failure sets them or changes nothing |
| `FirewallController.External.Reconcile` | hack/helpers/controller/KIND_LOWER/KIND_LOWER.go.tmpl:144-151 | Any pass is nothing or one step of a run, and leaves an up-to-date resource alone; it succeeds exactly when there is no fault and the rules compile where that is needed; success from any reachable state satisfies the resource and ends every doubt if there was anything to do, or it is gone when deleting |
| `FirewallController.External.Live` | internal/controller/firewall/firewall.go:134-265 | Any number of passes and edits is a run, so run safety holds of the class |
| `FirewallTypes.CompilationPreservesMeaning` | internal/controller/firewall/firewall.go:319-331 | For every list of rules that compiles and every packet, the SDK rules admit it exactly when the rules of the spec want it, through the printed ports and masked networks |
| `FirewallTypes.RuleMeaning` | apis/cloud/v1alpha1/firewall_types.go:92-120 | The same for one rule |
| `FirewallTypes.CompileIsAllOrNothing` | internal/controller/firewall/firewall.go:319-331 | Compiling fails exactly when some CIDR of some rule does not parse; otherwise number and order are kept |
| `FirewallTypes.NetworksOnOneSide` | apis/cloud/v1alpha1/firewall_types.go:112-117 | The networks sit in exactly one of sources and destinations for in and out; any other direction drops them and admits nothing |
| `FirewallTypes.RuleCarriesOver` | apis/cloud/v1alpha1/firewall_types.go:93-101 | Description, direction and protocol are carried over, and exactly TCP and UDP rules have a port |
| `FirewallTypes.ToFirewallRule` | apis/cloud/v1alpha1/firewall_types.go:92-120 | The loop computes the compiled rule, or fails |
| `FirewallTypes.GetFirewallRules` | internal/controller/firewall/firewall.go:319-331 | The loop computes the compiled list, and fails exactly when a CIDR of some rule does not parse |
| `FirewallTypes.PortString` | apis/cloud/v1alpha1/firewall_types.go:136-157 | Prints the normal form of the port setting |
| `FirewallTypes.ReadPortOfText` | apis/cloud/v1alpha1/firewall_types.go:136-157 | Every printed form, of any integers, is read back as itself, through the decimal digits |
| `FirewallTypes.SamePortText` | apis/cloud/v1alpha1/firewall_types.go:136-157 | Two port settings print alike exactly when their normal forms are equal |
| `FirewallTypes.SamePortsSameText` | apis/cloud/v1alpha1/firewall_types.go:136-157 | Well-formed settings print alike exactly when they stand for the same ports |
| `FirewallTypes.PortTextMeaning` | apis/cloud/v1alpha1/firewall_types.go:136-157 | The printed text stands for exactly the ports that the setting stands for |
| `FirewallTypes.ToFirewallResource` | apis/cloud/v1alpha1/firewall_types.go:56-76 | Keeps type and server id, and has a selector of the labels exactly when there are labels |
| `FirewallTypes.ResourceMeaning` | apis/cloud/v1alpha1/firewall_types.go:65-69 | The selector of a resource reads back as the labels of the entry exactly when these are unambiguous |
| `FirewallTypes.ResourcesTellEntriesApart` | apis/cloud/v1alpha1/firewall_types.go:56-76 | Entries with unambiguous labels and the same resource are equal |
| `Decimal.TakeIntOfItoa` | apis/cloud/v1alpha1/firewall_types.go:142-154 | A printed integer, negative ones included, is read back from the front of any text that does not go on with a digit |
| `Cidr.MaskingKeepsMeaning` | apis/cloud/v1alpha1/firewall_types.go:103-110 | The masked network contains an address exactly when the leading prefix bits of the text's address agree with it (section 3.1 of RFC 4632, section 2.3 of RFC 4291), host bits set or not |
| `Cidr.MaskEqualIsHighBits` | apis/cloud/v1alpha1/firewall_types.go:103-110 | Two masked addresses are equal exactly when all bits above the host bits are |
| `Labels.ApplyDefaultLabels` | pkg/hcloud/labels.go:16-30 | In every map order the result is the one overlay of the defaults with the inputs |
| `Labels.DefaultsMeaning` | pkg/hcloud/labels.go:17-20 | The defaults are the provider and the time, which reads back from its text |
| `Labels.OverlayMeaning` | pkg/hcloud/labels.go:16-30 | The overlay has the keys of defaults and inputs; a key takes its value from the last input that has it, else the default |
| `Labels.ToSelector` | pkg/hcloud/labels.go:32-40 | The text is the joined pieces in some order of the keys, each once |
| `Labels.EscapeLabels` | pkg/hcloud/labels.go:42-50 | The copy equals the input: nothing is escaped |
| `Labels.SelectorRoundTrip` | pkg/hcloud/labels.go:32-50 | For every order, reading the selector gives the labels back exactly when no key has a comma or equals sign and no value a comma |
| `Labels.SelectorsTellLabelsApart` | pkg/hcloud/labels.go:32-50 | Unambiguous labels with a selector text in common are equal |
| `Labels.CommaInValueCollides` | pkg/hcloud/labels.go:42-50 | Two different label maps with the same selector |
| `VolumeProtocol.RunSafety` | internal/controller/volume/volume.go:134-284 | In every state of every run, doubtful ones included, the cloud size is at least the recorded size and automount, format and location are the recorded ones; without doubt the attachment and labels are; for every comparison of ids that never takes different ones for equal |
| `VolumeProtocol.UpToDateMeansLargeEnough` | apis/cloud/v1alpha1/volume_types.go:88-109 | Up to date means at least as large as the spec, whatever failed before, and attached and labelled as the spec says where there is no doubt |
| `VolumeProtocol.UpToDateMeansNothingToChange` | apis/cloud/v1alpha1/volume_types.go:88-109 | Up to date exactly when an Update would change neither labels, nor server, nor the size of any volume |
| `VolumeProtocol.CreationIsFrozen` | internal/controller/volume/volume.go:249-251 | As long as the resource names one volume, what is recorded beside labels, server and size never changes |
| `VolumeProtocol.UpdateAttaches` | internal/controller/volume/volume.go:236-252 | A successful Update leaves the volume on the server of the spec exactly when the ids count as different or it was there already, so always without doubt; labels and size are right in any case |
| `VolumeProtocol.UpdateSettles` | internal/controller/volume/volume.go:249-254 | When exactly a successful Update is reported up to date |
| `VolumeProtocol.PassSatisfies` | hack/helpers/controller/KIND_LOWER/KIND_LOWER.go.tmpl:144-151 | Every error-free pass leaves the volume large enough, and attached and labelled as wanted where there is no doubt; doubt stays only about a server that does not count as different |
| `VolumeProtocol.AttachedVolumesNeverSettle` | apis/cloud/v1alpha1/volume_types.go:99-102 | By pointer, up to date means up to date by value and no server wanted |
| `VolumeProtocol.RecordedSizeMayShrink` | internal/controller/volume/volume.go:251 | A run whose recorded size falls while the volume keeps its size |
| `VolumeProtocol.RecordedSizeFollowsSpec` | internal/controller/volume/volume.go:243-251 | A success changes the size exactly when the spec is above the recorded size; the recorded size falls exactly when the spec is below it, and exactly then leaves the size of a volume that had it |
| `VolumeProtocol.DeleteCanSucceed` | internal/controller/volume/volume.go:267-281 | A volume can be deleted exactly when it exists and a server id is recorded |
| `VolumeProtocol.CreatedWithoutServerStays` | internal/controller/volume/volume.go:267-272 | A run that creates a volume without a server, after which every Delete panics and changes nothing |
| `VolumeProtocol.AbandonedAttachmentStays` | internal/controller/volume/volume.go:236-256 | A run that leaves an unwanted attachment which a further successful Update keeps |
| `VolumeProtocol.FailedUpdateCanBeTakenBack` | internal/controller/volume/volume.go:230-256 | For every sound comparison: from a clean state every failure of an Update can be taken back with reports that can be trusted exactly when the recorded id never passes for itself, or the edit keeps the server and, in effect, the labels |
| `VolumeProtocol.NeverElsewhere` | internal/controller/volume/volume.go:161-284 | In every state of every run, in doubt too, the volume is on no server or on that of a spec that was in force, with labels and size of specs that were in force |
| `VolumeController.VolumeResource.LoadedPointersDiffer` | apis/cloud/v1alpha1/volume_types.go:99-102 | On a freshly decoded resource the pointers are equal exactly when both are nil, and up-to-dateness is the pointer comparison |
| `VolumeController.External.Observe` | internal/controller/volume/volume.go:134-159 | Fails exactly when the lookup does; otherwise reports existence as the cloud has it and up-to-dateness with pointers compared |
| `VolumeController.External.Create` | internal/controller/volume/volume.go:161-212 | Succeeds exactly when there is no fault and location and server exist; creates and records the volume of the spec, and nothing unless they exist |
| `VolumeController.External.Update` | internal/controller/volume/volume.go:214-257 | Succeeds exactly when there is no fault, the volume exists and parameters are recorded; steps towards labels, attachment and size of the spec in this order; every request finds the volume on the old server or none, and only a detached volume is asked onto the target; where the pointers differ a success has made exactly the detach and attach requests |
| `VolumeController.External.Delete` | internal/controller/volume/volume.go:259-284 | Makes a request exactly when the volume exists and a server id is recorded, and succeeds exactly when also there is no fault; without faults it panics exactly when no id is recorded; the deletion is requested only once the volume is on no server; success removes the volume and failure at most detaches it or removes it |
| `VolumeController.External.Resize` | internal/controller/volume/volume.go:286-297 | Succeeds exactly when there is no fault, and then sets the size; failure sets it or nothing |
| `VolumeController.External.UpdateServerAttachment` | internal/controller/volume/volume.go:299-328 | Detaches what is attached and then attaches to the server of each element of params: the requests made are a first part of that plan, each carried out before the next, and all of it when there is no fault |
| `VolumeController.PlansArePolite` | internal/controller/volume/volume.go:299-328 | Requests that follow the plan of an Update or Delete only ever find the volume on the old server or none, and ask only a detached one onto the target |
| `VolumeController.PlanMeaning` | internal/controller/volume/volume.go:299-328 | The planned requests are one detach if the volume is on a server and one attach for each server id, in order, each starting where the one before has led |
| `VolumeController.External.Reconcile` | hack/helpers/controller/KIND_LOWER/KIND_LOWER.go.tmpl:144-151 | Any pass is nothing or one step of a run, and leaves an up-to-date resource alone; it succeeds exactly when there is no fault and location and server exist, parameters are recorded, or a server id is recorded for deleting, where that is needed; success from any reachable state satisfies the resource; if there was anything to do it ends doubt wherever an Update can, or it is gone when deleting |
| `VolumeController.External.Live` | internal/controller/volume/volume.go:134-284 | Any number of passes and edits is a run |
| `ServerProtocol.RunSafety` | internal/controller/server/server.go:147-340 | Over all runs power and labels of the server are the recorded ones wherever there is no doubt about them |
| `ServerProtocol.UpToDateMeansPowerAsWanted` | apis/cloud/v1alpha1/server_types.go:126-142 | Up to date without doubt means the power state the spec asks for |
| `ServerProtocol.UpToDateMeansRecorded` | apis/cloud/v1alpha1/server_types.go:126-142 | Up to date exactly when recording labels and power of the spec would change nothing |
| `ServerProtocol.OrderedAsRecorded` | internal/controller/server/server.go:238-319 | In every state of every run, in doubt too, the server was requested as the recorded image, type, place, ids, keys and user data say |
| `ServerProtocol.CreationIsFrozen` | internal/controller/server/server.go:315-316 | As long as the resource names one server, what is recorded beside labels and power never changes |
| `ServerProtocol.UpdateSettlesPower` | internal/controller/server/server.go:297-319 | A successful power change ends every doubt; an Update that finds no difference leaves power and doubt alone |
| `ServerProtocol.CreationPower` | internal/controller/server/server.go:259-271 | A new server's power is the recorded one exactly when startAfterCreate equals powerOn |
| `ServerProtocol.CreatedInWrongPower` | internal/controller/server/server.go:238-271 | For every spec that can be ordered with startAfterCreate unlike powerOn and labels that survive being stored, a run that ends up to date in the wrong power state |
| `ServerProtocol.FailedUpdateCanBeTakenBack` | internal/controller/server/server.go:289-319 | From a clean state every failure of an Update can be taken back with reports that can be trusted exactly when the edit keeps power and, in effect, labels |
| `ServerProtocol.PassSatisfies` | hack/helpers/controller/KIND_LOWER/KIND_LOWER.go.tmpl:144-151 | Every error-free pass leaves a server with labels and power as wanted where there is no doubt; doubt stays only about a power state the spec does not change or that creation got wrong |
| `ServerController.External.Create` | internal/controller/server/server.go:174-276 | Succeeds exactly when there is no fault, everything the spec names exists and its keys are keys; a server is requested and SSH keys are uploaded only if everything exists; the request says what the spec says; before it only SSH keys change, and these only grow by wanted fingerprints |
| `ServerController.External.LookUp` | internal/controller/server/server.go:342-390 | Finds the objects exactly when there is no fault and all ids exist; they are those of the ids, same number and order |
| `ServerController.External.GetDatacenterOrLocation` | pkg/hcloud/hcloud.go:63-87 | Succeeds exactly when there is no fault and the datacenter, or without one the location, exists; a datacenter goes before a location |
| `ServerController.External.Prepare` | internal/controller/server/server.go:174-236 | Gives a request exactly when there is no fault and everything the spec names exists; apart from SSH keys it says what the spec says |
| `ServerController.External.Update` | internal/controller/server/server.go:278-322 | Succeeds exactly when there is no fault, the server exists and parameters are recorded; labels first, then power if recorded and wanted power differ; recorded only when done |
| `ServerController.External.Reconcile` | hack/helpers/controller/KIND_LOWER/KIND_LOWER.go.tmpl:144-151 | Any pass is nothing or one step of a run, and leaves an up-to-date resource alone; it succeeds exactly when there is no fault and the server can be requested or parameters are recorded where that is needed; success from any reachable state satisfies the resource; if there was anything to do it ends doubt wherever a pass can, or it is gone when deleting |
| `ServerController.External.Live` | internal/controller/server/server.go:147-340 | Any number of passes and edits is a run |
| `NetworkProtocol.RunSafety` | internal/controller/network/network.go:142-295 | In every state of every run the recorded subnets and routes are those of the cloud network; labels, flag and range are the recorded ones where there is no doubt |
| `NetworkProtocol.TopologyIsFrozen` | internal/controller/network/network.go:262-271 | As long as the resource names one network its recorded subnets and routes never change |
| `NetworkProtocol.UpToDateMeansRecorded` | apis/cloud/v1alpha1/network_types.go:99-118 | Up to date exactly when the status records the spec but for subnets and routes |
| `NetworkProtocol.TopologyMeaning` | internal/controller/network/network.go:176-203 | Each route of the network goes to the addresses its text covers by the gateway its text names; each subnet has the addresses its text covers, and kind, zone and switch of the spec; number and order are kept |
| `NetworkProtocol.CreatedSpans` | internal/controller/network/network.go:171-174 | A created network has exactly the addresses that the range of the spec covers |
| `NetworkProtocol.UpdateAgrees` | internal/controller/network/network.go:225-277 | A successful Update makes labels and flag agree always, the range if without doubt or changed, and leaves the topology |
| `NetworkProtocol.FailedUpdateCanBeTakenBack` | internal/controller/network/network.go:238-276 | From a clean state every failure of an Update can be taken back with reports that can be trusted exactly when the edit keeps flag and, in effect, labels, and its range is the same network or does not parse |
| `NetworkProtocol.PassSatisfies` | hack/helpers/controller/KIND_LOWER/KIND_LOWER.go.tmpl:144-151 | Every error-free pass leaves a network as wanted where there is no doubt, with the recorded topology; doubt stays only about a range the spec does not change |
| `NetworkProtocol.TopologyEditsGoUnnoticed` | apis/cloud/v1alpha1/network_types.go:99-118 | After any edit of subnets and routes alone an up-to-date resource stays so, while the network has the topology of the edited spec exactly when that reads like the recorded one |
| `NetworkProtocol.TopologyAsWanted` | apis/cloud/v1alpha1/network_types.go:99-118 | In every tracked state of every run the network has the topology of the spec exactly when that reads like the recorded one |
| `NetworkProtocol.AddedRouteIsMissing` | internal/controller/network/network.go:262-271 | A run that ends clean, up to date and without the one route of the spec, whatever the route |
| `NetworkProtocol.BadRangeFailsLate` | internal/controller/network/network.go:236-260 | A new range that does not parse fails every Update, which leaves the network as it was or with new labels and flag, and the range without new doubt |
| `NetworkProtocol.UpdateCanSucceed` | internal/controller/network/network.go:246-260 | An Update of a tracked network can succeed exactly when the spec keeps the recorded range or names one that parses |
| `NetworkProtocol.BadRangeFailsAfterWriting` | internal/controller/network/network.go:236-252 | A run whose failed Update has changed the flag in the cloud |
| `NetworkProtocol.TopologyIsAllOrNothing` | internal/controller/network/network.go:171-203 | Reading range, subnets and routes fails exactly when some CIDR does not parse, and keeps numbers and order |
| `NetworkController.External.ReadSubnets` | internal/controller/network/network.go:176-189 | The loop reads all subnets or fails |
| `NetworkController.External.ReadRoutes` | internal/controller/network/network.go:191-203 | The loop reads all routes or fails |
| `NetworkController.External.Create` | internal/controller/network/network.go:164-223 | Succeeds exactly when there is no fault and every CIDR parses, and then adds one network as the spec says; a CIDR that does not parse changes nothing |
| `NetworkController.External.Update` | internal/controller/network/network.go:225-277 | Succeeds exactly when there is no fault, the network exists, and its range stays or parses; without faults a range that does not parse leaves labels and flag written; otherwise the network is as it was, with labels and flag, or with the range in addition; records the spec but keeps recorded subnets and routes |
| `NetworkController.External.Reconcile` | hack/helpers/controller/KIND_LOWER/KIND_LOWER.go.tmpl:144-151 | Any pass is nothing or one step of a run, and leaves an up-to-date resource alone; it succeeds exactly when there is no fault and what it has to read parses; success from any reachable state satisfies the resource; if there was anything to do it ends doubt wherever an Update can, or it is gone when deleting |
| `NetworkController.External.Live` | internal/controller/network/network.go:142-295 | Any number of passes and edits is a run |
| `Actions.ActionApi.WaitForActionCompletion` | pkg/hcloud/hcloud.go:94-132 | Ends, with at most one poll for each whole second of the timeout; every poll but the last said running, only a last poll saying success completes, and a timeout means that polling once a second, with what the clock ran on by itself, has used up the limit; with the default timeout it completes exactly when there is no fault; a nil action completes without a poll |
| `Actions.WaitForAll` | internal/controller/firewall/firewall.go:293-297 | Waiting for n actions makes at most 60 polls for each, succeeds exactly when there is no fault, and only if every action ended well; it fails only on a bad poll or a used-up minute |
| `SshKeys.SshKeyCloud.UpsertSSHKeys` | pkg/hcloud/hcloud.go:21-33 | Succeeds exactly when there is no fault and every key has a fingerprint; key i has the fingerprint of input i; the store grows by exactly the fingerprints it lacked, each new key one of the inputs with the default labels; a failure gains only wanted ones |
| `SshKeys.SshKeyCloud.UpsertSSHKey` | pkg/hcloud/hcloud.go:35-61 | Succeeds exactly when there is no fault and the key has a fingerprint; uploads it, with the default labels, only when the fingerprint is new, and returns a stored key with it |
| `SshKeys.GainIsExact` | pkg/hcloud/hcloud.go:21-61 | The number of keys gained is the number of wanted fingerprints that were lacking |
| `SshKeys.RetriesAddNoDuplicates` | pkg/hcloud/hcloud.go:21-61 | Over any history of successful, failed and repeated calls no two keys share a fingerprint |
| `SshKeys.GenerateSSHKeyFingerprint` | pkg/hcloud/hcloud.go:140-161 | The loop prints the digest of the decoded second field, or fails |
| `SshKeys.FingerprintOfKey` | pkg/hcloud/hcloud.go:140-161 | A key with a body that decodes, and no other, has a fingerprint: 47 characters with the octets of the digest of the decoded body in lower-case hexadecimal and colons between them (section 4 of RFC 4716) |
| `SshKeys.FingerprintExists` | pkg/hcloud/hcloud.go:141-150 | Exactly the texts with a second field that decodes have a fingerprint |
| `SshKeys.FingerprintInverts` | pkg/hcloud/hcloud.go:153-159 | The text has 47 characters and determines the digest (section 4 of RFC 4716) |
| `SshKeys.HexTextInverts` | pkg/hcloud/hcloud.go:153-159 | Every octet is read back from its place in the text |
| `SshKeys.FingerprintIsCanonical` | pkg/hcloud/hcloud.go:141-149 | Keys that differ only in type word, comment or spacing have the same fingerprint |
| `DeepCopy.CopyParameters` | apis/cloud/v1alpha1/zz_generated.deepcopy.go:138-171 | The copy holds what the original holds at every depth and shares no slice, map or pointer with it |
| `DeepCopy.CopySurvivesEdits` | internal/controller/firewall/firewall.go:232 | Whatever is later written to the original, the copy holds what it held |
| `DeepCopy.HeldValueIsUnique` | apis/cloud/v1alpha1/zz_generated.deepcopy.go:138-171 | What parameters hold is unique, nil told from empty, so "holds the same" is equality |
| `DeepCopy.SameRule` | apis/cloud/v1alpha1/zz_generated.deepcopy.go:199-216 | Rules hold the same value exactly when they are the same field by field, behind every pointer and slice |
| `DeepCopy.SamePort` | apis/cloud/v1alpha1/zz_generated.deepcopy.go:174-186 | Ports hold the same value exactly when flag and both ends are the same, nil told from set |
| `DeepCopy.SameApplyTo` | apis/cloud/v1alpha1/zz_generated.deepcopy.go:55-73 | Entries hold the same value exactly when type, server id and labels are the same, behind every pointer |
| `DeepCopy.CopyApplyTo` | apis/cloud/v1alpha1/zz_generated.deepcopy.go:55-73 | Copies the server id and the map behind the pointer behind the field |
| `DeepCopy.CopyRule` | apis/cloud/v1alpha1/zz_generated.deepcopy.go:199-216 | Copies target addresses, description and port |
| `DeepCopy.CopyPort` | apis/cloud/v1alpha1/zz_generated.deepcopy.go:174-186 | Copies both ends |
| `DeepCopy.CopyNetwork` | apis/cloud/v1alpha1/zz_generated.deepcopy.go:342-361 | Copies subnets, routes and labels |

## Left out

- Effects of an action that come after the waiting for it timed out: an action has its effect, or an
  arbitrary part of it, when its call is made.
- Actions of the SDK's Create calls, which the code does not await: a created object is as requested at once.
- A nil action without an error counts as done, as in the code.
- The SDK is not part of this model. Its Update and Detach calls on a nil server or network are taken to
  dereference it; the grammar of what it accepts (empty resource lists, names, sizes) is left to its failures.
- Spec edits in the middle of a pass: they act as an edit after it, with the status save failing on the conflict.
- Recovery after Create succeeds and its status save fails: the abandoned object stays in the cloud.
- The managed reconciler beyond its protocol (finalizers, annotations, requeueing, conditions, connection details).
- `Setup`, `Connect`, credentials and feature flags: wiring without logic.
- PlacementGroup: the same shape with labels only.
- Integer widths: the code only compares, prints and passes on its integers.
- The text grammars of ParseCIDR (with its treatment of IPv4 in IPv6) and ParseIP, base64 and MD5, which are parameters.
- Object names, among them the random names of SSH keys; the clock is the input `now`.
- Capacity and sub-slices of Go slices.
- Automount of an attach request.
- A pointer to a nil map in a firewall's `applyTo` entry: told apart in `DeepCopy` only, as it does not survive JSON.
- Invalid UTF-8 in keys and labels.
