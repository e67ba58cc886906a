# A verified model of the FSx for OpenZFS CSI driver

The driver creates, deletes and expands FSx for OpenZFS file systems and volumes for Kubernetes and mounts them on
nodes. This project models the parts of it that carry state or meaning from one step to another, and proves what they
keep. Verify it with `dafny verify dfyconfig.toml`.

| file | what it models |
|---|---|
| `Strings.dfy`, `Iteration.dfy`, `Filtering.dfy` | Go's string functions, map iteration in any order, order-preserving filters |
| `DeletionTagCodec.dfy` | the six-pass escaping of JSON text in tag values |
| `Parameters.dfy` | populating API objects from a parameter map, flattened and nested |
| `DeleteTags.dfy`, `CreateVolume.dfy`, `CreateGuarantees.dfy` | the parameter path of creating a volume |
| `DeleteVolume.dfy` | reading deletion options back and deleting |
| `FakeCloud.dfy` | client-token idempotence, as the in-memory cloud has it |
| `InFlight.dfy` | the table of requests in progress |
| `NodeMounts.dfy`, `NodeService.dfy`, `MountOptions.dfy` | publishing and unpublishing on a node: all interleavings, and the handlers as written |
| `Taints.dfy` | removing the start-up taint while others edit the node |
| `Capacity.dfy`, `Polling.dfy`, `Resize.dfy` | sizes, polling loops, and expansion against a service that changes by itself |
| `Consistency.dfy` | a library, a service and requests that meet all assumptions about them at once |

## Main results

* A deletion option comes back from its tag unchanged exactly when no tag character in it stands between two characters
  that lend it their spaces (`CodecRoundTrip`), and from there up to the delete request: what is sent when a volume is
  deleted is the configuration that was checked when it was created (`DeletionHonoursCreation`). docs/tagging.md:48 says
  the surrounding spaces prevent mistranslation; the code does that only under this condition, and `,@,` fails it.
  docs/tagging.md:30 lists six encoded characters; the code's guard looks for four of them, so `{}` is stored as it is
  (`BracesAreStored`). A stored value is free of all six exactly if it had one of the four, or no brace
  (`TagValueAlphabet`).
* Every accepted create request reaches the cloud with the driver's own fields intact, for every order in which Go may
  walk the parameter map (`DriverOwnsItsFields`), and with every parameter of the user's, nested or at the top
  (`UserParametersArrive`). Sending it again is sure to be recognised as the same request, whatever was created in
  between, exactly if it has at most one deletion option (`RetryIsSafe`): with two, the order of the tags can differ and
  the second request is refused as different.
* Over all interleavings of publish and unpublish on a node, no target ever has two mounts and no directory is removed
  under a mount, provided each target belongs to one volume (`MountSafety`); that condition is exact
  (`OneMountPerTarget`). If each volume also has one source, then what is mounted is always what was asked for, although
  the driver never looks at the source of a mount it finds (`MountsAreOwn`).
* A successful unpublish means that nothing is mounted exactly if nothing was when the handler looked or its probe did
  not fail (`UnpublishSuccess` for all interleavings, `NodeUnpublishVolume` for the call as written): the source drops
  the probe's error at pkg/driver/node.go:237, and `BlindUnpublish` is a run in which the mount stays.
* The taint removal is invisible to everybody else editing the node, whatever is stale, lost or repeated
  (`AttemptIsInvisible`, `AfterIsInvisible`, and the retry loop's own contract).
* A reported expansion is real and never due to an old update (`SuccessIsNeverStale`), and a check reports success
  exactly when an update of the size is in effect (`ReadyMeansInEffect`). What is reported covers the
  required bytes exactly if these are a whole number of GiB, or not positive, or the file system was described as larger
  (`ControllerExpandVolume`); other requirements are rounded down.

## Assumptions about the surroundings

* JSON text is not parsed. `Json` and `Api` are records of functions, decoding goes field by field, and a configuration
  shares no field with the request that carries it (`SchemasFit`, `DeleteLawful`). The service's own request check is any
  predicate.
* `ReadsBack` is asked of one set of parameters at a time: the object they populate is read back from its text as it was.
  This leaves out parameters with the value `null` or an empty enumeration, which Go writes like an absent field.
* `TagsParse` is asked of every list of tags: Go reads back a list of maps of strings as it wrote it. `TagsDecode` is
  asked of the request's own tags only: the members "Key" and "Value" are also taken in other cases, so a tag with both
  "Key" and "key" is left out.
* `DeletionHonoursCreation` supposes that no tag the user writes has a key ending in "OnDeletion", and that one reply
  lists all tags of the resource: the source drops the token for further pages at pkg/cloud/cloud.go:559-570.
* For each resource kind one library, service and request meet all of this together; the configuration arrives and the
  deletion option comes back (`AssumptionsHoldTogether`).
* Each `Schedule`, `Attempt`, `Faults` or answer parameter stands for what the outside world does; the results hold for
  all of them.
* The service runs one update at a time, lists actions newest first and never shrinks a file system (`ServiceNext`).
* The mount probe tells the truth about targets it can read, and a stale mount is recognised only where there is one
  (`Truthful`). A mount command that fails has not mounted, and an unmount that succeeds has taken a mount away.
* A JSON Patch follows RFC 6902, sections 4.3, 4.6 and 5, and the API server applies it in one step.

## Model

| member | source | states |
|---|---|---|
| DeletionTagCodec.EncodeIsHomomorphism | pkg/util/util.go:80-88 | six replacements in sequence equal mapping every character on its own |
| DeletionTagCodec.EncodingByCharacter | pkg/util/util.go:80-88 | encoding a concatenation is concatenating the encodings, and the six characters that change become the six tokens of the table |
| DeletionTagCodec.EncodedAlphabetAndLength | pkg/util/util.go:80-88 | an encoded value has none of the six JSON characters and is longer by two for each that was escaped |
| DeletionTagCodec.DecodePassExact | pkg/util/util.go:90-98 | each decode pass recovers its own character and touches nothing else, if no tag character of its rank is ambiguous |
| DeletionTagCodec.DecodeFromBreaks | pkg/util/util.go:90-98 | what the first pass with an ambiguous character breaks, no later pass repairs |
| DeletionTagCodec.CodecRoundTrip | pkg/util/util.go:80-98 | decoding undoes encoding if and only if no tag character is ambiguous, for every string |
| DeletionTagCodec.DecodeUnencoded | pkg/util/util.go:90-98 | text stored without encoding survives decoding if and only if it holds no token |
| DeletionTagCodec.CommaAtComma | docs/tagging.md:48 | a value for which the promise of the documentation fails |
| DeleteTags.TagValueRoundTrip | pkg/driver/controller.go:737-739 | a value survives the guarded encoding and the unguarded decoding exactly under the condition of its branch |
| DeleteTags.TagValueAlphabet | pkg/driver/controller.go:737-739 | a stored value is free of the six JSON characters if and only if the guard saw one of its four or there is no brace |
| DeleteTags.BracesAreStored | docs/tagging.md:30 | a value with two of the six listed characters that is stored without being encoded |
| Parameters.IdentifyImproperlyFormattedParameter | pkg/util/util.go:228-239 | finds a value that does not marshal if there is one, in any order of search |
| Parameters.PopulatedIs | pkg/util/util.go:165-181 | a populated object has the supplied fields that decode, each with its own decoding |
| Parameters.RemoveParametersAndPopulateObject | pkg/util/util.go:165-181 | the object holds every decoded field, the map loses exactly the fields' keys, and a text that does not marshal leaves the map alone |
| Parameters.StrictRemoveParametersAndPopulateObject | pkg/util/util.go:185-196 | succeeds if and only if every key is a field that decodes, and then the map is empty |
| Parameters.StrictlyAcceptedMeansConsumed | pkg/util/util.go:185-196 | strict acceptance is populating plus nothing left over |
| Parameters.ReplaceParametersAndPopulateObject | pkg/util/util.go:199-212 | the fields' keys become one parameter holding the object; on error the map is left as populating left it |
| Parameters.NestingPreservesMeaning | pkg/cloud/cloud.go:648-666 | collapsing and then populating accepts exactly the flat parameters that fit one of two schemas, and puts each value in one place, if their own configuration reads back |
| DeleteTags.AppendDeleteTags | pkg/driver/controller.go:720-783 | the deletion options leave the parameters and appear as tags after the user's, if and only if tags parse and the options make an acceptable delete request; which error otherwise, a file system without SkipFinalBackupOnDeletion having its own |
| DeleteTags.DeleteAcceptedMeans | pkg/driver/controller.go:746-773 | the options are acceptable exactly if a file system says whether to skip its last backup, every value is well formed and belongs to the configuration or the request, and the service's check takes the request with the placeholder identifier |
| DeleteTags.MoveDeletionOptions | pkg/driver/controller.go:731-744 | the loop over the map moves every option once, for any order of keys |
| DeleteTags.ValidateDelete | pkg/driver/controller.go:746-773 | the options are acceptable exactly when the delete request they make is complete, decodes and passes the service's check |
| DeleteTags.AppendCustomTags | pkg/driver/controller.go:694-712 | the driver's tag is added last |
| DeleteTags.TagsArePermutations | pkg/driver/controller.go:731-744 | two orders of iteration yield the same tags in some arrangement |
| DeleteTags.TagsIndependentOfOrder | pkg/driver/controller.go:731-744 | the tags are the same for all orders if and only if there is at most one deletion option |
| CreateVolume.TextMeans | pkg/driver/controller.go:170 | a parameter that is missing reads as the empty text |
| CreateVolume.DeleteReservedParameters | pkg/driver/controller.go:656-662 | exactly the keys with the reserved prefix go, in any order |
| CreateVolume.ContainsDriverProvidedParameters | pkg/driver/controller.go:666-689 | reports a forbidden name if and only if one is used, and the first in the list's order |
| CreateVolume.Controller.CreateVolume | pkg/driver/controller.go:131-320 | the request is sent, complete, exactly when it is accepted and its name is free; which error otherwise; exactly when the driver panics; success exactly when the service then makes the resource and it appears in time; the table is as before |
| CreateVolume.InvalidRequests | pkg/driver/controller.go:146-187 | whatever is not refused as an invalid argument has capabilities, a size, a resource type, none of the driver's names, tags that parse and, for a file system, the backup option |
| CreateVolume.BadOptions | pkg/driver/controller.go:186-189 | options that make no acceptable delete request are an invalid argument |
| CreateVolume.AnswersByKind | pkg/driver/controller.go:196-285 | once the tags are taken: the error of every combination of kind, size, source and lookup, the panic, and that the request is sent otherwise if its fields fit |
| CreateVolume.Controller.Finish | pkg/driver/controller.go:217-242 | the reply for every answer of the service and every course of the wait |
| CreateVolume.Controller.AddTokenAndTags | pkg/driver/controller.go:184-194 | token and tags are in place, or the error of the tag step that failed |
| CreateVolume.Controller.CreateFileSystem | pkg/driver/controller.go:196-213 | type and capacity are the driver's; tiered storage takes 1 GiB only; no source is allowed |
| CreateVolume.Controller.CreateOpenZfsVolume | pkg/driver/controller.go:244-285 | name, type and the snapshot's resource name are the driver's; 1 GiB only; which error each source causes; an origin of `null` with a snapshot that is found stops the driver, as the assignment at line 799 does |
| CreateGuarantees.TagsAcceptedMeans | pkg/driver/controller.go:186-194 | the tags are taken if and only if the user's parse and the options are acceptable |
| CreateGuarantees.TaggedParams | pkg/driver/controller.go:184-194 | both tag steps together leave the user's other parameters and one list of all tags |
| CreateGuarantees.DriverOwnsItsFields | pkg/driver/controller.go:163-215 | the map for the cloud has the driver's fields with the driver's values, no reserved, deletion or resource-type key, and every other top-level value as the user wrote it |
| CreateGuarantees.UserParametersArrive | pkg/driver/controller.go:163-215 | every parameter of the request that is neither reserved, nor the resource type, nor the tags, nor a deletion option arrives in the API object, nested or at the top, with its own decoding; a restored volume's origin has the snapshot's resource name; the configuration holds nothing else |
| CreateGuarantees.DeliveryMeansFlatFields | pkg/driver/controller.go:210-215 | a request is delivered exactly when each flat parameter fits, with its configuration nested |
| CreateGuarantees.TagsAreDelivered | pkg/cloud/cloud.go:144-151 | the API object carries the tags of the request's own text, then one per deletion option with its full name, and last the driver's, and no other |
| CreateGuarantees.ReplayIsIdentical | pkg/driver/controller.go:163-215 | sending a request again makes the same map for all orders if and only if it has at most one deletion option |
| DeleteVolume.GetDeleteParameters | pkg/cloud/cloud.go:445-494 | the options are those of the tags that have key and value, carry the suffix, and are understood; others are ignored |
| DeleteVolume.ReadOption | pkg/cloud/cloud.go:470-492 | an option is read exactly when a tag carries it and its decoded value is understood |
| DeleteVolume.UnderstoodMeans | pkg/cloud/cloud.go:478-489 | an option is understood exactly if it decodes as a field of the delete configuration of the kind that the identifier's prefix names |
| DeleteVolume.LastTagCounts | pkg/cloud/cloud.go:470-492 | of several tags for one option the last that is understood counts |
| DeleteVolume.OptionTags | pkg/driver/controller.go:733-740 | a new resource has one tag for each option and no other that looks like one |
| DeleteVolume.OptionRoundTrip | pkg/cloud/cloud.go:470-492 | each option on its own comes back as it was given exactly when its value survives |
| DeleteVolume.DeleteParametersRoundTrip | pkg/cloud/cloud.go:470-492 | the options read at deletion are the given ones of the delete configuration if and only if every value survives, for any listing order |
| DeleteVolume.DeleteVolume | pkg/driver/controller.go:326-373 | which requests are sent, with the identifier in which field, and what is answered; an identifier of neither kind is answered with success if the listing of tags succeeds; a resource gone before that is an error, one gone after it a success |
| DeleteVolume.DeleteObjectMeans | pkg/driver/controller.go:346-362 | the delete object field by field: the quoted identifier under FileSystemId or VolumeId, other options under their names, the configuration as one object |
| DeleteVolume.SendDelete | pkg/cloud/cloud.go:192-209 | the delete object is built from the collapsed options, leftovers being let through |
| DeleteVolume.DeletionHonoursCreation | pkg/driver/controller.go:341-362 | deletion sends the identifier with the configuration that was checked at creation |
| FakeCloud.FakeCloudProvider.CreateFileSystem | pkg/cloud/fakes.go:73-107 | a used token answers with its resource or is refused, adding nothing; a new one adds one entry |
| FakeCloud.FakeCloudProvider.CreateVolume | pkg/cloud/fakes.go:142-171 | the same for volumes |
| FakeCloud.FakeCloudProvider.CreateSnapshot | pkg/cloud/fakes.go:196-226 | the same for snapshots |
| FakeCloud.FindToken | pkg/cloud/fakes.go:77-84 | the search finds a holder if and only if there is one |
| FakeCloud.RunKeepsDistinct | pkg/cloud/fakes.go:73-107 | over every history tokens stay pairwise distinct, even if identifiers repeat |
| FakeCloud.RunKeepsEntries | pkg/cloud/fakes.go:73-107 | what is recorded stays over every history whose identifiers are fresh |
| FakeCloud.TokenIsIdempotent | pkg/cloud/fakes.go:86-92 | after any later creates the same parameters get the same resource, others under the token are refused, and nothing is added |
| FakeCloud.RetryReply | pkg/cloud/fakes.go:77-92 | a repeated create request gets its first resource if it was sent in the same words, is refused otherwise, and adds nothing, whatever happened in between |
| FakeCloud.RetryIsSafe | pkg/driver/controller.go:184-194 | a repeated create request is sure to get its first resource and to add nothing if and only if it has at most one deletion option, whatever was created in between and whatever identifier a new resource would have drawn |
| InFlight.InFlight.Insert | pkg/driver/internal/inflight.go:55-66 | inserts, and says whether the key was free |
| InFlight.InFlight.Delete | pkg/driver/internal/inflight.go:70-76 | removes the key and no other |
| InFlight.TableIsExact | pkg/driver/controller.go:140-144 | in every reachable state the table is the keys of the running handlers, which are pairwise distinct |
| InFlight.RefusalAndQuiescence | pkg/driver/controller.go:335-339 | refused exactly on account of a running handler with the key, which keeps it; empty when all have returned |
| NodeMounts.StepKeepsSafe | pkg/driver/node.go:98-255 | every step of every handler and server keeps the safety invariant |
| NodeMounts.MountSafety | pkg/driver/node.go:188-254 | in all interleavings: at most one mount on a target, exactly one after a successful publish, none where a directory is removed |
| NodeMounts.MountsAreOwn | pkg/driver/node.go:188-210 | in all interleavings every mount is of the source of its target's volume, and a successful publish has what it asked for, if each volume has one source |
| NodeMounts.KeyIsFaithful | pkg/driver/node.go:119-124 | volume and target can be told from the key |
| NodeMounts.BlockedBySameWorkOnly | pkg/driver/node.go:119-124 | a handler is turned away if and only if another works on the same volume and target |
| NodeMounts.TwoVolumesOneTarget | pkg/driver/node.go:123-130 | two volumes on one target can both be mounted there |
| NodeMounts.OneMountPerTarget | pkg/driver/node.go:123-130 | no run mounts a target twice if and only if no target is used by two volumes |
| NodeMounts.UnpublishSuccess | pkg/driver/node.go:237-254 | in all interleavings: a successful unpublish leaves nothing mounted if and only if nothing was mounted when it looked or its probe did not fail |
| NodeMounts.BlindUnpublish | pkg/driver/node.go:237-241 | for every volume and target a run in which that condition fails and a stale mount stays |
| NodeService.NodeService.IsMounted | pkg/driver/node.go:291-332 | the mount check with its removal of a stale mount |
| NodeService.NodeService.NodePublishVolume | pkg/driver/node.go:98-211 | which contexts are refused, the source and options that are mounted for each resource type, the reply and the targets for every answer of the mounter; the call is a run of the machine |
| NodeService.NodeService.NodeUnpublishVolume | pkg/driver/node.go:214-255 | the reply and the targets afterwards for every answer of the mounter; the call is a run of the machine; success leaves nothing mounted if and only if nothing was or the probe did not fail |
| NodeService.PublishMeans | pkg/driver/node.go:184-210 | reply and targets for every answer of the mounter and every state of the target |
| NodeService.CallIsSafe | pkg/driver/node.go:98-255 | a whole call keeps the safety invariant and leaves the mounts that its reply stands for |
| MountOptions.Merge | pkg/driver/node.go:163-181 | the options are the deduplication of read-only and the flags |
| MountOptions.DedupKeepsFirstOccurrences | pkg/driver/node.go:168-181 | every option once, in the order of first occurrence |
| Taints.KeepIsFilter | pkg/driver/node.go:355-367 | others' taints keep their number, the driver's go, and the length is the same only if there was none |
| Taints.KeepIsPiecewise | pkg/driver/node.go:355-362 | the taints that stay keep their order |
| Taints.PatchFiltersOrFails | pkg/driver/node.go:369-390 | the patch applies if and only if the node still has the list that was seen, and then filters it and changes nothing else |
| Taints.RemoveNotReadyTaint | pkg/driver/node.go:337-393 | one attempt, step by step, under any edits and failures |
| Taints.AttemptMeans | pkg/driver/node.go:350-392 | an attempt case by case: read or not, taint there or not, patch in time or not |
| Taints.AttemptIsInvisible | pkg/driver/node.go:350-390 | after an attempt others see what their own edits made; if it succeeded the driver's taint is gone |
| Taints.WhenAttemptsSucceed | pkg/driver/node.go:350-392 | exactly when an attempt succeeds |
| Taints.AfterIsInvisible | pkg/driver/node.go:396-406 | the same over any number of attempts |
| Taints.TryRemoveNotReadyTaintUntilSucceed | pkg/driver/node.go:396-406 | ends after at most one attempt more than are disturbed, with the taint gone and nobody else's lost |
| Capacity.RoundsDown | pkg/util/util.go:59-69 | conversion to GiB loses less than one GiB, and refuses exactly the sizes that do not fit |
| Capacity.GiBRoundTrip | pkg/util/util.go:59-69 | every 32-bit number of GiB survives the way to bytes and back |
| Capacity.NegativeSizes | pkg/util/util.go:59-65 | exactly which negative sizes wrap around |
| Polling.Poll | pkg/cloud/cloud.go:225-243 | at most the given number of checks; success, failure or timeout by the first check that is not told to wait |
| Polling.WaitForFileSystemAvailable | pkg/cloud/cloud.go:225-243 | succeeds if and only if a check finds it available after nothing but creating |
| Polling.WaitForVolumeAvailable | pkg/cloud/cloud.go:323-341 | the same for volumes, waiting while pending or creating |
| Polling.WaitForSnapshotAvailable | pkg/cloud/cloud.go:421-443 | the same for snapshots; no check without an identifier |
| Resize.GetUpdateAction | pkg/cloud/cloud.go:599-619 | the newest update with the size |
| Resize.FirstMatchIsNewest | pkg/cloud/cloud.go:609-616 | what the search returns matches, and nothing newer does |
| Resize.RunningUpdateIsFound | pkg/cloud/cloud.go:609-616 | a finished update of the same size never hides the running one |
| Resize.InEffectIsFound | pkg/cloud/cloud.go:609-616 | the search finds an update of the size in effect if and only if there is one; no later failure hides it |
| Resize.ReadyMeansInEffect | pkg/cloud/cloud.go:251-258 | a readable check succeeds if and only if an update of the size is in effect |
| Resize.RunKeepsSound | pkg/cloud/cloud.go:168-190 | what the service keeps over every run: capacities in effect are reached, one update at a time, no shrinking, each update above those in effect before it |
| Resize.ResizeFileSystem | pkg/cloud/cloud.go:168-190 | accepted exactly when the service takes the update or has one of the size on record while one is in progress |
| Resize.WaitForFileSystemResize | pkg/cloud/cloud.go:245-263 | succeeds if and only if the update is seen in effect in time, after nothing but running |
| Resize.JudgementIs | pkg/cloud/cloud.go:245-263 | a check is a success or a reason to wait by the status of the update it sees; a check that cannot be made, sees none or sees a failure is neither |
| Resize.AchievedMeans | pkg/driver/controller.go:624-642 | an expansion succeeds exactly if the update is taken up, or one of its size is on record while one is in progress, and a check in time sees it in effect after nothing but running ones |
| Resize.SuccessIsNeverStale | pkg/driver/controller.go:605-642 | if the capacity was too small at first, success means it was reached during the call, and no update of the size was in effect before |
| Resize.RunningUpdateIsAwaited | pkg/cloud/cloud.go:251-254 | until an accepted update is over every readable check waits |
| Resize.ControllerExpandVolume | pkg/driver/controller.go:577-648 | every reply and error; exactly when a request is sent; in what state the file system is left; success means the capacity is there, and exactly when it covers the required bytes |
| Resize.RequestStaysWithinLimit | pkg/driver/controller.go:596-603 | the size asked for stays within requirement and limit exactly when the conversion does not wrap |
| Resize.WrappedRequirement | pkg/util/util.go:59-65 | a negative requirement, within its limit, for which the largest size is asked, beyond the limit |

## Left out

- Parameters.RemoveParametersAndPopulateObject: JSON syntax, case folding of names and the conversion of integers and booleans are inside the abstract decoders; the structs' unexported marker field, which removal by name would also take, is not modelled.
- FakeCloud.FakeCloudProvider.CreateFileSystem: stores a copy of the parameters where the source keeps the caller's map; resizing and deleting in the fake cloud are not modelled, since its delete methods look for unquoted identifiers and the controller passes quoted ones.
- Polling.Poll: how the polling library spaces its checks and whether it makes one more at the deadline is not part of this model; the number of checks is the timeout divided by the interval.
- NodeMounts.MountSafety: a restart of the driver, which empties the table, and mounts made by others are not modelled; that an existing mount has the requested source is not checked by the driver, and proved only under the condition of `MountsAreOwn`.
- CreateVolume.Controller.CreateVolume: the reply's identifier, domain name and volume context are not modelled; its size is.
- Resize.GetUpdateAction: an update action without target values or a failed one without details, on which the source would stop with a nil pointer, cannot be written in the model.
- Snapshot creation and deletion, volume-id lookup for snapshots and capability checks: they would add members without state of their own.
- WaitForVolumeResize and its action search: marked for removal in the source and unused.
- AWS and Kubernetes clients, instance metadata, gRPC, flags and logging: input and output only.
