/** Creating a volume: from the request's parameters to the API object the service receives. */
module CreateVolume {
  import opened Strings
  import opened Parameters
  import opened DeleteTags
  import opened Capacity
  import opened Iteration
  import InFlight
  import Polling

  const RESERVED_PREFIX := "csi.storage.k8s.io"
  const RESOURCE_TYPE := "ResourceType"
  const CLIENT_REQUEST_TOKEN := "ClientRequestToken"
  const FILE_SYSTEM_TYPE := "FileSystemType"
  const NAME := "Name"
  const ORIGIN_SNAPSHOT := "OriginSnapshot"
  const STORAGE_CAPACITY := "StorageCapacity"
  const STORAGE_TYPE := "StorageType"
  const VOLUME_TYPE := "VolumeType"
  const SNAPSHOT_ARN := "SnapshotARN"

  /** The names a request may not use, in the order in which they are looked for. */
  const DRIVER_DEFINED: seq<string> := [
    CLIENT_REQUEST_TOKEN, FILE_SYSTEM_TYPE, NAME, OPEN_ZFS_CONFIGURATION, STORAGE_CAPACITY, "VolumeId", VOLUME_TYPE]

  /** What the service says about a snapshot. */
  datatype Lookup = Found(arn: string) | Missing | LookupFailed

  /** Where the contents of the new volume come from. */
  datatype Source = Empty | Unsupported | NoSnapshotGiven | FromSnapshot(lookup: Lookup)

  datatype Request = Request(
    name: string, capabilitiesGiven: bool, capabilitiesSupported: bool,
    requiredBytes: Option<Int64>, parameters: Params, source: Source)

  datatype Code = InvalidArgument | Aborted | Internal | Unimplemented | NotFound | AlreadyExists | Unknown

  /** The request that reaches the service, or the error the caller gets before that; or the driver stops with a
      panic. */
  datatype Outcome = Refused(code: Code) | Call(kind: Kind, object_: Record) | Crashed

  /** The service's answer to the request; `Incompatible` says that the token was used with other parameters. */
  datatype CloudAnswer = NewResource(capacity: Int32) | Incompatible | CloudFailed

  /** What the service shows of a new resource: its answer, what each check sees, whether the file system can be
      read. */
  datatype Service = Service(
    answer: CloudAnswer,
    fileSystem: nat -> Option<Polling.FileSystemLifecycle>, volume: nat -> Option<Polling.VolumeLifecycle>,
    described: bool)

  /** What the orchestrator is told. */
  datatype CreateReply = Provisioned(bytes: Int64) | Failed(code: Code) | NoReply

  // ---------- What the driver makes of the parameters ----------

  function Unreserved(params: Params): Params {
    map k | k in params && !HasPrefix(k, RESERVED_PREFIX) :: params[k]
  }

  /** `strings.Contains`. */
  predicate Contains(s: string, sub: string) {
    exists i | 0 <= i <= |s| :: HasPrefix(s[i..], sub)
  }

  function Text(params: Params, key: string): string {
    if key in params then params[key] else ""
  }

  /** A key that is not there reads as the empty text. */
  lemma TextMeans(params: Params, key: string)
    ensures key in params ==> Text(params, key) == params[key]
    ensures key !in params ==> Text(params, key) == ""
  {
  }

  function KindOf(resourceType: string): Option<Kind> {
    if resourceType == "filesystem" then Some(FileSystem)
    else if resourceType == "volume" then Some(Volume)
    else None
  }

  predicate DriverProvided(params: Params) {
    (exists n | n in DRIVER_DEFINED :: n in params) || Contains(Text(params, ORIGIN_SNAPSHOT), SNAPSHOT_ARN)
  }

  /** The user's own parameters: what is left of the request's once the driver's directions are taken out. */
  function UserParams(params: Params): Params {
    Unreserved(params) - {RESOURCE_TYPE}
  }

  function WithToken(api: Api, name: string, params: Params): Params {
    params[CLIENT_REQUEST_TOKEN := api.quote(name)]
  }

  /** The user's parameters with the token and all tags. */
  function Tagged(api: Api, name: string, user: Params, order: seq<string>): Params {
    WithClusterTag(api.json, WithDeleteTags(api.json, order, WithToken(api, name, user)))
  }

  predicate IntelligentTiering(api: Api, params: Params) {
    Text(params, STORAGE_TYPE) == api.quote("INTELLIGENT_TIERING")
  }

  function WithFileSystemFields(api: Api, capacity: Int32, params: Params): Params {
    var typed := params[FILE_SYSTEM_TYPE := api.quote("OPENZFS")];
    if IntelligentTiering(api, typed) then typed else typed[STORAGE_CAPACITY := api.itoa(capacity)]
  }

  function OriginSnapshot(api: Api, params: Params): StringMap {
    if Text(params, ORIGIN_SNAPSHOT) == "" then StringMap(map[]) else api.parseStrings(params[ORIGIN_SNAPSHOT])
  }

  function WithOrigin(api: Api, source: Source, params: Params): Params {
    if source.FromSnapshot? && source.lookup.Found? && OriginSnapshot(api, params).StringMap? then
      var origin := OriginSnapshot(api, params).strings;
      params[ORIGIN_SNAPSHOT := api.renderStrings(origin[SNAPSHOT_ARN := source.lookup.arn])]
    else params
  }

  function WithVolumeFields(api: Api, name: string, source: Source, params: Params): Params {
    WithOrigin(api, source, params)[NAME := api.quote(name)][VOLUME_TYPE := api.quote("OPENZFS")]
  }

  function CapacityOf(req: Request): Option<Int32> {
    if req.requiredBytes.None? then Some(0) else BytesToGiB(req.requiredBytes.value)
  }

  // ---------- What a request has to satisfy ----------

  function RequestKind(req: Request): Option<Kind> {
    KindOf(Text(Unreserved(req.parameters), RESOURCE_TYPE))
  }

  /** Both tag steps succeed on the parameters with the token. */
  ghost predicate TagsAccepted(api: Api, kind: Kind, params: Params, order: seq<string>) {
    && ExistingTags(api.json, params).Some?
    && DeleteAccepted(api, kind, DeleteParameters(params))
    && ExistingTags(api.json, WithDeleteTags(api.json, order, params)).Some?
  }

  predicate SourceAvailable(api: Api, source: Source, params: Params) {
    source.Empty? || (source.FromSnapshot? && OriginSnapshot(api, params).StringMap? && source.lookup.Found?)
  }

  /** The snapshot is there, and its name is about to be written into a map that `null` has taken away. */
  predicate NullOrigin(api: Api, kind: Kind, capacity: Int32, source: Source, params: Params) {
    && kind.Volume? && capacity == 1
    && source.FromSnapshot? && source.lookup.Found? && OriginSnapshot(api, params).Null?
  }

  /** The flat parameters, complete. */
  function FlatParams(api: Api, kind: Kind, name: string, capacity: Int32, source: Source, params: Params): Params {
    if kind.FileSystem? then WithFileSystemFields(api, capacity, params)
    else WithVolumeFields(api, name, source, params)
  }

  /** The map handed to the cloud. */
  function CloudParams(api: Api, kind: Kind, flat: Params): Params {
    Collapsed(api.json, OPEN_ZFS_CONFIGURATION, flat, api.For(kind).createConfig)
  }

  /** The flat parameters collapse, and what comes of that fills the API object with nothing left over. */
  predicate Deliverable(api: Api, kind: Kind, flat: Params) {
    && Collapsible(api.json, flat, api.For(kind).createConfig)
    && StrictlyAccepted(api.json, CloudParams(api, kind, flat), api.For(kind).createInput)
  }

  function Delivered(api: Api, kind: Kind, flat: Params): Record {
    Populated(CloudParams(api, kind, flat), api.For(kind).createInput)
  }

  /** The rules of each resource kind about size and source. */
  predicate SizeAndSourceAccepted(api: Api, kind: Kind, capacity: Int32, source: Source, params: Params) {
    if kind.FileSystem? then source.Empty? && (IntelligentTiering(api, params) ==> capacity == 1)
    else capacity == 1 && SourceAvailable(api, source, params)
  }

  /** What can be said of the request before its tags are looked at. */
  predicate WellStated(req: Request) {
    && req.capabilitiesGiven && req.capabilitiesSupported
    && CapacityOf(req).Some?
    && RequestKind(req).Some?
    && !DriverProvided(UserParams(req.parameters))
  }

  ghost predicate Accepted(api: Api, req: Request, order: seq<string>) {
    && req.name != "" && WellStated(req)
    && UserParamsAccepted(api, RequestKind(req).value, req.name, CapacityOf(req).value, req.source,
                          UserParams(req.parameters), order)
  }

  /** The user's parameters take their tags, suit the resource kind, and fill the API object. */
  ghost predicate UserParamsAccepted(api: Api, kind: Kind, name: string, capacity: Int32, source: Source, user: Params,
                                     order: seq<string>) {
    var tagged := Tagged(api, name, user, order);
    && TagsAccepted(api, kind, WithToken(api, name, user), order)
    && SizeAndSourceAccepted(api, kind, capacity, source, tagged)
    && Deliverable(api, kind, FlatParams(api, kind, name, capacity, source, tagged))
  }

  /** The flat parameters of a request, for one order of iteration over its deletion options. */
  function Flat(api: Api, req: Request, order: seq<string>): Params
    requires RequestKind(req).Some? && CapacityOf(req).Some?
  {
    FlatParams(api, RequestKind(req).value, req.name, CapacityOf(req).value, req.source,
               Tagged(api, req.name, UserParams(req.parameters), order))
  }

  /** The user's parameters take their tags, and then stop the driver. */
  ghost predicate UserParamsCrash(api: Api, kind: Kind, name: string, capacity: Int32, source: Source, user: Params,
                                  order: seq<string>) {
    && TagsAccepted(api, kind, WithToken(api, name, user), order)
    && NullOrigin(api, kind, capacity, source, Tagged(api, name, user, order))
  }

  ghost predicate Crashes(api: Api, req: Request, order: seq<string>) {
    && req.name != "" && WellStated(req)
    && UserParamsCrash(api, RequestKind(req).value, req.name, CapacityOf(req).value, req.source,
                       UserParams(req.parameters), order)
  }

  // ---------- How a request is refused ----------

  /** The error of the collapsing and populating steps: the user's parameters are checked first. */
  function DeliveryCode(api: Api, kind: Kind, flat: Params): (c: Code)
    ensures c != Aborted
  {
    if !Collapsible(api.json, flat, api.For(kind).createConfig) then InvalidArgument else Internal
  }

  function FileSystemCode(api: Api, capacity: Int32, source: Source, params: Params): (c: Code)
    ensures c != Aborted
  {
    if !source.Empty? then Unimplemented
    else if IntelligentTiering(api, params) && capacity != 1 then InvalidArgument
    else DeliveryCode(api, FileSystem, WithFileSystemFields(api, capacity, params))
  }

  function VolumeCode(api: Api, name: string, capacity: Int32, source: Source, params: Params): (c: Code)
    ensures c != Aborted
  {
    if capacity != 1 then InvalidArgument
    else match source
      case Unsupported => Unimplemented
      case NoSnapshotGiven => InvalidArgument
      case FromSnapshot(lookup) =>
        if OriginSnapshot(api, params).NotStrings? then Internal
        else if lookup.Missing? then NotFound
        else if lookup.LookupFailed? then Internal
        else DeliveryCode(api, Volume, WithVolumeFields(api, name, source, params))
      case Empty => DeliveryCode(api, Volume, WithVolumeFields(api, name, source, params))
  }

  /** The error of a request that got its name but is not accepted: what is wrong with the request itself comes before
      what is wrong with its tags, and that before size and source. */
  ghost function RefusalCode(api: Api, req: Request, order: seq<string>): (c: Code)
    ensures c != Aborted
  {
    var user := UserParams(req.parameters);
    if !WellStated(req) then InvalidArgument
    else UserParamsCode(api, RequestKind(req).value, req.name, CapacityOf(req).value, req.source, user, order)
  }

  ghost function UserParamsCode(api: Api, kind: Kind, name: string, capacity: Int32, source: Source, user: Params,
                                order: seq<string>): (c: Code)
    ensures c != Aborted
  {
    if !TagsAccepted(api, kind, WithToken(api, name, user), order) then TagsCode(api, kind, WithToken(api, name, user))
    else KindCode(api, kind, name, capacity, source, Tagged(api, name, user, order))
  }

  function KindCode(api: Api, kind: Kind, name: string, capacity: Int32, source: Source, params: Params): (c: Code)
    ensures c != Aborted
  {
    if kind.FileSystem? then FileSystemCode(api, capacity, source, params)
    else VolumeCode(api, name, capacity, source, params)
  }

  ghost function TagsCode(api: Api, kind: Kind, params: Params): (c: Code)
    ensures c != Aborted
  {
    if ExistingTags(api.json, params).None? || !DeleteAccepted(api, kind, DeleteParameters(params)) then InvalidArgument
    else Internal
  }

  /** What becomes of a request that got its name: it is sent, complete, exactly if it is accepted. */
  ghost predicate Answered(api: Api, req: Request, order: seq<string>, r: Outcome) {
    && IsOrderOf(order, WithToken(api, req.name, UserParams(req.parameters)).Keys)
    && (r.Call? <==> Accepted(api, req, order))
    && (r.Call? ==> r == Call(RequestKind(req).value, Delivered(api, RequestKind(req).value, Flat(api, req, order))))
    && (r.Refused? ==> r.code == RefusalCode(api, req, order) && r.code != Aborted)
    && (r.Crashed? <==> Crashes(api, req, order))
  }

  ghost predicate Appears(kind: Kind, s: Service) {
    if kind.FileSystem? then Polling.FileSystemAppears(s.fileSystem) else Polling.VolumeAppears(s.volume)
  }

  /** The reply to a request that was sent. */
  ghost function ReplyTo(kind: Kind, s: Service): CreateReply {
    match s.answer
    case Incompatible => Failed(AlreadyExists)
    case CloudFailed => Failed(Internal)
    case NewResource(capacity) =>
      if !Appears(kind, s) then Failed(Internal)
      else if kind.FileSystem? then Provisioned(GiBToBytes(capacity))
      else if s.described then Provisioned(GIB) else Failed(Unknown)
  }

  // ---------- The same in the request's own terms ----------

  /** The names no request may use, and the snapshot's own name, which may not stand in the origin. */
  lemma DriverProvidedMeans(params: Params)
    ensures DriverProvided(params) <==>
      || "ClientRequestToken" in params || "FileSystemType" in params || "Name" in params
      || "OpenZFSConfiguration" in params || "StorageCapacity" in params || "VolumeId" in params ||
           "VolumeType" in params
      || exists i | 0 <= i <= |Text(params, "OriginSnapshot")| ::
           "SnapshotARN" <= Text(params, "OriginSnapshot")[i..]
  {
    var d := DRIVER_DEFINED;
    assert d[0] in d && d[1] in d && d[2] in d && d[3] in d && d[4] in d && d[5] in d && d[6] in d;
  }

  /** What the request is about, without the keys that the orchestrator reserves. */
  lemma KindIsRequests(req: Request)
    ensures RequestKind(req) == Some(FileSystem) <==> Text(req.parameters, "ResourceType") == "filesystem"
    ensures RequestKind(req) == Some(Volume) <==> Text(req.parameters, "ResourceType") == "volume"
  {
    assert RESERVED_PREFIX[0] == 'c' && RESOURCE_TYPE[0] == 'R';
    assert "filesystem"[0] != "volume"[0];
  }

  lemma UserParamsHave(params: Params, key: string)
    requires key != "" && key[0] != 'c' && key != "ResourceType"
    ensures key in UserParams(params) <==> key in params
    ensures Text(UserParams(params), key) == Text(params, key)
  {
    assert RESERVED_PREFIX[0] == 'c';
  }

  /** The names a request may not use are the request's own. */
  lemma DriverProvidedIsRequests(params: Params)
    ensures DriverProvided(UserParams(params)) <==>
      || "ClientRequestToken" in params || "FileSystemType" in params || "Name" in params
      || "OpenZFSConfiguration" in params || "StorageCapacity" in params || "VolumeId" in params ||
           "VolumeType" in params
      || exists i | 0 <= i <= |Text(params, "OriginSnapshot")| ::
           "SnapshotARN" <= Text(params, "OriginSnapshot")[i..]
  {
    DriverProvidedMeans(UserParams(params));
    UserParamsHave(params, CLIENT_REQUEST_TOKEN);
    UserParamsHave(params, FILE_SYSTEM_TYPE);
    UserParamsHave(params, NAME);
    UserParamsHave(params, OPEN_ZFS_CONFIGURATION);
    UserParamsHave(params, STORAGE_CAPACITY);
    UserParamsHave(params, "VolumeId");
    UserParamsHave(params, VOLUME_TYPE);
    UserParamsHave(params, ORIGIN_SNAPSHOT);
  }

  /** A request is well stated exactly if its capabilities are, its size fits 32 bits of GiB, it says what it is about,
      and it uses no name of the driver's. */
  lemma WellStatedMeans(req: Request)
    ensures WellStated(req) <==>
      && req.capabilitiesGiven && req.capabilitiesSupported
      && (req.requiredBytes.Some? ==> req.requiredBytes.value < 0x8000_0000 * 0x4000_0000)
      && (Text(req.parameters, "ResourceType") == "filesystem" || Text(req.parameters, "ResourceType") == "volume")
      && !DriverProvided(UserParams(req.parameters))
    ensures CapacityOf(req).Some? ==>
      CapacityOf(req).value == if req.requiredBytes.None? then 0 else BytesToGiB(req.requiredBytes.value).value
  {
    KindIsRequests(req);
    if req.requiredBytes.Some? {
      if req.requiredBytes.value < 0 {
        NegativeSizes(req.requiredBytes.value);
      } else {
        RoundsDown(req.requiredBytes.value);
      }
    }
  }

  lemma TaggedText(api: Api, name: string, user: Params, order: seq<string>, key: string)
    requires key != "Tags" && key != "ClientRequestToken" && !HasSuffix(key, "OnDeletion")
    ensures Text(Tagged(api, name, user, order), key) == Text(user, key)
  {
  }

  lemma NamesOtherThanOptions()
    ensures !HasSuffix("StorageType", "OnDeletion") && !HasSuffix("OriginSnapshot", "OnDeletion")
    ensures "StorageType" != "Tags" && "StorageType" != "ClientRequestToken"
    ensures "OriginSnapshot" != "Tags" && "OriginSnapshot" != "ClientRequestToken"
  {
    assert |"OriginSnapshot"| == 14 && "OriginSnapshot"[4..][9] == 't';
    assert |"StorageType"| == 11 && "StorageType"[1..][9] == 'e';
  }

  /** The user's tags parse, and the deletion options make an acceptable delete request. */
  ghost predicate TagsTaken(api: Api, req: Request, order: seq<string>) {
    RequestKind(req).Some?
    && TagsAccepted(api, RequestKind(req).value, WithToken(api, req.name, UserParams(req.parameters)), order)
  }

  lemma OptionsAreRequests(api: Api, req: Request)
    ensures ExistingTags(api.json, WithToken(api, req.name, UserParams(req.parameters))) ==
      if Text(req.parameters, "Tags") == "" then Some([]) else api.json.parseTags(req.parameters["Tags"])
    ensures "SkipFinalBackup" in DeleteParameters(WithToken(api, req.name, UserParams(req.parameters)))
      <==> "SkipFinalBackupOnDeletion" in req.parameters
  {
    UserParamsHave(req.parameters, "Tags");
    UserParamsHave(req.parameters, "SkipFinalBackupOnDeletion");
    SkipFinalBackupOption(WithToken(api, req.name, UserParams(req.parameters)));
    assert |"ClientRequestToken"| == 18 && |"SkipFinalBackupOnDeletion"| == 25 && |"Tags"| == 4;
  }

  lemma NotWellStated(api: Api, req: Request, order: seq<string>, r: Outcome)
    requires req.name != "" && Answered(api, req, order, r) && !WellStated(req)
    ensures r == Refused(InvalidArgument)
  {
  }

  lemma TagsTakenSoFar(api: Api, req: Request, order: seq<string>, r: Outcome)
    requires req.name != "" && Answered(api, req, order, r) && WellStated(req) && r != Refused(InvalidArgument)
    ensures var with := WithToken(api, req.name, UserParams(req.parameters));
            && ExistingTags(api.json, with).Some?
            && (RequestKind(req) == Some(FileSystem) ==> "SkipFinalBackup" in DeleteParameters(with))
  {
  }

  lemma StatedParts(req: Request)
    requires WellStated(req)
    ensures
      && req.capabilitiesGiven && req.capabilitiesSupported
      && (req.requiredBytes.Some? ==> req.requiredBytes.value < 0x8000_0000 * 0x4000_0000)
      && (Text(req.parameters, "ResourceType") == "filesystem" || Text(req.parameters, "ResourceType") == "volume")
      && (forall n | n in ["ClientRequestToken", "FileSystemType", "Name", "OpenZFSConfiguration", "StorageCapacity",
                           "VolumeId", "VolumeType"] :: n !in req.parameters)
      && (forall i | 0 <= i <= |Text(req.parameters, "OriginSnapshot")| ::
            !("SnapshotARN" <= Text(req.parameters, "OriginSnapshot")[i..]))
  {
    WellStatedMeans(req);
    DriverProvidedIsRequests(req.parameters);
  }

  lemma TagParts(api: Api, req: Request)
    requires var with := WithToken(api, req.name, UserParams(req.parameters));
             && ExistingTags(api.json, with).Some?
             && (RequestKind(req) == Some(FileSystem) ==> "SkipFinalBackup" in DeleteParameters(with))
    ensures
      && (Text(req.parameters, "Tags") != "" ==> api.json.parseTags(req.parameters["Tags"]).Some?)
      && (Text(req.parameters, "ResourceType") == "filesystem" ==> "SkipFinalBackupOnDeletion" in req.parameters)
  {
    KindIsRequests(req);
    OptionsAreRequests(api, req);
  }

  /** What every request has that is not refused as an invalid argument. */
  lemma InvalidRequests(api: Api, req: Request, order: seq<string>, r: Outcome)
    requires req.name != "" && Answered(api, req, order, r) && r != Refused(InvalidArgument)
    ensures
      && req.capabilitiesGiven && req.capabilitiesSupported
      && (req.requiredBytes.Some? ==> req.requiredBytes.value < 0x8000_0000 * 0x4000_0000)
      && (Text(req.parameters, "ResourceType") == "filesystem" || Text(req.parameters, "ResourceType") == "volume")
      && (forall n | n in ["ClientRequestToken", "FileSystemType", "Name", "OpenZFSConfiguration", "StorageCapacity",
                           "VolumeId", "VolumeType"] :: n !in req.parameters)
      && (forall i | 0 <= i <= |Text(req.parameters, "OriginSnapshot")| ::
            !("SnapshotARN" <= Text(req.parameters, "OriginSnapshot")[i..]))
      && (Text(req.parameters, "Tags") != "" ==> api.json.parseTags(req.parameters["Tags"]).Some?)
      && (Text(req.parameters, "ResourceType") == "filesystem" ==> "SkipFinalBackupOnDeletion" in req.parameters)
  {
    if !WellStated(req) {
      NotWellStated(api, req, order, r);
    }
    TagsTakenSoFar(api, req, order, r);
    StatedParts(req);
    TagParts(api, req);
  }

  /** Options that make no acceptable delete request are an invalid argument. */
  lemma BadOptions(api: Api, req: Request, order: seq<string>, r: Outcome)
    requires req.name != "" && Answered(api, req, order, r) && WellStated(req)
    requires var with := WithToken(api, req.name, UserParams(req.parameters));
             !DeleteAccepted(api, RequestKind(req).value, DeleteParameters(with))
    ensures r == Refused(InvalidArgument)
  {
  }

  /** Once the tags are taken, only size, source and the fields are left to decide. */
  lemma LeftToDecide(api: Api, req: Request, order: seq<string>, r: Outcome)
    requires req.name != "" && Answered(api, req, order, r) && WellStated(req) && TagsTaken(api, req, order)
    ensures var kind, capacity := RequestKind(req).value, CapacityOf(req).value;
            var tagged := Tagged(api, req.name, UserParams(req.parameters), order);
            && (r.Call? ==> SizeAndSourceAccepted(api, kind, capacity, req.source, tagged))
            && (r.Refused? ==> r.code == KindCode(api, kind, req.name, capacity, req.source, tagged))
            && (r.Crashed? <==> NullOrigin(api, kind, capacity, req.source, tagged))
            && (SizeAndSourceAccepted(api, kind, capacity, req.source, tagged) ==>
                  (r.Call? <==> Deliverable(api, kind, Flat(api, req, order))))
  {
  }

  lemma FileSystemAnswers(api: Api, name: string, capacity: Int32, source: Source, params: Params, r: Outcome,
                          fits: bool)
    requires r.Call? ==> SizeAndSourceAccepted(api, FileSystem, capacity, source, params)
    requires r.Refused? ==> r.code == KindCode(api, FileSystem, name, capacity, source, params)
    requires r.Crashed? <==> NullOrigin(api, FileSystem, capacity, source, params)
    requires SizeAndSourceAccepted(api, FileSystem, capacity, source, params) ==> (r.Call? <==> fits)
    ensures if !source.Empty? then r == Refused(Unimplemented)
            else if Text(params, "StorageType") == api.quote("INTELLIGENT_TIERING") && capacity != 1
            then r == Refused(InvalidArgument)
            else if fits then r.Call? else r == Refused(InvalidArgument) || r == Refused(Internal)
  {
  }

  lemma VolumeAnswers(api: Api, name: string, capacity: Int32, source: Source, params: Params, r: Outcome, fits: bool)
    requires r.Call? ==> SizeAndSourceAccepted(api, Volume, capacity, source, params)
    requires r.Refused? ==> r.code == KindCode(api, Volume, name, capacity, source, params)
    requires r.Crashed? <==> NullOrigin(api, Volume, capacity, source, params)
    requires SizeAndSourceAccepted(api, Volume, capacity, source, params) ==> (r.Call? <==> fits)
    ensures var origin := if Text(params, "OriginSnapshot") == "" then StringMap(map[])
                          else api.parseStrings(params["OriginSnapshot"]);
            if capacity != 1 then r == Refused(InvalidArgument)
            else if source.Unsupported? then r == Refused(Unimplemented)
            else if source.NoSnapshotGiven? then r == Refused(InvalidArgument)
            else if source.FromSnapshot? && origin.NotStrings? then r == Refused(Internal)
            else if source == FromSnapshot(Missing) then r == Refused(NotFound)
            else if source == FromSnapshot(LookupFailed) then r == Refused(Internal)
            else if source.FromSnapshot? && origin.Null? then r == Crashed
            else if fits then r.Call? else r == Refused(InvalidArgument) || r == Refused(Internal)
  {
  }

  /** Which errors and which requests the source of the contents and the size lead to, once the tags are taken. */
  lemma AnswersByKind(api: Api, req: Request, order: seq<string>, r: Outcome)
    requires req.name != "" && Answered(api, req, order, r) && WellStated(req) && TagsTaken(api, req, order)
    ensures Text(req.parameters, "ResourceType") == "filesystem" ==>
      if !req.source.Empty? then r == Refused(Unimplemented)
      else if Text(req.parameters, "StorageType") == api.quote("INTELLIGENT_TIERING") && CapacityOf(req) != Some(1)
      then r == Refused(InvalidArgument)
      else if Deliverable(api, RequestKind(req).value, Flat(api, req, order)) then r.Call?
      else r == Refused(InvalidArgument) || r == Refused(Internal)
    ensures Text(req.parameters, "ResourceType") == "volume" ==>
      var origin := if Text(req.parameters, "OriginSnapshot") == "" then StringMap(map[])
                    else api.parseStrings(req.parameters["OriginSnapshot"]);
      if CapacityOf(req) != Some(1) then r == Refused(InvalidArgument)
      else if req.source.Unsupported? then r == Refused(Unimplemented)
      else if req.source.NoSnapshotGiven? then r == Refused(InvalidArgument)
      else if req.source.FromSnapshot? && origin.NotStrings? then r == Refused(Internal)
      else if req.source == FromSnapshot(Missing) then r == Refused(NotFound)
      else if req.source == FromSnapshot(LookupFailed) then r == Refused(Internal)
      else if req.source.FromSnapshot? && origin.Null? then r == Crashed
      else if Deliverable(api, RequestKind(req).value, Flat(api, req, order)) then r.Call?
      else r == Refused(InvalidArgument) || r == Refused(Internal)
  {
    var tagged := Tagged(api, req.name, UserParams(req.parameters), order);
    KindIsRequests(req);
    TaggedIsRequests(api, req, order);
    LeftToDecide(api, req, order, r);
    if RequestKind(req) == Some(FileSystem) {
      FileSystemAnswers(api, req.name, CapacityOf(req).value, req.source, tagged, r,
                        Deliverable(api, RequestKind(req).value, Flat(api, req, order)));
    } else {
      VolumeAnswers(api, req.name, CapacityOf(req).value, req.source, tagged, r,
                        Deliverable(api, RequestKind(req).value, Flat(api, req, order)));
    }
  }

  lemma TaggedIsRequests(api: Api, req: Request, order: seq<string>)
    ensures var tagged := Tagged(api, req.name, UserParams(req.parameters), order);
            && Text(tagged, "StorageType") == Text(req.parameters, "StorageType")
            && Text(tagged, "OriginSnapshot") == Text(req.parameters, "OriginSnapshot")
            && (Text(req.parameters, "OriginSnapshot") != "" ==>
                  "OriginSnapshot" in tagged && tagged["OriginSnapshot"] == req.parameters["OriginSnapshot"])
  {
    NamesOtherThanOptions();
    UserParamsHave(req.parameters, "StorageType");
    UserParamsHave(req.parameters, "OriginSnapshot");
    TaggedText(api, req.name, UserParams(req.parameters), order, "StorageType");
    TaggedText(api, req.name, UserParams(req.parameters), order, "OriginSnapshot");
  }

  // ---------- The operations ----------

  method DeleteReservedParameters(parameters: ParameterMap)
    modifies parameters
    ensures parameters.entries == Unreserved(old(parameters.entries))
    ensures forall k :: k in parameters.entries <==> k in old(parameters.entries) && !("csi.storage.k8s.io" <= k)
    ensures forall k | k in parameters.entries :: parameters.entries[k] == old(parameters.entries)[k]
  {
    var todo := parameters.entries.Keys;
    while todo != {}
      invariant todo <= old(parameters.entries).Keys
      invariant forall k :: k in parameters.entries <==>
        k in old(parameters.entries) && (k in todo || !HasPrefix(k, RESERVED_PREFIX))
      invariant forall k | k in parameters.entries :: parameters.entries[k] == old(parameters.entries)[k]
    {
      var key :| key in todo;
      todo := todo - {key};
      if HasPrefix(key, RESERVED_PREFIX) {
        parameters.entries := parameters.entries - {key};
      }
    }
  }

  /** The first forbidden name in use, or the snapshot's own name for its origin if there is none. */
  method ContainsDriverProvidedParameters(params: Params) returns (name: Option<string>)
    ensures name.Some? <==> DriverProvided(params)
    ensures name.Some? <==>
      || "ClientRequestToken" in params || "FileSystemType" in params || "Name" in params
      || "OpenZFSConfiguration" in params || "StorageCapacity" in params || "VolumeId" in params ||
           "VolumeType" in params
      || exists i | 0 <= i <= |Text(params, "OriginSnapshot")| ::
           "SnapshotARN" <= Text(params, "OriginSnapshot")[i..]
    ensures name.Some? ==>
      || (name.value == SNAPSHOT_ARN && (forall n | n in DRIVER_DEFINED :: n !in params))
      || (exists i :: 0 <= i < |DRIVER_DEFINED| && name.value == DRIVER_DEFINED[i] && name.value in params
            && forall j | 0 <= j < i :: DRIVER_DEFINED[j] !in params)
  {
    DriverProvidedMeans(params);
    for i := 0 to |DRIVER_DEFINED|
      invariant forall j | 0 <= j < i :: DRIVER_DEFINED[j] !in params
    {
      if DRIVER_DEFINED[i] in params {
        assert DRIVER_DEFINED[i] in DRIVER_DEFINED;
        return Some(DRIVER_DEFINED[i]);
      }
    }
    return if Contains(Text(params, ORIGIN_SNAPSHOT), SNAPSHOT_ARN) then Some(SNAPSHOT_ARN) else None;
  }

  /** The controller's side of creating a volume. */
  class Controller {
    const api: Api
    const inFlight: InFlight.InFlight

    constructor (api: Api)
      ensures this.api == api && fresh(inFlight) && inFlight.Keys() == {}
    {
      this.api := api;
      inFlight := new InFlight.InFlight();
    }

    /** Creates a volume: `r` is what is sent to the service, or why nothing is, and `reply` is the caller's answer. */
    method CreateVolume(req: Request, service: Service)
      returns (r: Outcome, reply: CreateReply, ghost order: seq<string>)
      modifies inFlight
      ensures inFlight.Keys() == old(inFlight.Keys())
      ensures req.name == "" ==> r == Refused(InvalidArgument)
      ensures r == Refused(Aborted) <==> req.name != "" && req.name in old(inFlight.Keys())
      ensures req.name != "" && req.name !in old(inFlight.Keys()) ==> Answered(api, req, order, r)
      ensures req.name != "" && req.name !in old(inFlight.Keys()) && r != Refused(InvalidArgument) ==>
        && req.capabilitiesGiven && req.capabilitiesSupported
        && (req.requiredBytes.Some? ==> req.requiredBytes.value < 0x8000_0000 * 0x4000_0000)
        && (Text(req.parameters, "ResourceType") == "filesystem" || Text(req.parameters, "ResourceType") == "volume")
        && (forall n | n in ["ClientRequestToken", "FileSystemType", "Name", "OpenZFSConfiguration", "StorageCapacity",
                             "VolumeId", "VolumeType"] :: n !in req.parameters)
        && (forall i | 0 <= i <= |Text(req.parameters, "OriginSnapshot")| ::
              !("SnapshotARN" <= Text(req.parameters, "OriginSnapshot")[i..]))
        && (Text(req.parameters, "Tags") != "" ==> api.json.parseTags(req.parameters["Tags"]).Some?)
        && (Text(req.parameters, "ResourceType") == "filesystem" ==> "SkipFinalBackupOnDeletion" in req.parameters)
      ensures reply == if r.Refused? then Failed(r.code) else if r.Crashed? then NoReply else ReplyTo(r.kind, service)
    {
      order := [];
      if req.name == "" {
        return Refused(InvalidArgument), Failed(InvalidArgument), order;
      }
      var ok := inFlight.Insert(req.name);
      if !ok {
        return Refused(Aborted), Failed(Aborted), order;
      }
      r, order := Create(req);
      if r != Refused(InvalidArgument) {
        InvalidRequests(api, req, order, r);
      }
      reply := Finish(r, service);
      inFlight.Delete(req.name);
    }

    /** The part of the work that runs while the request holds its name, up to and including what is sent. */
    method Create(req: Request) returns (r: Outcome, ghost order: seq<string>)
      requires req.name != ""
      ensures Answered(api, req, order, r) && r != Refused(Aborted)
    {
      order := SomeOrder(WithToken(api, req.name, UserParams(req.parameters)).Keys);
      var volumeParams := new ParameterMap(req.parameters);
      var kind, capacity := CheckStatement(req, volumeParams);
      if kind.None? {
        return Refused(InvalidArgument), order;
      }
      r, order := CreateFromUserParameters(kind.value, req.name, capacity, req.source, volumeParams);
    }

    /** The service's answer and the wait for the resource. */
    method Finish(r: Outcome, service: Service) returns (reply: CreateReply)
      ensures reply == if r.Refused? then Failed(r.code) else if r.Crashed? then NoReply else ReplyTo(r.kind, service)
      ensures r.Call? && service.answer.Incompatible? ==> reply == Failed(AlreadyExists)
      ensures r.Call? && service.answer.CloudFailed? ==> reply == Failed(Internal)
      ensures r.Call? && service.answer.NewResource? && r.kind.FileSystem? ==>
        if exists i: nat ::
             && i < 60 && service.fileSystem(i) == Some(Polling.FsAvailable)
             && forall j: nat | j < i :: service.fileSystem(j) == Some(Polling.FsCreating)
        then reply == Provisioned(service.answer.capacity * 0x4000_0000) else reply == Failed(Internal)
      ensures r.Call? && service.answer.NewResource? && r.kind.Volume? ==>
        if exists i: nat ::
             && i < 60 && service.volume(i) == Some(Polling.VolAvailable)
             && forall j: nat | j < i ::
                  service.volume(j) == Some(Polling.VolPending) || service.volume(j) == Some(Polling.VolCreating)
        then reply == (if service.described then Provisioned(0x4000_0000) else Failed(Unknown))
        else reply == Failed(Internal)
    {
      if r.Refused? {
        return Failed(r.code);
      }
      if r.Crashed? {
        return NoReply;
      }
      if !service.answer.NewResource? {
        return Failed(if service.answer.Incompatible? then AlreadyExists else Internal);
      }
      var ok, checks;
      if r.kind.FileSystem? {
        ok, checks := Polling.WaitForFileSystemAvailable(service.fileSystem);
        return if ok then Provisioned(GiBToBytes(service.answer.capacity)) else Failed(Internal);
      }
      ok, checks := Polling.WaitForVolumeAvailable(service.volume);
      if !ok {
        return Failed(Internal);
      }
      return if service.described then Provisioned(GIB) else Failed(Unknown);
    }

    method CheckStatement(req: Request, volumeParams: ParameterMap) returns (kind: Option<Kind>, capacity: Int32)
      requires volumeParams.entries == req.parameters
      modifies volumeParams
      ensures kind == if WellStated(req) then RequestKind(req) else None
      ensures kind.Some? ==> CapacityOf(req) == Some(capacity) && volumeParams.entries == UserParams(req.parameters)
    {
      capacity := 0;
      if !req.capabilitiesGiven || !req.capabilitiesSupported {
        return None, capacity;
      }
      var gib := CapacityOf(req);
      if gib.None? {
        return None, capacity;
      }
      capacity := gib.value;
      kind := TakeUserParameters(volumeParams);
    }

    method CreateFromUserParameters(kind: Kind, name: string, capacity: Int32, source: Source,
                                    volumeParams: ParameterMap)
      returns (r: Outcome, ghost order: seq<string>)
      modifies volumeParams
      ensures IsOrderOf(order, WithToken(api, name, old(volumeParams.entries)).Keys)
      ensures r.Call? <==> UserParamsAccepted(api, kind, name, capacity, source, old(volumeParams.entries), order)
      ensures r.Call? ==> r == Call(kind, Delivered(api, kind,
        FlatParams(api, kind, name, capacity, source, Tagged(api, name, old(volumeParams.entries), order))))
      ensures r.Refused? ==>
        r.code == UserParamsCode(api, kind, name, capacity, source, old(volumeParams.entries), order)
      ensures r.Crashed? <==> UserParamsCrash(api, kind, name, capacity, source, old(volumeParams.entries), order)
    {
      var code;
      code, order := AddTokenAndTags(kind, name, volumeParams);
      if code.Some? {
        return Refused(code.value), order;
      }
      r := CreateKind(kind, name, capacity, source, volumeParams);
    }

    /** The two branches, one for each resource kind. */
    method CreateKind(kind: Kind, name: string, capacity: Int32, source: Source, volumeParams: ParameterMap)
      returns (r: Outcome)
      modifies volumeParams
      ensures r.Call? <==>
        && SizeAndSourceAccepted(api, kind, capacity, source, old(volumeParams.entries))
        && Deliverable(api, kind, FlatParams(api, kind, name, capacity, source, old(volumeParams.entries)))
      ensures r.Call? ==>
        r == Call(kind, Delivered(api, kind, FlatParams(api, kind, name, capacity, source, old(volumeParams.entries))))
      ensures r.Refused? ==> r.code == KindCode(api, kind, name, capacity, source, old(volumeParams.entries))
      ensures r.Crashed? <==> NullOrigin(api, kind, capacity, source, old(volumeParams.entries))
    {
      if kind.FileSystem? {
        r := CreateFileSystem(capacity, source, volumeParams);
      } else {
        r := CreateOpenZfsVolume(name, capacity, source, volumeParams);
      }
    }

    /** Takes the driver's directions out of the parameters and refuses the names that are the driver's own. */
    method TakeUserParameters(volumeParams: ParameterMap) returns (kind: Option<Kind>)
      modifies volumeParams
      ensures kind == if DriverProvided(UserParams(old(volumeParams.entries))) then None
                      else KindOf(Text(Unreserved(old(volumeParams.entries)), RESOURCE_TYPE))
      ensures kind.Some? ==> volumeParams.entries == UserParams(old(volumeParams.entries))
    {
      DeleteReservedParameters(volumeParams);
      kind := KindOf(Text(volumeParams.entries, RESOURCE_TYPE));
      if kind.None? {
        return None;
      }
      volumeParams.entries := volumeParams.entries - {RESOURCE_TYPE};
      var forbidden := ContainsDriverProvidedParameters(volumeParams.entries);
      if forbidden.Some? {
        return None;
      }
    }

    method AddTokenAndTags(kind: Kind, name: string, volumeParams: ParameterMap)
      returns (code: Option<Code>, ghost order: seq<string>)
      modifies volumeParams
      ensures IsOrderOf(order, WithToken(api, name, old(volumeParams.entries)).Keys)
      ensures code.None? <==> TagsAccepted(api, kind, WithToken(api, name, old(volumeParams.entries)), order)
      ensures code.None? ==>
        volumeParams.entries == Tagged(api, name, old(volumeParams.entries), order)
      ensures code.Some? ==> code.value == TagsCode(api, kind, WithToken(api, name, old(volumeParams.entries)))
      ensures var with := WithToken(api, name, old(volumeParams.entries));
              ExistingTags(api.json, with).None? || !DeleteAccepted(api, kind, DeleteParameters(with)) ==>
                code == Some(InvalidArgument)
    {
      volumeParams.entries := volumeParams.entries[CLIENT_REQUEST_TOKEN := api.quote(name)];
      var err;
      err, order := AppendDeleteTags(api, volumeParams, kind);
      if err.Some? {
        return Some(InvalidArgument), order;
      }
      var ok := AppendCustomTags(api.json, volumeParams);
      code := if ok then None else Some(Internal);
    }

    method CreateFileSystem(capacity: Int32, source: Source, volumeParams: ParameterMap) returns (r: Outcome)
      modifies volumeParams
      ensures r.Call? <==>
        && SizeAndSourceAccepted(api, FileSystem, capacity, source, old(volumeParams.entries))
        && Deliverable(api, FileSystem, WithFileSystemFields(api, capacity, old(volumeParams.entries)))
      ensures r.Call? ==>
        r == Call(FileSystem,
                  Delivered(api, FileSystem, WithFileSystemFields(api, capacity, old(volumeParams.entries))))
      ensures r.Refused? ==> r.code == FileSystemCode(api, capacity, source, old(volumeParams.entries))
      ensures !r.Crashed?
    {
      if !source.Empty? {
        return Refused(Unimplemented);
      }
      volumeParams.entries := volumeParams.entries[FILE_SYSTEM_TYPE := api.quote("OPENZFS")];
      if IntelligentTiering(api, volumeParams.entries) {
        if capacity != 1 {
          return Refused(InvalidArgument);
        }
      } else {
        volumeParams.entries := volumeParams.entries[STORAGE_CAPACITY := api.itoa(capacity)];
      }
      r := Deliver(FileSystem, volumeParams);
    }

    method CreateOpenZfsVolume(name: string, capacity: Int32, source: Source, volumeParams: ParameterMap)
      returns (r: Outcome)
      modifies volumeParams
      ensures r.Call? <==>
        && SizeAndSourceAccepted(api, Volume, capacity, source, old(volumeParams.entries))
        && Deliverable(api, Volume, WithVolumeFields(api, name, source, old(volumeParams.entries)))
      ensures r.Call? ==>
        r == Call(Volume, Delivered(api, Volume, WithVolumeFields(api, name, source, old(volumeParams.entries))))
      ensures r.Refused? ==> r.code == VolumeCode(api, name, capacity, source, old(volumeParams.entries))
      ensures r.Crashed? <==> NullOrigin(api, Volume, capacity, source, old(volumeParams.entries))
    {
      if capacity != 1 {
        return Refused(InvalidArgument);
      }
      match source {
        case Empty =>
        case Unsupported => return Refused(Unimplemented);
        case NoSnapshotGiven => return Refused(InvalidArgument);
        case FromSnapshot(lookup) =>
          var origin := OriginSnapshot(api, volumeParams.entries);
          if origin.NotStrings? {
            return Refused(Internal);
          }
          if !lookup.Found? {
            return Refused(if lookup.Missing? then NotFound else Internal);
          }
          if origin.Null? {
            return Crashed;
          }
          volumeParams.entries :=
            volumeParams.entries[ORIGIN_SNAPSHOT := api.renderStrings(origin.strings[SNAPSHOT_ARN := lookup.arn])];
      }
      volumeParams.entries := volumeParams.entries[NAME := api.quote(name)];
      volumeParams.entries := volumeParams.entries[VOLUME_TYPE := api.quote("OPENZFS")];
      r := Deliver(Volume, volumeParams);
    }

    /** Collapses the flat parameters and fills the API object with what results. */
    method Deliver(kind: Kind, volumeParams: ParameterMap) returns (r: Outcome)
      modifies volumeParams
      ensures r.Call? <==> Deliverable(api, kind, old(volumeParams.entries))
      ensures r.Call? ==> r == Call(kind, Delivered(api, kind, old(volumeParams.entries)))
      ensures r.Refused? ==> r.code == DeliveryCode(api, kind, old(volumeParams.entries))
      ensures r == Refused(InvalidArgument) <==> exists k | k in old(volumeParams.entries) ::
        || !api.json.wellFormed(old(volumeParams.entries)[k])
        || (k in api.For(kind).createConfig.names
            && api.For(kind).createConfig.decode(k, old(volumeParams.entries)[k]).None?)
      ensures !r.Crashed?
    {
      var s := api.For(kind);
      var err := ReplaceParametersAndPopulateObject(api.json, OPEN_ZFS_CONFIGURATION, volumeParams, s.createConfig);
      if err.Some? {
        return Refused(InvalidArgument);
      }
      var input;
      input, err := StrictRemoveParametersAndPopulateObject(api.json, volumeParams, s.createInput);
      r := if err.Some? then Refused(Internal) else Call(kind, input);
    }
  }
}
