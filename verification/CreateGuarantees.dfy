/** What every accepted create request sends, whatever the user wrote and whatever order a map was walked in. */
module CreateGuarantees {
  import opened Strings
  import opened Parameters
  import opened DeleteTags
  import opened CreateVolume
  import opened Iteration
  import opened Capacity

  /** The tag as the service keeps it. */
  function Stored(t: TagObject): Tag {
    Tag(if "Key" in t then Some(t["Key"]) else None, if "Value" in t then Some(t["Value"]) else None)
  }

  function StoredAll(tags: seq<TagObject>): seq<Tag> {
    seq(|tags|, i requires 0 <= i < |tags| => Stored(tags[i]))
  }

  /** The API fields that the driver fills in itself. */
  function OwnFields(kind: Kind): set<string> {
    {CLIENT_REQUEST_TOKEN, TAGS}
    + if kind.FileSystem? then {FILE_SYSTEM_TYPE, STORAGE_CAPACITY} else {NAME, VOLUME_TYPE}
  }

  /** The configuration object and the request that carries it share no field, and the driver's are the request's. */
  ghost predicate SchemasFit(api: Api, kind: Kind) {
    var s := api.For(kind);
    && s.createConfig.Fields() !! s.createInput.Fields()
    && OwnFields(kind) + {OPEN_ZFS_CONFIGURATION} <= s.createInput.Fields()
    && (kind.Volume? ==> ORIGIN_SNAPSHOT in s.createConfig.Fields())
  }

  /** Tags that the JSON library wrote are read back by the driver as they were: a list of maps of strings loses
      nothing. */
  ghost predicate TagsParse(json: Json) {
    forall ts: seq<TagObject> :: json.renderTags(ts) != "" && json.parseTags(json.renderTags(ts)) == Some(ts)
  }

  /** The request's decoder reads these tags as they are. It takes the members of a tag in any case, so this leaves out
      lists with a tag that has a second key or value in another case. */
  predicate TagsDecode(json: Json, tags: seq<TagObject>, input: Schema) {
    input.decode(TAGS, json.renderTags(tags)) == Some(TagList(StoredAll(tags)))
  }

  /** What the driver takes for granted about the JSON library and the API's structs. */
  ghost predicate Lawful(api: Api, kind: Kind) {
    SchemasFit(api, kind) && TagsParse(api.json)
  }

  /** All the tags of a new resource: the user's, one for each deletion option, and the driver's own. */
  function AllTags(api: Api, req: Request, order: seq<string>): seq<TagObject>
    requires ExistingTags(api.json, UserParams(req.parameters)).Some?
  {
    var user := UserParams(req.parameters);
    ExistingTags(api.json, user).value + DeletionTags(order, user) + [CLUSTER_TAG]
  }

  /** The request's own tags, all of them, are such as its decoder reads as they are. */
  predicate OwnTagsDecode(api: Api, req: Request, order: seq<string>)
    requires RequestKind(req).Some?
  {
    ExistingTags(api.json, UserParams(req.parameters)).Some? ==>
      TagsDecode(api.json, AllTags(api, req, order), api.For(RequestKind(req).value).createInput)
  }

  lemma TokenIsNoOption(api: Api, name: string, params: Params, order: seq<string>)
    requires CLIENT_REQUEST_TOKEN !in params
    ensures DeletionKeys(WithToken(api, name, params)) == DeletionKeys(params)
    ensures DeleteParameters(WithToken(api, name, params)) == DeleteParameters(params)
    ensures DeletionTags(order, WithToken(api, name, params)) == DeletionTags(order, params)
    ensures ExistingTags(api.json, WithToken(api, name, params)) == ExistingTags(api.json, params)
  {
    var with := WithToken(api, name, params);
    assert !HasSuffix(CLIENT_REQUEST_TOKEN, DELETION_SUFFIX);
    forall k ensures k + DELETION_SUFFIX != CLIENT_REQUEST_TOKEN {
      TrimSuffixOfConcat(k, DELETION_SUFFIX);
    }
    forall k: string ensures TagsOf(k, with) == TagsOf(k, params) {
    }
    SameItems(order, k => TagsOf(k, with), k => TagsOf(k, params));
  }

  lemma {:induction false} SameItems<K(!new), T>(order: seq<K>, f: K -> seq<T>, g: K -> seq<T>)
    requires forall k :: f(k) == g(k)
    ensures Collect(order, f) == Collect(order, g)
  {
    if order != [] {
      SameItems(order[..|order| - 1], f, g);
    }
  }

  lemma RenderedTagsExist(api: Api, kind: Kind, params: Params, tags: seq<TagObject>)
    requires Lawful(api, kind)
    ensures ExistingTags(api.json, params[TAGS := api.json.renderTags(tags)]) == Some(tags)
  {
  }

  /** The tags are taken exactly if those that the user wrote parse and the options make an acceptable delete
      request. */
  lemma TagsAcceptedMeans(api: Api, kind: Kind, params: Params, order: seq<string>)
    requires Lawful(api, kind)
    ensures TagsAccepted(api, kind, params, order)
      <==> ExistingTags(api.json, params).Some? && DeleteAccepted(api, kind, DeleteParameters(params))
  {
    if ExistingTags(api.json, params).Some? {
      var tags := ExistingTags(api.json, params).value + DeletionTags(order, params);
      RenderedTagsExist(api, kind, params - DeletionKeys(params), tags);
    }
  }

  lemma TokenKept(params: Params, token: string)
    requires CLIENT_REQUEST_TOKEN !in params
    ensures var with := params[CLIENT_REQUEST_TOKEN := token];
            with - DeletionKeys(with) == (params - DeletionKeys(params))[CLIENT_REQUEST_TOKEN := token]
  {
    assert !HasSuffix(CLIENT_REQUEST_TOKEN, DELETION_SUFFIX);
  }

  /** The parameters once both tag steps are done. */
  lemma TaggedParams(api: Api, kind: Kind, name: string, user: Params, order: seq<string>)
    requires Lawful(api, kind)
    requires CLIENT_REQUEST_TOKEN !in user && ExistingTags(api.json, user).Some?
    ensures Tagged(api, name, user, order)
      == (user - DeletionKeys(user))[CLIENT_REQUEST_TOKEN := api.quote(name)]
           [TAGS := api.json.renderTags(ExistingTags(api.json, user).value + DeletionTags(order, user) + [CLUSTER_TAG])]
  {
    var with := WithToken(api, name, user);
    var tags := ExistingTags(api.json, user).value + DeletionTags(order, user);
    TokenIsNoOption(api, name, user, order);
    TokenKept(user, api.quote(name));
    RenderedTagsExist(api, kind, with - DeletionKeys(with), tags);
    ClusterTagReplaces(api.json, with - DeletionKeys(with), tags);
  }

  lemma ClusterTagReplaces(json: Json, params: Params, tags: seq<TagObject>)
    requires ExistingTags(json, params[TAGS := json.renderTags(tags)]) == Some(tags)
    ensures WithClusterTag(json, params[TAGS := json.renderTags(tags)])
      == params[TAGS := json.renderTags(tags + [CLUSTER_TAG])]
  {
  }

  // ---------- The driver's own fields ----------

  /** A name that neither the orchestrator, nor the deletion options, nor the resource type may appear under. */
  predicate Clean(key: string) {
    !HasPrefix(key, RESERVED_PREFIX) && !HasSuffix(key, DELETION_SUFFIX) && key != RESOURCE_TYPE
  }

  lemma OwnFieldsAreClean(kind: Kind)
    ensures forall k | k in OwnFields(kind) + {OPEN_ZFS_CONFIGURATION, ORIGIN_SNAPSHOT} :: Clean(k)
  {
    SharedFieldsAreClean();
    FileSystemFieldsAreClean();
    VolumeFieldsAreClean();
  }

  lemma SharedFieldsAreClean()
    ensures Clean(CLIENT_REQUEST_TOKEN) && Clean(TAGS) && Clean(OPEN_ZFS_CONFIGURATION) && Clean(ORIGIN_SNAPSHOT)
  {
    IsClean(CLIENT_REQUEST_TOKEN, 8);
    IsClean(TAGS, 9);
    IsClean(OPEN_ZFS_CONFIGURATION, 0);
    IsClean(ORIGIN_SNAPSHOT, 9);
  }

  lemma FileSystemFieldsAreClean()
    ensures Clean(FILE_SYSTEM_TYPE) && Clean(STORAGE_CAPACITY)
  {
    IsClean(FILE_SYSTEM_TYPE, 9);
    IsClean(STORAGE_CAPACITY, 9);
  }

  lemma VolumeFieldsAreClean()
    ensures Clean(NAME) && Clean(VOLUME_TYPE)
  {
    IsClean(NAME, 9);
    IsClean(VOLUME_TYPE, 9);
  }

  lemma IsClean(key: string, i: nat)
    requires key != "" && key[0] != RESERVED_PREFIX[0] && key != RESOURCE_TYPE
    requires i < 10 && (|key| >= 10 ==> key[|key| - 10 + i] != DELETION_SUFFIX[i])
    ensures Clean(key)
  {
    StartsOtherwise(key);
    EndsOtherwise(key, i);
  }

  lemma StartsOtherwise(key: string)
    requires key != "" && key[0] != RESERVED_PREFIX[0]
    ensures !HasPrefix(key, RESERVED_PREFIX)
  {
  }

  lemma EndsOtherwise(key: string, i: nat)
    requires i < 10
    requires |key| >= 10 ==> key[|key| - 10 + i] != DELETION_SUFFIX[i]
    ensures !HasSuffix(key, DELETION_SUFFIX)
  {
    if |key| >= 10 {
      assert key[|key| - 10..][i] == key[|key| - 10 + i];
    }
  }

  lemma NotDriverProvided(params: Params)
    requires !DriverProvided(params)
    ensures forall n | n in DRIVER_DEFINED :: n !in params
    ensures forall k | k in {CLIENT_REQUEST_TOKEN, FILE_SYSTEM_TYPE, NAME, OPEN_ZFS_CONFIGURATION, STORAGE_CAPACITY,
                             VOLUME_TYPE} :: k !in params
  {
    assert DRIVER_DEFINED[0] in DRIVER_DEFINED && DRIVER_DEFINED[1] in DRIVER_DEFINED &&
      DRIVER_DEFINED[2] in DRIVER_DEFINED;
    assert DRIVER_DEFINED[3] in DRIVER_DEFINED && DRIVER_DEFINED[4] in DRIVER_DEFINED &&
      DRIVER_DEFINED[6] in DRIVER_DEFINED;
  }

  /** The driver's fields have the driver's values. */
  predicate DriverSet(api: Api, kind: Kind, name: string, capacity: Int32, tiering: bool, tags: string, m: Params) {
    && CLIENT_REQUEST_TOKEN in m && m[CLIENT_REQUEST_TOKEN] == api.quote(name)
    && TAGS in m && m[TAGS] == tags
    && (kind.FileSystem? ==>
          && FILE_SYSTEM_TYPE in m && m[FILE_SYSTEM_TYPE] == api.quote("OPENZFS")
          && (if tiering then STORAGE_CAPACITY !in m
              else STORAGE_CAPACITY in m && m[STORAGE_CAPACITY] == api.itoa(capacity)))
    && (kind.Volume? ==>
          && NAME in m && m[NAME] == api.quote(name)
          && VOLUME_TYPE in m && m[VOLUME_TYPE] == api.quote("OPENZFS"))
  }

  /** The flat parameters, field by field: the driver's fields are its own, all others the user's. */
  lemma FlatFields(api: Api, kind: Kind, name: string, capacity: Int32, source: Source, kept: Params, tags: string)
    requires STORAGE_CAPACITY !in kept
    ensures var flat := FlatParams(api, kind, name, capacity, source,
                                   kept[CLIENT_REQUEST_TOKEN := api.quote(name)][TAGS := tags]);
            && DriverSet(api, kind, name, capacity, IntelligentTiering(api, kept), tags, flat)
            && (forall k | k in flat && k !in OwnFields(kind) && !(kind.Volume? && k == ORIGIN_SNAPSHOT) ::
                  k in kept && flat[k] == kept[k])
  {
  }

  /** Collapsing takes fields of the configuration only. */
  lemma CollapseKeepsOwnFields(api: Api, kind: Kind, name: string, capacity: Int32, tiering: bool, tags: string,
                               flat: Params)
    requires SchemasFit(api, kind)
    requires DriverSet(api, kind, name, capacity, tiering, tags, flat)
    ensures DriverSet(api, kind, name, capacity, tiering, tags, CloudParams(api, kind, flat))
  {
    var config := api.For(kind).createConfig.Fields();
    assert forall k | k in OwnFields(kind) :: k in api.For(kind).createInput.Fields() && k !in config;
    assert DriverSet(api, kind, name, capacity, tiering, tags, flat - config);
  }

  /** The other keys of the collapsed map are the user's. */
  lemma OtherFieldsAreUsers(api: Api, kind: Kind, user: Params, flat: Params)
    requires SchemasFit(api, kind)
    requires forall k | k in user :: !HasPrefix(k, RESERVED_PREFIX) && k != RESOURCE_TYPE
    requires forall k | k in flat && k !in OwnFields(kind) && !(kind.Volume? && k == ORIGIN_SNAPSHOT) ::
      k in user - DeletionKeys(user) && flat[k] == user[k]
    ensures var sent := CloudParams(api, kind, flat);
            && (forall k | k in sent :: Clean(k))
            && (forall k | k in sent && k !in OwnFields(kind) && k != OPEN_ZFS_CONFIGURATION ::
                k in user && sent[k] == user[k])
  {
    OwnFieldsAreClean(kind);
    var sent := CloudParams(api, kind, flat);
    forall k | k in sent && k !in OwnFields(kind) && k != OPEN_ZFS_CONFIGURATION
      ensures k in user && sent[k] == user[k] && Clean(k)
    {
      assert k in flat && k !in api.For(kind).createConfig.Fields();
      assert k in user - DeletionKeys(user);
    }
  }

  /** Every accepted request reaches the cloud with the driver's fields as the driver sets them, the cluster tag
      last, no key that was meant for the driver alone, and every other value as the user wrote it. */
  lemma DriverOwnsItsFields(api: Api, req: Request, order: seq<string>)
    requires Accepted(api, req, order) && Lawful(api, RequestKind(req).value)
    ensures ExistingTags(api.json, UserParams(req.parameters)).Some?
    ensures var sent := CloudParams(api, RequestKind(req).value, Flat(api, req, order));
            && "ClientRequestToken" in sent && sent["ClientRequestToken"] == api.quote(req.name)
            && (RequestKind(req) == Some(FileSystem) ==>
                  && "FileSystemType" in sent && sent["FileSystemType"] == api.quote("OPENZFS")
                  && (if Text(req.parameters, "StorageType") == api.quote("INTELLIGENT_TIERING")
                      then "StorageCapacity" !in sent
                      else "StorageCapacity" in sent && sent["StorageCapacity"]
                             == api.itoa(if req.requiredBytes.None? then 0
                                         else BytesToGiB(req.requiredBytes.value).value)))
            && (RequestKind(req) == Some(Volume) ==>
                  && "Name" in sent && sent["Name"] == api.quote(req.name)
                  && "VolumeType" in sent && sent["VolumeType"] == api.quote("OPENZFS"))
            && (forall k | k in sent ::
                  !("csi.storage.k8s.io" <= k) && !HasSuffix(k, "OnDeletion") && k != "ResourceType")
    ensures var kind := RequestKind(req).value;
            var sent := CloudParams(api, kind, Flat(api, req, order));
            && DriverSet(api, kind, req.name, CapacityOf(req).value,
                         IntelligentTiering(api, UserParams(req.parameters)),
                         api.json.renderTags(AllTags(api, req, order)), sent)
            && (forall k | k in sent :: Clean(k))
            && (forall k | k in sent && k !in OwnFields(kind) && k != OPEN_ZFS_CONFIGURATION ::
                  k in req.parameters && sent[k] == req.parameters[k])
  {
    TokenIsNoOptionOf(api, req);
    UserParamsFacts(req.parameters);
    SentFields(api, RequestKind(req).value, req, order);
    StorageTypeIsUsers(req.parameters);
  }

  /** The same without the conditions of acceptance that concern the values. */
  lemma SentFields(api: Api, kind: Kind, req: Request, order: seq<string>)
    requires RequestKind(req) == Some(kind) && CapacityOf(req).Some? && Lawful(api, kind)
    requires !DriverProvided(UserParams(req.parameters)) && ExistingTags(api.json, UserParams(req.parameters)).Some?
    ensures var sent := CloudParams(api, kind, Flat(api, req, order));
            var user := UserParams(req.parameters);
            && DriverSet(api, kind, req.name, CapacityOf(req).value, IntelligentTiering(api, user),
                         api.json.renderTags(AllTags(api, req, order)), sent)
            && (forall k | k in sent :: Clean(k))
            && (forall k | k in sent && k !in OwnFields(kind) && k != OPEN_ZFS_CONFIGURATION ::
                k in user && sent[k] == user[k])
  {
    var user := UserParams(req.parameters);
    var capacity := CapacityOf(req).value;
    var tags := api.json.renderTags(AllTags(api, req, order));
    NotDriverProvided(user);
    TaggedParams(api, kind, req.name, user, order);
    FlatFields(api, kind, req.name, capacity, req.source, user - DeletionKeys(user), tags);
    TieringIsUsers(api, user);
    UserParamsFacts(req.parameters);
    CollapseKeepsOwnFields(api, kind, req.name, capacity, IntelligentTiering(api, user), tags, Flat(api, req, order));
    OtherFieldsAreUsers(api, kind, user, Flat(api, req, order));
  }

  lemma TokenIsNoOptionOf(api: Api, req: Request)
    requires !DriverProvided(UserParams(req.parameters))
    ensures ExistingTags(api.json, WithToken(api, req.name, UserParams(req.parameters)))
      == ExistingTags(api.json, UserParams(req.parameters))
  {
    NotDriverProvided(UserParams(req.parameters));
    TokenIsNoOption(api, req.name, UserParams(req.parameters), []);
  }

  lemma UserParamsFacts(params: Params)
    ensures forall k | k in UserParams(params) ::
      k in params && UserParams(params)[k] == params[k] && !HasPrefix(k, RESERVED_PREFIX) && k != RESOURCE_TYPE
  {
  }

  lemma StorageTypeIsUsers(params: Params)
    ensures Text(UserParams(params), "StorageType") == Text(params, "StorageType")
  {
    StartsOtherwise(STORAGE_TYPE);
    assert |STORAGE_TYPE| == 11 && |RESOURCE_TYPE| == 12;
  }

  lemma TieringIsUsers(api: Api, user: Params)
    ensures IntelligentTiering(api, user - DeletionKeys(user)) == IntelligentTiering(api, user)
  {
    assert !HasSuffix(STORAGE_TYPE, DELETION_SUFFIX);
  }

  /** A request is delivered exactly when each of its flat parameters is a field of the configuration or of the request
      and decodes there; every field of the configuration then arrives nested, every other one at the top. */
  lemma DeliveryMeansFlatFields(api: Api, kind: Kind, flat: Params)
    requires SchemasFit(api, kind) && ReadsBack(api.json, flat, api.For(kind).createConfig, api.For(kind).createInput)
    requires OPEN_ZFS_CONFIGURATION !in flat
    ensures var s := api.For(kind);
            && (Deliverable(api, kind, flat) <==> FlatAccepted(api.json, flat, s.createConfig, s.createInput))
            && (Deliverable(api, kind, flat) ==>
                  Delivered(api, kind, flat)
                  == Populated(flat, s.createInput)[OPEN_ZFS_CONFIGURATION := Nested(Populated(flat, s.createConfig))])
  {
    NestingPreservesMeaning(api.json, flat, api.For(kind).createConfig, api.For(kind).createInput);
  }

  /** The parameter is in the API object, nested if it belongs to the configuration and at the top otherwise. */
  ghost predicate Arrives(s: Schemas, sent: Record, key: string, text: string) {
    && OPEN_ZFS_CONFIGURATION in sent && sent[OPEN_ZFS_CONFIGURATION].Nested?
    && var nested := sent[OPEN_ZFS_CONFIGURATION].fields;
       if key in s.createConfig.Fields()
       then s.createConfig.decode(key, text).Some? && key in nested &&
         nested[key] == s.createConfig.decode(key, text).value
       else s.createInput.decode(key, text).Some? && key in sent && sent[key] == s.createInput.decode(key, text).value
  }

  lemma FlatParameterArrives(api: Api, kind: Kind, flat: Params, key: string)
    requires SchemasFit(api, kind) && ReadsBack(api.json, flat, api.For(kind).createConfig, api.For(kind).createInput)
    requires OPEN_ZFS_CONFIGURATION !in flat && Deliverable(api, kind, flat) && key in flat
    ensures Arrives(api.For(kind), Delivered(api, kind, flat), key, flat[key])
  {
    DeliveryMeansFlatFields(api, kind, flat);
  }

  lemma NestedFieldsAreFlat(api: Api, kind: Kind, flat: Params)
    requires SchemasFit(api, kind) && ReadsBack(api.json, flat, api.For(kind).createConfig, api.For(kind).createInput)
    requires OPEN_ZFS_CONFIGURATION !in flat && Deliverable(api, kind, flat)
    ensures var sent := Delivered(api, kind, flat);
            OPEN_ZFS_CONFIGURATION in sent && sent[OPEN_ZFS_CONFIGURATION].Nested?
            && sent[OPEN_ZFS_CONFIGURATION].fields.Keys == flat.Keys * api.For(kind).createConfig.Fields()
  {
    DeliveryMeansFlatFields(api, kind, flat);
  }

  /** The text of a parameter that is not the driver's: the user's own, but for the origin of a restored volume. */
  function Intended(api: Api, req: Request, user: Params): Params {
    if RequestKind(req) == Some(Volume) then WithOrigin(api, req.source, user) else user
  }

  lemma FlatIsIntended(api: Api, req: Request, kind: Kind, kept: Params, tags: string)
    requires RequestKind(req) == Some(kind) && CapacityOf(req).Some?
    requires CLIENT_REQUEST_TOKEN !in kept && FILE_SYSTEM_TYPE !in kept && NAME !in kept
    requires STORAGE_CAPACITY !in kept && VOLUME_TYPE !in kept && OPEN_ZFS_CONFIGURATION !in kept
    ensures var flat := FlatParams(api, kind, req.name, CapacityOf(req).value, req.source,
                                   kept[CLIENT_REQUEST_TOKEN := api.quote(req.name)][TAGS := tags]);
            var intended := Intended(api, req, kept);
            && OPEN_ZFS_CONFIGURATION !in flat
            && (forall k | k in intended && k != TAGS :: k in flat && flat[k] == intended[k])
            && (forall k | k in flat && k !in OwnFields(kind) :: k in intended)
  {
  }

  lemma OriginIsUsers(api: Api, req: Request, user: Params)
    ensures Intended(api, req, user - DeletionKeys(user)) == Intended(api, req, user) - DeletionKeys(user)
  {
    EndsOtherwise(ORIGIN_SNAPSHOT, 9);
    assert ORIGIN_SNAPSHOT !in DeletionKeys(user);
  }

  lemma OwnFieldsAreNotNested(api: Api, kind: Kind, flat: Params, kept: Params)
    requires SchemasFit(api, kind)
    requires kept.Keys <= flat.Keys && flat.Keys - OwnFields(kind) <= kept.Keys
    ensures flat.Keys * api.For(kind).createConfig.Fields() == kept.Keys * api.For(kind).createConfig.Fields()
  {
    assert OwnFields(kind) !! api.For(kind).createConfig.Fields();
  }

  lemma SamePopulated(kept: Params, flat: Params, config: Schema)
    requires forall k | k in kept :: k in flat && flat[k] == kept[k]
    requires flat.Keys * config.Fields() == kept.Keys * config.Fields()
    ensures Populated(kept, config) == Populated(flat, config)
  {
    forall k | k in config.Fields() ensures k in kept <==> k in flat {
      assert k in flat.Keys * config.Fields() <==> k in kept.Keys * config.Fields();
    }
  }

  /** What the user wrote and the driver does not turn into tags. */
  function Kept(api: Api, req: Request): Params {
    Intended(api, req, UserParams(req.parameters)) - DeletionKeys(UserParams(req.parameters)) - {TAGS}
  }

  lemma FlatHoldsKept(api: Api, req: Request, kind: Kind, order: seq<string>)
    requires RequestKind(req) == Some(kind) && CapacityOf(req).Some? && Lawful(api, kind)
    requires !DriverProvided(UserParams(req.parameters)) && ExistingTags(api.json, UserParams(req.parameters)).Some?
    ensures var flat, kept := Flat(api, req, order), Kept(api, req);
            && OPEN_ZFS_CONFIGURATION !in flat
            && (forall k | k in kept :: k in flat && flat[k] == kept[k])
            && flat.Keys - OwnFields(kind) <= kept.Keys
  {
    var user := UserParams(req.parameters);
    NotDriverProvided(user);
    TaggedParams(api, kind, req.name, user, order);
    FlatIsIntended(api, req, kind, user - DeletionKeys(user), api.json.renderTags(AllTags(api, req, order)));
    OriginIsUsers(api, req, user);
  }

  lemma KeptParametersArrive(api: Api, req: Request, order: seq<string>)
    requires Accepted(api, req, order) && Lawful(api, RequestKind(req).value)
    requires var s := api.For(RequestKind(req).value);
             ReadsBack(api.json, Kept(api, req), s.createConfig, s.createInput)
    ensures var kind := RequestKind(req).value;
            var sent := Delivered(api, kind, Flat(api, req, order));
            var kept := Kept(api, req);
            && (forall k | k in kept :: Arrives(api.For(kind), sent, k, kept[k]))
            && OPEN_ZFS_CONFIGURATION in sent && sent[OPEN_ZFS_CONFIGURATION].Nested?
            && sent[OPEN_ZFS_CONFIGURATION].fields.Keys == kept.Keys * api.For(kind).createConfig.Fields()
  {
    var kind := RequestKind(req).value;
    var flat, kept := Flat(api, req, order), Kept(api, req);
    TokenIsNoOptionOf(api, req);
    FlatHoldsKept(api, req, kind, order);
    OwnFieldsAreNotNested(api, kind, flat, kept);
    SamePopulated(kept, flat, api.For(kind).createConfig);
    NestedFieldsAreFlat(api, kind, flat);
    forall k | k in kept ensures Arrives(api.For(kind), Delivered(api, kind, flat), k, kept[k]) {
      FlatParameterArrives(api, kind, flat, k);
    }
  }

  /** The snapshot's resource name goes into the origin of the new volume. */
  predicate Restores(api: Api, req: Request) {
    && RequestKind(req) == Some(Volume) && req.source.FromSnapshot? && req.source.lookup.Found?
    && OriginSnapshot(api, req.parameters).StringMap?
  }

  lemma KeptMeans(api: Api, req: Request)
    ensures forall k :: k in Kept(api, req) <==>
      || (k == "OriginSnapshot" && Restores(api, req))
      || (k in req.parameters && !("csi.storage.k8s.io" <= k) && !HasSuffix(k, "OnDeletion")
          && k != "ResourceType" && k != "Tags")
    ensures forall k | k in Kept(api, req) && !(k == "OriginSnapshot" && Restores(api, req)) ::
      Kept(api, req)[k] == req.parameters[k]
    ensures Restores(api, req) ==>
      var origin := OriginSnapshot(api, req.parameters).strings;
      Kept(api, req)["OriginSnapshot"] == api.renderStrings(origin["SnapshotARN" := req.source.lookup.arn])
  {
    SharedFieldsAreClean();
    UserParamsAre(req.parameters);
    OriginIsRequests(api, req.parameters);
    assert ORIGIN_SNAPSHOT != TAGS;
  }

  lemma UserParamsAre(params: Params)
    ensures forall k :: k in UserParams(params) <==> k in params && !("csi.storage.k8s.io" <= k) && k != "ResourceType"
    ensures forall k | k in UserParams(params) :: UserParams(params)[k] == params[k]
  {
  }

  lemma OriginIsRequests(api: Api, params: Params)
    ensures OriginSnapshot(api, UserParams(params)) == OriginSnapshot(api, params)
  {
    SharedFieldsAreClean();
    UserParamsAre(params);
  }

  /** Nothing the user wrote is lost: every parameter of an accepted request that is not meant for the driver and not
      turned into a tag arrives with its own decoding, the origin of a restored volume with the snapshot's resource name
      put in; and the configuration holds nothing else. */
  lemma UserParametersArrive(api: Api, req: Request, order: seq<string>)
    requires Accepted(api, req, order) && Lawful(api, RequestKind(req).value)
    requires var s := api.For(RequestKind(req).value);
             ReadsBack(api.json, Kept(api, req), s.createConfig, s.createInput)
    ensures var s := api.For(RequestKind(req).value);
            var sent := Delivered(api, RequestKind(req).value, Flat(api, req, order));
            && (forall k | k in req.parameters && !("csi.storage.k8s.io" <= k) && !HasSuffix(k, "OnDeletion")
                           && k != "ResourceType" && k != "Tags" && !(k == "OriginSnapshot" && Restores(api, req)) ::
                  Arrives(s, sent, k, req.parameters[k]))
            && (Restores(api, req) ==>
                  var origin := OriginSnapshot(api, req.parameters).strings;
                  Arrives(s, sent, "OriginSnapshot", api.renderStrings(origin["SnapshotARN" := req.source.lookup.arn])))
            && "OpenZFSConfiguration" in sent && sent["OpenZFSConfiguration"].Nested?
            && (forall k | k in sent["OpenZFSConfiguration"].fields ::
                  k in s.createConfig.names && (k in req.parameters || (k == "OriginSnapshot" && Restores(api, req))))
  {
    KeptMeans(api, req);
    KeptParametersArrive(api, req, order);
  }

  // ---------- The tags the service stores ----------

  lemma AllTagsAreDelivered(api: Api, req: Request, order: seq<string>)
    requires Accepted(api, req, order) && Lawful(api, RequestKind(req).value)
    requires OwnTagsDecode(api, req, order)
    ensures ExistingTags(api.json, UserParams(req.parameters)).Some?
    ensures var sent := Delivered(api, RequestKind(req).value, Flat(api, req, order));
            TAGS in sent && sent[TAGS] == TagList(StoredAll(AllTags(api, req, order)))
  {
    TokenIsNoOptionOf(api, req);
    SentFields(api, RequestKind(req).value, req, order);
  }

  lemma TagsAreRequests(api: Api, params: Params)
    ensures ExistingTags(api.json, UserParams(params)) == ExistingTags(api.json, params)
  {
    SharedFieldsAreClean();
    UserParamsAre(params);
  }

  /** The deletion options of the request, in the order of iteration. */
  lemma OptionsOfRequest(api: Api, req: Request, order: seq<string>) returns (keys: seq<string>)
    requires IsOrderOf(order, WithToken(api, req.name, UserParams(req.parameters)).Keys)
    ensures forall k :: k in keys <==> k in req.parameters && !("csi.storage.k8s.io" <= k) && HasSuffix(k, "OnDeletion")
    ensures forall i, j | 0 <= i < j < |keys| :: keys[i] != keys[j]
    ensures var added := DeletionTags(order, UserParams(req.parameters));
            && |added| == |keys|
            && forall i | 0 <= i < |keys| ::
                 added[i] == map["Key" := keys[i], "Value" := TagValue(req.parameters[keys[i]])]
  {
    EndsOtherwise(RESOURCE_TYPE, 9);
    UserParamsAre(req.parameters);
    keys := TagsByKey(order, UserParams(req.parameters));
  }

  lemma StoredInOrder(written: seq<TagObject>, added: seq<TagObject>, keys: seq<string>, params: Params)
    requires |added| == |keys|
    requires forall i | 0 <= i < |keys| ::
      keys[i] in params && added[i] == map["Key" := keys[i], "Value" := TagValue(params[keys[i]])]
    ensures var tags := StoredAll(written + added + [CLUSTER_TAG]);
            && |tags| == |written| + |keys| + 1
            && (forall i | 0 <= i < |written| :: tags[i] == Stored(written[i]))
            && (forall i | 0 <= i < |keys| ::
                  tags[|written| + i] == Tag(Some(keys[i]), Some(TagValue(params[keys[i]]))))
            && tags[|written| + |keys|] == Tag(Some("fsx.openzfs.csi.aws.com/cluster"), Some("true"))
  {
    var all := written + added + [CLUSTER_TAG];
    assert forall i | 0 <= i < |keys| :: all[|written| + i] == added[i];
    assert all[|written| + |keys|] == CLUSTER_TAG;
  }

  lemma WrittenTags(json: Json, params: Params)
    ensures ExistingTags(json, params)
      == if Text(params, "Tags") == "" then Some([]) else json.parseTags(params["Tags"])
  {
  }

  lemma TagsInOrder(api: Api, req: Request, order: seq<string>, written: seq<TagObject>) returns (keys: seq<string>)
    requires IsOrderOf(order, WithToken(api, req.name, UserParams(req.parameters)).Keys)
    requires ExistingTags(api.json, UserParams(req.parameters)) == Some(written)
    ensures forall k :: k in keys <==> k in req.parameters && !("csi.storage.k8s.io" <= k) && HasSuffix(k, "OnDeletion")
    ensures forall i, j | 0 <= i < j < |keys| :: keys[i] != keys[j]
    ensures var tags := StoredAll(AllTags(api, req, order));
            && |tags| == |written| + |keys| + 1
            && (forall i | 0 <= i < |written| :: tags[i] == Stored(written[i]))
            && (forall i | 0 <= i < |keys| ::
                  tags[|written| + i] == Tag(Some(keys[i]), Some(TagValue(req.parameters[keys[i]]))))
            && tags[|written| + |keys|] == Tag(Some("fsx.openzfs.csi.aws.com/cluster"), Some("true"))
  {
    keys := OptionsOfRequest(api, req, order);
    StoredInOrder(written, DeletionTags(order, UserParams(req.parameters)), keys, req.parameters);
  }

  lemma TagsOfRequest(api: Api, req: Request, order: seq<string>) returns (tags: seq<Tag>, keys: seq<string>)
    requires IsOrderOf(order, WithToken(api, req.name, UserParams(req.parameters)).Keys)
    requires ExistingTags(api.json, UserParams(req.parameters)).Some?
    ensures tags == StoredAll(AllTags(api, req, order))
    ensures forall k :: k in keys <==> k in req.parameters && !("csi.storage.k8s.io" <= k) && HasSuffix(k, "OnDeletion")
    ensures forall i, j | 0 <= i < j < |keys| :: keys[i] != keys[j]
    ensures Text(req.parameters, "Tags") != "" ==> api.json.parseTags(req.parameters["Tags"]).Some?
    ensures var written := if Text(req.parameters, "Tags") == "" then []
                           else api.json.parseTags(req.parameters["Tags"]).value;
            && |tags| == |written| + |keys| + 1
            && (forall i | 0 <= i < |written| :: tags[i] == Stored(written[i]))
            && (forall i | 0 <= i < |keys| ::
                  tags[|written| + i] == Tag(Some(keys[i]), Some(TagValue(req.parameters[keys[i]]))))
            && tags[|written| + |keys|] == Tag(Some("fsx.openzfs.csi.aws.com/cluster"), Some("true"))
  {
    TagsAreRequests(api, req.parameters);
    WrittenTags(api.json, req.parameters);
    tags := StoredAll(AllTags(api, req, order));
    keys := TagsInOrder(api, req, order, ExistingTags(api.json, UserParams(req.parameters)).value);
  }

  /** The API object carries all the tags, and no other: those the user wrote, then one for each deletion option, in the
      order of iteration, and last the driver's. */
  lemma TagsAreDelivered(api: Api, req: Request, order: seq<string>) returns (tags: seq<Tag>, keys: seq<string>)
    requires Accepted(api, req, order) && Lawful(api, RequestKind(req).value) && OwnTagsDecode(api, req, order)
    requires IsOrderOf(order, WithToken(api, req.name, UserParams(req.parameters)).Keys)
    ensures var sent := Delivered(api, RequestKind(req).value, Flat(api, req, order));
            "Tags" in sent && sent["Tags"] == TagList(tags)
    ensures forall k :: k in keys <==> k in req.parameters && !("csi.storage.k8s.io" <= k) && HasSuffix(k, "OnDeletion")
    ensures forall i, j | 0 <= i < j < |keys| :: keys[i] != keys[j]
    ensures Text(req.parameters, "Tags") != "" ==> api.json.parseTags(req.parameters["Tags"]).Some?
    ensures var written := if Text(req.parameters, "Tags") == "" then []
                           else api.json.parseTags(req.parameters["Tags"]).value;
            && |tags| == |written| + |keys| + 1
            && (forall i | 0 <= i < |written| :: tags[i] == Stored(written[i]))
            && (forall i | 0 <= i < |keys| ::
                  tags[|written| + i] == Tag(Some(keys[i]), Some(TagValue(req.parameters[keys[i]]))))
            && tags[|written| + |keys|] == Tag(Some("fsx.openzfs.csi.aws.com/cluster"), Some("true"))
  {
    AllTagsAreDelivered(api, req, order);
    tags, keys := TagsOfRequest(api, req, order);
  }

  // ---------- Sending the same request again ----------

  /** A request sent again makes the same map for the cloud, whatever the order of iteration each time, exactly
      when it has at most one deletion option. */
  lemma ReplayIsIdentical(api: Api, kind: Kind, req: Request)
    requires RequestKind(req) == Some(kind) && CapacityOf(req).Some? && Lawful(api, kind)
    requires !DriverProvided(UserParams(req.parameters)) && ExistingTags(api.json, UserParams(req.parameters)).Some?
    ensures var keys := WithToken(api, req.name, UserParams(req.parameters)).Keys;
            (forall o1, o2 | IsOrderOf(o1, keys) && IsOrderOf(o2, keys) ::
               CloudParams(api, kind, Flat(api, req, o1)) == CloudParams(api, kind, Flat(api, req, o2)))
            <==> |DeletionKeys(UserParams(req.parameters))| <= 1
  {
    var user := UserParams(req.parameters);
    var with := WithToken(api, req.name, user);
    NotDriverProvided(user);
    TokenIsNoOption(api, req.name, user, []);
    TagsIndependentOfOrder(with);
    if |DeletionKeys(user)| <= 1 {
      forall o1, o2 | IsOrderOf(o1, with.Keys) && IsOrderOf(o2, with.Keys)
        ensures CloudParams(api, kind, Flat(api, req, o1)) == CloudParams(api, kind, Flat(api, req, o2))
      {
        assert DeletionTags(o1, with) == DeletionTags(o2, with);
        SameMapSameTags(api, kind, req, o1, o2);
      }
    } else {
      var o1, o2 :| IsOrderOf(o1, with.Keys) && IsOrderOf(o2, with.Keys) &&
        DeletionTags(o1, with) != DeletionTags(o2, with);
      SameMapSameTags(api, kind, req, o1, o2);
    }
  }

  lemma SameMapSameTags(api: Api, kind: Kind, req: Request, o1: seq<string>, o2: seq<string>)
    requires RequestKind(req) == Some(kind) && CapacityOf(req).Some? && Lawful(api, kind)
    requires !DriverProvided(UserParams(req.parameters)) && ExistingTags(api.json, UserParams(req.parameters)).Some?
    ensures var with := WithToken(api, req.name, UserParams(req.parameters));
            CloudParams(api, kind, Flat(api, req, o1)) == CloudParams(api, kind, Flat(api, req, o2))
            <==> DeletionTags(o1, with) == DeletionTags(o2, with)
  {
    var user := UserParams(req.parameters);
    NotDriverProvided(user);
    SentFields(api, kind, req, o1);
    SentFields(api, kind, req, o2);
    TokenIsNoOption(api, req.name, user, o1);
    TokenIsNoOption(api, req.name, user, o2);
    var existing := ExistingTags(api.json, user).value;
    var t1, t2 := DeletionTags(o1, user), DeletionTags(o2, user);
    if CloudParams(api, kind, Flat(api, req, o1)) == CloudParams(api, kind, Flat(api, req, o2)) {
      assert Some(AllTags(api, req, o1)) == Some(AllTags(api, req, o2));
      MiddleIsDetermined(existing, t1, t2, [CLUSTER_TAG]);
    }
    if t1 == t2 {
      TaggedParams(api, kind, req.name, user, o1);
      TaggedParams(api, kind, req.name, user, o2);
    }
  }

  lemma MiddleIsDetermined<T>(front: seq<T>, a: seq<T>, b: seq<T>, back: seq<T>)
    requires front + a + back == front + b + back
    ensures a == b
  {
    assert |a| == |b|;
    forall i | 0 <= i < |a| ensures a[i] == b[i] {
      assert (front + a + back)[|front| + i] == a[i] && (front + b + back)[|front| + i] == b[i];
    }
  }
}
