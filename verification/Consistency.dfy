/** The assumptions about the JSON library and the service hold together: here are a library, a service and,
    for each resource kind, a request that satisfy all of them at once. */
module Consistency {
  import opened Strings
  import opened Parameters
  import opened Iteration
  import opened DeleteTags
  import opened CreateVolume
  import opened CreateGuarantees
  import opened DeleteVolume
  import opened Capacity

  // ---------- Writing tags so that they can be read back ----------

  function Written(s: string): string {
    if s == "" then "." else "x" + [s[0]] + Written(s[1..])
  }

  lemma {:induction false} WrittenReads(s: string, t: string, x: string, y: string)
    requires Written(s) + x == Written(t) + y
    ensures s == t && x == y
  {
    var a, b := Written(s) + x, Written(t) + y;
    assert a[0] == (if s == "" then '.' else 'x') && b[0] == (if t == "" then '.' else 'x');
    if s == "" {
      assert x == a[1..] && y == b[1..];
    } else {
      assert a[1] == s[0] && b[1] == t[0];
      assert a[2..] == Written(s[1..]) + x && b[2..] == Written(t[1..]) + y;
      WrittenReads(s[1..], t[1..], x, y);
    }
  }

  ghost function Pairs(m: TagObject): seq<(string, string)> {
    if m == map[] then [] else var k :| k in m; [(k, m[k])] + Pairs(m - {k})
  }

  function FromPairs(ps: seq<(string, string)>): TagObject {
    if ps == [] then map[] else FromPairs(ps[1..])[ps[0].0 := ps[0].1]
  }

  lemma {:induction false} PairsAreTheMap(m: TagObject)
    ensures FromPairs(Pairs(m)) == m
    decreases |m|
  {
    if m != map[] {
      var ps := Pairs(m);
      var k := ps[0].0;
      assert ps[1..] == Pairs(m - {k});
      PairsAreTheMap(m - {k});
    }
  }

  function PairText(p: (string, string), rest: string): string {
    Written(p.0) + (Written(p.1) + rest)
  }

  function PairsText(ps: seq<(string, string)>): string {
    if ps == [] then "." else "x" + PairText(ps[0], PairsText(ps[1..]))
  }

  lemma PairTextReads(p: (string, string), q: (string, string), x: string, y: string)
    requires PairText(p, x) == PairText(q, y)
    ensures p == q && x == y
  {
    WrittenReads(p.0, q.0, Written(p.1) + x, Written(q.1) + y);
    WrittenReads(p.1, q.1, x, y);
  }

  lemma PairTextAppends(p: (string, string), rest: string, x: string)
    ensures PairText(p, rest) + x == PairText(p, rest + x)
  {
  }

  lemma {:induction false} PairsTextReads(ps: seq<(string, string)>, qs: seq<(string, string)>, x: string, y: string)
    requires PairsText(ps) + x == PairsText(qs) + y
    ensures ps == qs && x == y
  {
    var a, b := PairsText(ps) + x, PairsText(qs) + y;
    assert a[0] == (if ps == [] then '.' else 'x') && b[0] == (if qs == [] then '.' else 'x');
    if ps == [] {
      assert x == a[1..] && y == b[1..];
    } else {
      var p, q := PairsText(ps[1..]), PairsText(qs[1..]);
      assert a[1..] == PairText(ps[0], p) + x && b[1..] == PairText(qs[0], q) + y;
      PairTextAppends(ps[0], p, x);
      PairTextAppends(qs[0], q, y);
      PairTextReads(ps[0], qs[0], p + x, q + y);
      PairsTextReads(ps[1..], qs[1..], x, y);
    }
  }

  ghost function TagsText(ts: seq<TagObject>): string {
    if ts == [] then "." else "x" + (PairsText(Pairs(ts[0])) + TagsText(ts[1..]))
  }

  lemma {:induction false} TagsTextReads(ts: seq<TagObject>, us: seq<TagObject>)
    requires TagsText(ts) == TagsText(us)
    ensures ts == us
  {
    assert TagsText(ts)[0] == (if ts == [] then '.' else 'x') && TagsText(us)[0] == (if us == [] then '.' else 'x');
    if ts != [] {
      assert TagsText(ts)[1..] == PairsText(Pairs(ts[0])) + TagsText(ts[1..]);
      assert TagsText(us)[1..] == PairsText(Pairs(us[0])) + TagsText(us[1..]);
      PairsTextReads(Pairs(ts[0]), Pairs(us[0]), TagsText(ts[1..]), TagsText(us[1..]));
      PairsAreTheMap(ts[0]);
      PairsAreTheMap(us[0]);
      TagsTextReads(ts[1..], us[1..]);
      assert ts == [ts[0]] + ts[1..] && us == [us[0]] + us[1..];
    }
  }

  ghost function ReadText(text: string): Option<seq<TagObject>> {
    if exists ts :: TagsText(ts) == text then var ts :| TagsText(ts) == text; Some(ts) else None
  }

  lemma ReadTextReads(ts: seq<TagObject>)
    ensures ReadText(TagsText(ts)) == Some(ts) && TagsText(ts) != ""
  {
    TagsTextReads(ts, ReadText(TagsText(ts)).value);
  }

  // ---------- A library and a service ----------

  const COPY_TAGS := "CopyTagsToVolumes"

  /** The one field of the create configuration. */
  function ConfigField(kind: Kind): string {
    if kind.FileSystem? then COPY_TAGS else ORIGIN_SNAPSHOT
  }

  /** The text of a configuration with one field, or with none. */
  function RenderObject(r: Record): string {
    if COPY_TAGS in r && r[COPY_TAGS].Leaf? then "1" + r[COPY_TAGS].json
    else if ORIGIN_SNAPSHOT in r && r[ORIGIN_SNAPSHOT].Leaf? then "1" + r[ORIGIN_SNAPSHOT].json
    else if SKIP_FINAL_BACKUP in r && r[SKIP_FINAL_BACKUP].Leaf? then "1" + r[SKIP_FINAL_BACKUP].json
    else "0"
  }

  function ReadObject(field: string, text: string): Record {
    if text != "" && text[0] == '1' then map[field := Leaf(text[1..])] else map[]
  }

  function ConfigOf(field: string): Schema {
    Schema([field], (_, text) => Some(Leaf(text)))
  }

  ghost function SomeJson(): Json {
    Json(_ => true, r => RenderObject(r), ts => TagsText(ts), text => ReadText(text))
  }

  ghost function DecodeCreate(kind: Kind, field: string, text: string): Option<Value> {
    if field == TAGS then (if ReadText(text).Some? then Some(TagList(StoredAll(ReadText(text).value))) else None)
    else if field == OPEN_ZFS_CONFIGURATION then Some(Nested(ReadObject(ConfigField(kind), text)))
    else Some(Leaf(text))
  }

  function DecodeDelete(field: string, text: string): Option<Value> {
    if field == OPEN_ZFS_CONFIGURATION then Some(Nested(ReadObject(SKIP_FINAL_BACKUP, text))) else Some(Leaf(text))
  }

  function InputNames(kind: Kind): seq<string> {
    if kind.FileSystem? then [CLIENT_REQUEST_TOKEN, TAGS, OPEN_ZFS_CONFIGURATION, FILE_SYSTEM_TYPE, STORAGE_CAPACITY]
    else [CLIENT_REQUEST_TOKEN, TAGS, OPEN_ZFS_CONFIGURATION, NAME, VOLUME_TYPE]
  }

  ghost function SomeSchemas(kind: Kind): Schemas {
    Schemas(
      Schema(InputNames(kind), (f, t) => DecodeCreate(kind, f, t)),
      ConfigOf(ConfigField(kind)),
      Schema([IdField(kind), OPEN_ZFS_CONFIGURATION], (f, t) => DecodeDelete(f, t)),
      ConfigOf(SKIP_FINAL_BACKUP),
      _ => true)
  }

  ghost function SomeApi(): Api {
    Api(SomeJson(), s => s, _ => "0", _ => StringMap(map[]), _ => "arn", SomeSchemas(FileSystem), SomeSchemas(Volume))
  }

  lemma CreateFields(kind: Kind)
    ensures SomeApi().For(kind).createInput.Fields() == OwnFields(kind) + {OPEN_ZFS_CONFIGURATION}
    ensures SomeApi().For(kind).createConfig.Fields() == {ConfigField(kind)}
    ensures ConfigField(kind) !in OwnFields(kind) + {OPEN_ZFS_CONFIGURATION}
  {
    var names := InputNames(kind);
    assert names[0] in names && names[1] in names && names[2] in names && names[3] in names && names[4] in names;
    ConfigFieldIsApart(kind);
    assert ConfigOf(ConfigField(kind)).names[0] == ConfigField(kind);
  }

  lemma ConfigFieldIsApart(kind: Kind)
    ensures ConfigField(kind) !in OwnFields(kind) + {OPEN_ZFS_CONFIGURATION}
  {
    assert |COPY_TAGS| == 17 && |TAGS| == 4 && |CLIENT_REQUEST_TOKEN| == 18 && |OPEN_ZFS_CONFIGURATION| == 20;
    assert |FILE_SYSTEM_TYPE| == 14 && |STORAGE_CAPACITY| == 15 && |NAME| == 4 && |VOLUME_TYPE| == 10;
    assert |ORIGIN_SNAPSHOT| == 14;
  }

  lemma TagsAreRead(tags: seq<TagObject>, kind: Kind)
    ensures TagsDecode(SomeApi().json, tags, SomeApi().For(kind).createInput)
  {
    ReadTextReads(tags);
  }

  lemma TagsAreParsed()
    ensures TagsParse(SomeApi().json)
  {
    var json := SomeApi().json;
    forall ts: seq<TagObject> ensures json.renderTags(ts) != "" && json.parseTags(json.renderTags(ts)) == Some(ts) {
      ReadTextReads(ts);
    }
  }

  lemma ConfigNamesDiffer()
    ensures COPY_TAGS != ORIGIN_SNAPSHOT && COPY_TAGS != SKIP_FINAL_BACKUP && ORIGIN_SNAPSHOT != SKIP_FINAL_BACKUP
  {
    assert |COPY_TAGS| == 17 && |ORIGIN_SNAPSHOT| == 14 && |SKIP_FINAL_BACKUP| == 15;
  }

  lemma ConfigReadsBack(params: Params, field: string)
    requires field in {COPY_TAGS, ORIGIN_SNAPSHOT, SKIP_FINAL_BACKUP}
    ensures var record := Populated(params, ConfigOf(field));
            ReadObject(field, RenderObject(record)) == record
  {
    var record := Populated(params, ConfigOf(field));
    ConfigNamesDiffer();
    assert forall k | k in record :: k == field;
    if field in params {
      assert ConfigOf(field).names[0] == field;
      assert record == map[field := Leaf(params[field])];
      assert RenderObject(record)[1..] == params[field];
    } else {
      assert record == map[];
    }
  }

  lemma CreateConfigReadsBack(kind: Kind, params: Params)
    ensures ReadsBack(SomeApi().json, params, SomeApi().For(kind).createConfig, SomeApi().For(kind).createInput)
  {
    CreateFields(kind);
    ConfigReadsBack(params, ConfigField(kind));
  }

  lemma DeleteConfigReadsBack(kind: Kind, params: Params)
    ensures ReadsBack(SomeApi().json, params, SomeApi().For(kind).deleteConfig, SomeApi().For(kind).deleteInput)
  {
    assert SomeApi().For(kind).deleteInput.names[1] == OPEN_ZFS_CONFIGURATION;
    ConfigReadsBack(params, SKIP_FINAL_BACKUP);
  }

  lemma DeleteFields(kind: Kind)
    ensures SomeApi().For(kind).deleteInput.Fields() == {IdField(kind), OPEN_ZFS_CONFIGURATION}
    ensures SomeApi().For(kind).deleteConfig.Fields() == {SKIP_FINAL_BACKUP}
    ensures SKIP_FINAL_BACKUP !in {IdField(kind), OPEN_ZFS_CONFIGURATION}
  {
    var names := SomeApi().For(kind).deleteInput.names;
    assert names[0] == IdField(kind) && names[1] == OPEN_ZFS_CONFIGURATION;
    assert ConfigOf(SKIP_FINAL_BACKUP).names[0] == SKIP_FINAL_BACKUP;
    assert |SKIP_FINAL_BACKUP| == 15 && |IdField(kind)| < 15 && |OPEN_ZFS_CONFIGURATION| == 20;
  }

  lemma ApiIsLawful(kind: Kind)
    ensures Lawful(SomeApi(), kind) && DeleteLawful(SomeApi(), kind)
  {
    CreateFields(kind);
    DeleteFields(kind);
    TagsAreParsed();
  }

  // ---------- A request ----------

  const OPTION_KEY := SKIP_FINAL_BACKUP + DELETION_SUFFIX
  const OPTION_VALUE := "[\"X\"]"

  function User(kind: Kind): Params {
    map[OPTION_KEY := OPTION_VALUE, ConfigField(kind) := "true"]
  }

  /** A new file system, or a volume restored from a snapshot. */
  function SomeRequest(kind: Kind): Request {
    if kind.FileSystem?
    then Request("v", true, true, None, User(kind)[RESOURCE_TYPE := "filesystem"], Empty)
    else Request("v", true, true, Some(GIB), User(kind)[RESOURCE_TYPE := "volume"], FromSnapshot(Found("arn")))
  }

  function SomeCapacity(kind: Kind): Int32 {
    if kind.FileSystem? then 0 else 1
  }

  function SomeSource(kind: Kind): Source {
    if kind.FileSystem? then Empty else FromSnapshot(Found("arn"))
  }

  lemma RequestParts(kind: Kind)
    ensures var req := SomeRequest(kind);
            && req.name == "v" && req.capabilitiesGiven && req.capabilitiesSupported && req.source == SomeSource(kind)
            && CapacityOf(req) == Some(SomeCapacity(kind))
  {
  }

  lemma UserKeys(kind: Kind)
    ensures |OPTION_KEY| == 25 && OPTION_KEY[0] == 'S' && |COPY_TAGS| == 17 && |ORIGIN_SNAPSHOT| == 14
    ensures OPTION_KEY != ConfigField(kind) && RESOURCE_TYPE !in User(kind)
  {
    assert |RESOURCE_TYPE| == 12;
  }

  lemma KeysAreNotReserved(kind: Kind)
    ensures !HasPrefix(OPTION_KEY, RESERVED_PREFIX) && !HasPrefix(ConfigField(kind), RESERVED_PREFIX)
    ensures !HasPrefix(RESOURCE_TYPE, RESERVED_PREFIX)
  {
    assert OPTION_KEY[0] == 'S' && COPY_TAGS[0] == 'C' && ORIGIN_SNAPSHOT[0] == 'O' && RESOURCE_TYPE[0] == 'R';
  }

  lemma UserIsLeft(kind: Kind)
    ensures UserParams(SomeRequest(kind).parameters) == User(kind) && RequestKind(SomeRequest(kind)) == Some(kind)
  {
    var params := SomeRequest(kind).parameters;
    KeysAreNotReserved(kind);
    UserKeys(kind);
    assert Unreserved(params) == params;
    assert "filesystem"[0] != "volume"[0];
    assert params - {RESOURCE_TYPE} == User(kind);
  }

  lemma DriverNamesAreOthers(kind: Kind)
    ensures forall n | n in DRIVER_DEFINED :: n !in User(kind)
  {
    UserKeys(kind);
    assert |FILE_SYSTEM_TYPE| == 14 && FILE_SYSTEM_TYPE[0] == 'F' && ORIGIN_SNAPSHOT[0] == 'O';
    forall n | n in DRIVER_DEFINED ensures n !in User(kind) {
      assert |n| != 25 && |n| != 17 && (|n| == 14 ==> n[0] == 'F');
    }
  }

  lemma UserIsNotDriver(kind: Kind)
    ensures !DriverProvided(User(kind))
  {
    DriverNamesAreOthers(kind);
    UserKeys(kind);
    assert |Text(User(kind), ORIGIN_SNAPSHOT)| < |SNAPSHOT_ARN|;
  }

  lemma SoleDeletionKey(params: Params, option: string, other: string)
    requires params.Keys == {option + DELETION_SUFFIX, other} && !HasSuffix(other, DELETION_SUFFIX)
    ensures DeletionKeys(params) == {option + DELETION_SUFFIX}
    ensures DeleteParameters(params) == map[option := params[option + DELETION_SUFFIX]]
  {
    TrimSuffixOfConcat(option, DELETION_SUFFIX);
    SoleOption(option + DELETION_SUFFIX);
    forall k | k + DELETION_SUFFIX in params ensures k == option {
      TrimSuffixOfConcat(k, DELETION_SUFFIX);
    }
  }

  lemma ConfigFieldIsNoOption(kind: Kind)
    ensures !HasSuffix(ConfigField(kind), DELETION_SUFFIX)
  {
    EndsOtherwise(COPY_TAGS, 9);
    EndsOtherwise(ORIGIN_SNAPSHOT, 9);
  }

  lemma TheOnlyOption(kind: Kind)
    ensures DeletionKeys(User(kind)) == {OPTION_KEY}
    ensures DeleteParameters(User(kind)) == map[SKIP_FINAL_BACKUP := OPTION_VALUE]
    ensures !HasSuffix(ConfigField(kind), DELETION_SUFFIX)
  {
    UserKeys(kind);
    ConfigFieldIsNoOption(kind);
    SoleDeletionKey(User(kind), SKIP_FINAL_BACKUP, ConfigField(kind));
  }

  lemma OptionIsPreserved()
    ensures Preserved(OPTION_VALUE)
  {
    assert OPTION_VALUE[0] in "[],\"";
  }

  lemma OptionIsAccepted(kind: Kind)
    ensures DeleteAccepted(SomeApi(), kind, map[SKIP_FINAL_BACKUP := OPTION_VALUE])
  {
    var s := SomeApi().For(kind);
    var options: Params := map[SKIP_FINAL_BACKUP := OPTION_VALUE];
    var request := options[IdField(kind) := SomeApi().quote(PlaceholderId(kind))];
    DeleteFields(kind);
    var nested := Collapsed(SomeApi().json, OPEN_ZFS_CONFIGURATION, request, s.deleteConfig);
    assert nested.Keys <= {IdField(kind), OPEN_ZFS_CONFIGURATION};
  }

  // ---------- The request is accepted ----------

  /** The parameters of the request once its tags are in them. */
  ghost function SomeTagged(kind: Kind, tags: seq<TagObject>): Params {
    map[ConfigField(kind) := "true"][CLIENT_REQUEST_TOKEN := "v"][TAGS := TagsText(tags)]
  }

  lemma OptionsAreTagged(api: Api, kind: Kind, name: string, user: Params, order: seq<string>)
    requires Lawful(api, kind) && CLIENT_REQUEST_TOKEN !in user
    requires ExistingTags(api.json, user) == Some([])
    ensures Tagged(api, name, user, order)
      == (user - DeletionKeys(user))[CLIENT_REQUEST_TOKEN := api.quote(name)]
           [TAGS := api.json.renderTags(DeletionTags(order, user) + [CLUSTER_TAG])]
  {
    TaggedParams(api, kind, name, user, order);
    assert [] + DeletionTags(order, user) == DeletionTags(order, user);
  }

  lemma UserWithoutOption(kind: Kind)
    ensures User(kind) - {OPTION_KEY} == map[ConfigField(kind) := "true"]
    ensures TAGS !in User(kind) && CLIENT_REQUEST_TOKEN !in User(kind)
  {
    UserKeys(kind);
    assert |TAGS| == 4 && |CLIENT_REQUEST_TOKEN| == 18;
  }

  lemma RequestIsTagged(kind: Kind, order: seq<string>)
    ensures ExistingTags(SomeApi().json, User(kind)) == Some([])
    ensures Tagged(SomeApi(), "v", User(kind), order)
      == SomeTagged(kind, DeletionTags(order, User(kind)) + [CLUSTER_TAG])
  {
    ApiIsLawful(kind);
    TheOnlyOption(kind);
    UserWithoutOption(kind);
    OptionsAreTagged(SomeApi(), kind, "v", User(kind), order);
  }

  lemma DecodableIsDeliverable(api: Api, kind: Kind, flat: Params)
    requires var s := api.For(kind);
             flat.Keys - s.createConfig.Fields() + {OPEN_ZFS_CONFIGURATION} <= s.createInput.Fields()
    requires forall text :: api.json.wellFormed(text)
    requires forall field, text :: api.For(kind).createConfig.decode(field, text).Some?
    requires forall field, text | field != TAGS :: api.For(kind).createInput.decode(field, text).Some?
    requires TAGS in flat ==> api.For(kind).createInput.decode(TAGS, flat[TAGS]).Some?
    ensures Deliverable(api, kind, flat)
  {
  }

  lemma OwnFieldsAndKept(api: Api, kind: Kind, capacity: Int32, source: Source, kept: Params, tags: string)
    requires STORAGE_CAPACITY !in kept && (kind.Volume? ==> ORIGIN_SNAPSHOT in kept)
    ensures var flat := FlatParams(api, kind, "v", capacity, source,
                                   kept[CLIENT_REQUEST_TOKEN := api.quote("v")][TAGS := tags]);
            flat.Keys <= OwnFields(kind) + kept.Keys && TAGS in flat && flat[TAGS] == tags
  {
    FlatFields(api, kind, "v", capacity, source, kept, tags);
  }

  lemma DecodersAreTotal(kind: Kind)
    ensures var s := SomeApi().For(kind);
            && (forall field, text :: s.createConfig.decode(field, text).Some?)
            && (forall field, text | field != TAGS :: s.createInput.decode(field, text).Some?)
  {
  }

  ghost function SomeFlat(kind: Kind, tags: seq<TagObject>): Params {
    FlatParams(SomeApi(), kind, "v", SomeCapacity(kind), SomeSource(kind), SomeTagged(kind, tags))
  }

  /** The flat parameters are the driver's own fields and the configuration's. */
  lemma FlatFits(kind: Kind, tags: seq<TagObject>)
    ensures var flat := SomeFlat(kind, tags);
            && flat.Keys <= OwnFields(kind) + {ConfigField(kind)}
            && TAGS in flat && flat[TAGS] == TagsText(tags)
  {
    ConfigFieldIsApart(kind);
    ConfigFieldIsNoCapacity(kind);
    OwnFieldsAndKept(SomeApi(), kind, SomeCapacity(kind), SomeSource(kind), map[ConfigField(kind) := "true"],
                     TagsText(tags));
  }

  lemma ConfigFieldIsNoCapacity(kind: Kind)
    ensures STORAGE_CAPACITY !in map[ConfigField(kind) := "true"]
  {
    assert |STORAGE_CAPACITY| == 15 && |COPY_TAGS| == 17 && |ORIGIN_SNAPSHOT| == 14;
  }

  lemma TaggedIsDelivered(kind: Kind, tags: seq<TagObject>)
    ensures Deliverable(SomeApi(), kind, SomeFlat(kind, tags))
  {
    CreateFields(kind);
    ReadTextReads(tags);
    DecodersAreTotal(kind);
    FlatFits(kind, tags);
    DecodableIsDeliverable(SomeApi(), kind, SomeFlat(kind, tags));
  }

  lemma NoTiering(api: Api, params: Params)
    requires STORAGE_TYPE !in params && api.quote("INTELLIGENT_TIERING") != ""
    ensures !IntelligentTiering(api, params)
  {
  }

  lemma SizeAndSourceFit(kind: Kind, tags: seq<TagObject>)
    ensures SizeAndSourceAccepted(SomeApi(), kind, SomeCapacity(kind), SomeSource(kind), SomeTagged(kind, tags))
  {
    UserKeys(kind);
    assert |STORAGE_TYPE| == 11 && |CLIENT_REQUEST_TOKEN| == 18 && |TAGS| == 4;
    NoTiering(SomeApi(), SomeTagged(kind, tags));
  }

  lemma TagsFitWithToken(api: Api, kind: Kind, name: string, user: Params, order: seq<string>)
    requires Lawful(api, kind) && CLIENT_REQUEST_TOKEN !in user
    requires ExistingTags(api.json, user).Some? && DeleteAccepted(api, kind, DeleteParameters(user))
    ensures TagsAccepted(api, kind, WithToken(api, name, user), order)
  {
    TokenIsNoOption(api, name, user, order);
    TagsAcceptedMeans(api, kind, WithToken(api, name, user), order);
  }

  lemma SomeUserIsAccepted(kind: Kind, order: seq<string>)
    ensures ExistingTags(SomeApi().json, User(kind)) == Some([])
    ensures UserParamsAccepted(SomeApi(), kind, "v", SomeCapacity(kind), SomeSource(kind), User(kind), order)
  {
    var tags := DeletionTags(order, User(kind)) + [CLUSTER_TAG];
    ApiIsLawful(kind);
    TheOnlyOption(kind);
    OptionIsAccepted(kind);
    UserWithoutOption(kind);
    RequestIsTagged(kind, order);
    TagsFitWithToken(SomeApi(), kind, "v", User(kind), order);
    SizeAndSourceFit(kind, tags);
    TaggedIsDelivered(kind, tags);
  }

  lemma SomeRequestIsAccepted(kind: Kind, order: seq<string>)
    ensures Accepted(SomeApi(), SomeRequest(kind), order)
  {
    RequestParts(kind);
    UserIsLeft(kind);
    UserIsNotDriver(kind);
    SomeUserIsAccepted(kind, order);
  }

  // ---------- All together ----------

  lemma GivenOptions(api: Api, kind: Kind)
    requires SKIP_FINAL_BACKUP in api.For(kind).deleteConfig.Fields() && ExistingTags(api.json, User(kind)) == Some([])
    ensures var given := WithToken(api, "v", User(kind));
            && ConfigOptions(api, kind, given) == map[SKIP_FINAL_BACKUP := OPTION_VALUE]
            && ExistingTags(api.json, given) == Some([])
  {
    UserWithoutOption(kind);
    TheOnlyOption(kind);
    TokenIsNoOption(api, "v", User(kind), []);
  }

  function SomeId(kind: Kind): string {
    if kind.FileSystem? then "fs-1" else "fsvol-1"
  }

  lemma SomeIdIsAddressable(kind: Kind)
    ensures Addressable(SomeApi(), kind, SomeId(kind))
  {
    assert "fs-1"[1..] == "s-1" && "s-1"[1..] == "-1";
    assert BeforeFirst("-1", '-') == "" && BeforeFirst("s-1", '-') == "s" && BeforeFirst("fs-1", '-') == "fs";
    assert "fsvol-1"[1..] == "svol-1" && "svol-1"[1..] == "vol-1" && "vol-1"[1..] == "ol-1" && "ol-1"[1..] == "l-1";
    assert "l-1"[1..] == "-1" && BeforeFirst("l-1", '-') == "l" && BeforeFirst("ol-1", '-') == "ol";
    assert BeforeFirst("vol-1", '-') == "vol" && BeforeFirst("svol-1", '-') == "svol" &&
      BeforeFirst("fsvol-1", '-') == "fsvol";
  }

  lemma SomeListing(api: Api, req: Request, order: seq<string>) returns (listed: seq<Tag>)
    requires Accepted(api, req, order) && Lawful(api, RequestKind(req).value) && OwnTagsDecode(api, req, order)
    ensures var sent := Delivered(api, RequestKind(req).value, Flat(api, req, order));
            TAGS in sent && sent[TAGS].TagList? && forall t :: t in listed <==> t in sent[TAGS].tags
  {
    AllTagsAreDelivered(api, req, order);
    listed := Delivered(api, RequestKind(req).value, Flat(api, req, order))[TAGS].tags;
  }

  lemma IsKept(api: Api, req: Request, key: string)
    requires key in UserParams(req.parameters) && key != TAGS && !HasSuffix(key, DELETION_SUFFIX)
    ensures key in Kept(api, req)
    ensures RequestKind(req) == Some(FileSystem) ==> Kept(api, req)[key] == UserParams(req.parameters)[key]
  {
  }

  lemma OriginIsKept(api: Api, req: Request)
    requires RequestKind(req) == Some(Volume) && req.source.FromSnapshot? && req.source.lookup.Found?
    requires OriginSnapshot(api, UserParams(req.parameters)).StringMap? && ORIGIN_SNAPSHOT in Kept(api, req)
    ensures var origin := OriginSnapshot(api, UserParams(req.parameters)).strings;
            Kept(api, req)[ORIGIN_SNAPSHOT] == api.renderStrings(origin[SNAPSHOT_ARN := req.source.lookup.arn])
  {
  }

  lemma SomeConfigIsKept(kind: Kind)
    ensures ConfigField(kind) in Kept(SomeApi(), SomeRequest(kind))
    ensures Kept(SomeApi(), SomeRequest(kind))[ConfigField(kind)] == if kind.FileSystem? then "true" else "arn"
  {
    UserIsLeft(kind);
    UserWithoutOption(kind);
    TheOnlyOption(kind);
    RequestParts(kind);
    IsKept(SomeApi(), SomeRequest(kind), ConfigField(kind));
    if kind.Volume? {
      OriginIsKept(SomeApi(), SomeRequest(kind));
    }
  }

  lemma ParameterArrives(api: Api, req: Request, kind: Kind, order: seq<string>, key: string)
    requires Accepted(api, req, order) && RequestKind(req) == Some(kind) && Lawful(api, kind)
    requires ReadsBack(api.json, Kept(api, req), api.For(kind).createConfig, api.For(kind).createInput)
    requires key in Kept(api, req)
    ensures Arrives(api.For(kind), Delivered(api, kind, Flat(api, req, order)), key, Kept(api, req)[key])
  {
    KeptParametersArrive(api, req, order);
  }

  /** Every assumption of the results about creation and deletion is met by one request of each kind. Its configuration
      arrives, for a restored volume with the snapshot in it, and its option, an escaped text, comes back. */
  lemma AssumptionsHoldTogether(kind: Kind)
    returns (api: Api, req: Request, order: seq<string>, id: string, listed: seq<Tag>)
    ensures Accepted(api, req, order) && RequestKind(req) == Some(kind) && Lawful(api, kind) && DeleteLawful(api, kind)
    ensures kind.Volume? ==> req.source.FromSnapshot?
    ensures OwnTagsDecode(api, req, order)
    ensures ReadsBack(api.json, Kept(api, req), api.For(kind).createConfig, api.For(kind).createInput)
    ensures OptionsReadBack(api, kind, WithToken(api, req.name, UserParams(req.parameters)))
    ensures var sent := Delivered(api, kind, Flat(api, req, order));
            && (TAGS in sent && sent[TAGS].TagList? && forall t :: t in listed <==> t in sent[TAGS].tags)
            && Arrives(api.For(kind), sent, ConfigField(kind), if kind.FileSystem? then "true" else "arn")
    ensures KindOfId(id) == Some(kind) && ReadTags(api, id, listed) == map[SKIP_FINAL_BACKUP := OPTION_VALUE]
  {
    api, req, id := SomeApi(), SomeRequest(kind), SomeId(kind);
    order := SomeOrder(WithToken(api, "v", User(kind)).Keys);
    UserIsLeft(kind);
    RequestParts(kind);
    SomeRequestIsAccepted(kind, order);
    SomeUserIsAccepted(kind, order);
    ApiIsLawful(kind);
    DeleteFields(kind);
    SomeIdIsAddressable(kind);
    GivenOptions(api, kind);
    OptionIsPreserved();
    TagsAreRead(AllTags(api, req, order), kind);
    CreateConfigReadsBack(kind, Kept(api, req));
    DeleteConfigReadsBack(kind, ConfigOptions(api, kind, WithToken(api, "v", User(kind))));
    SomeConfigIsKept(kind);
    ParameterArrives(api, req, kind, order, ConfigField(kind));
    listed := SomeListing(api, req, order);
    DeletionHonoursCreation(api, req, order, id, listed);
  }
}
