/** Moving deletion options into tags when a volume is created, and adding the driver's own tag. */
module DeleteTags {
  import opened Strings
  import opened Parameters
  import opened Iteration
  import Codec = DeletionTagCodec

  const DELETION_SUFFIX := "OnDeletion"
  const TAGS := "Tags"
  const SKIP_FINAL_BACKUP := "SkipFinalBackup"
  const CLUSTER_TAG: TagObject := map["Key" := "fsx.openzfs.csi.aws.com/cluster", "Value" := "true"]

  datatype Kind = FileSystem | Volume

  /** The API objects of one resource kind, and the service's own check of a delete request. */
  datatype Schemas = Schemas(
    createInput: Schema, createConfig: Schema,
    deleteInput: Schema, deleteConfig: Schema,
    validDelete: Record -> bool)

  /** A text read as a map of strings; the JSON value `null` is no error, but leaves no map behind. */
  datatype StringMap = StringMap(strings: map<string, string>) | Null | NotStrings

  /** What the driver builds on: the JSON library, Go's quoting and number formatting, and the service's API objects. */
  datatype Api = Api(
    json: Json, quote: string -> string, itoa: int -> string,
    parseStrings: string -> StringMap, renderStrings: map<string, string> -> string,
    fileSystem: Schemas, volume: Schemas)
  {
    function For(kind: Kind): Schemas {
      if kind.FileSystem? then fileSystem else volume
    }
  }

  function IdField(kind: Kind): string {
    if kind.FileSystem? then "FileSystemId" else "VolumeId"
  }

  function PlaceholderId(kind: Kind): string {
    if kind.FileSystem? then "fs-1234567890abc" else "fsvol-1234567890abcdefghijm"
  }

  datatype TagError = BadTags | SkipFinalBackupRequired | BadDeleteParameters(error: Error) | RejectedByService

  // ---------- What the tags are ----------

  function DeletionKeys(params: Params): set<string> {
    set k | k in params && HasSuffix(k, DELETION_SUFFIX)
  }

  /** The deletion options under their API names, from the keys of `keys`. */
  ghost function DeleteParametersOf(params: Params, keys: set<string>): (d: Params)
    ensures forall k :: k in d <==> k + DELETION_SUFFIX in params && k + DELETION_SUFFIX in keys
    ensures forall k | k in d :: d[k] == params[k + DELETION_SUFFIX]
  {
    var trimmed := set k | k in params && k in keys && HasSuffix(k, DELETION_SUFFIX) :: TrimSuffix(k, DELETION_SUFFIX);
    assert forall k :: k in trimmed <==> k + DELETION_SUFFIX in params && k + DELETION_SUFFIX in keys by {
      forall k ensures k in trimmed <==> k + DELETION_SUFFIX in params && k + DELETION_SUFFIX in keys {
        TrimSuffixOfConcat(k, DELETION_SUFFIX);
        if k in trimmed {
          var full :| full in params && full in keys && HasSuffix(full, DELETION_SUFFIX) &&
            TrimSuffix(full, DELETION_SUFFIX) == k;
          TrimSuffixRestores(full, DELETION_SUFFIX);
        }
      }
    }
    map k | k in trimmed :: params[k + DELETION_SUFFIX]
  }

  ghost function DeleteParameters(params: Params): Params {
    DeleteParametersOf(params, params.Keys)
  }

  /** A value as it goes into a tag: escaped if it holds one of four JSON characters, as it is otherwise. */
  function TagValue(value: string): string {
    if ContainsAny(value, "[],\"") then Codec.EncodeDeletionTag(value) else value
  }

  /** The values that a tag gives back unchanged. */
  predicate Preserved(value: string) {
    if ContainsAny(value, "[],\"") then Codec.Unambiguous(value) else Codec.TokenFree(value)
  }

  lemma TagValueRoundTrip(value: string)
    ensures Codec.DecodeDeletionTag(TagValue(value)) == value <==> Preserved(value)
    ensures Codec.Unambiguous(value) ==> Preserved(value)
  {
    Codec.CodecRoundTrip(value);
    Codec.DecodeUnencoded(value);
    Codec.UnambiguousIsTokenFree(value);
  }

  /** A stored value has none of the six JSON characters exactly if the guard saw one of its four, and so escaped all,
      or there is no brace either. */
  lemma TagValueAlphabet(value: string)
    ensures (forall i | 0 <= i < |TagValue(value)| :: Codec.Rank(TagValue(value)[i]) == 6)
      <==> ContainsAny(value, "[],\"") || !ContainsAny(value, "{}")
  {
    if ContainsAny(value, "[],\"") {
      Codec.EncodedAlphabetAndLength(value);
    } else {
      forall i | 0 <= i < |value| ensures Codec.Rank(TagValue(value)[i]) == 6 <==> value[i] !in "{}" {
        assert value[i] !in "[],\"";
        RankByText(value[i]);
      }
      assert ContainsAny(value, "{}") ==> exists i :: 0 <= i < |TagValue(value)| && Codec.Rank(TagValue(value)[i]) != 6;
    }
  }

  lemma RankByText(c: char)
    ensures Codec.Rank(c) == 6 <==> c !in "[],\"" && c !in "{}"
  {
    assert "[],\"" == ['[', ']', ',', '"'] && "{}" == ['{', '}'];
  }

  /** An empty JSON object goes into its tag as it is. */
  lemma BracesAreStored()
    ensures TagValue("{}") == "{}" && Codec.Rank(TagValue("{}")[0]) != 6 && Codec.Rank(TagValue("{}")[1]) != 6
  {
    RankByText('{');
    RankByText('}');
  }

  function DeletionTag(key: string, value: string): TagObject {
    map["Key" := key, "Value" := TagValue(value)]
  }

  /** What one key contributes to the tags. */
  function TagsOf(key: string, params: Params): seq<TagObject> {
    if key in params && HasSuffix(key, DELETION_SUFFIX) then [DeletionTag(key, params[key])] else []
  }

  /** The tags a loop adds when it meets the keys in the given order. */
  function DeletionTags(order: seq<string>, params: Params): seq<TagObject> {
    Collect(order, k => TagsOf(k, params))
  }

  /** The tags in the parameters; none if there is no text. */
  function ExistingTags(json: Json, params: Params): Option<seq<TagObject>> {
    if TAGS !in params || params[TAGS] == "" then Some([]) else json.parseTags(params[TAGS])
  }

  /** Whether the deletion options make a delete request the service would take. */
  ghost predicate DeleteAccepted(api: Api, kind: Kind, options: Params) {
    var s := api.For(kind);
    var request := options[IdField(kind) := api.quote(PlaceholderId(kind))];
    var nested := Collapsed(api.json, OPEN_ZFS_CONFIGURATION, request, s.deleteConfig);
    && (kind.FileSystem? ==> SKIP_FINAL_BACKUP in options)
    && Collapsible(api.json, request, s.deleteConfig)
    && StrictlyAccepted(api.json, nested, s.deleteInput)
    && s.validDelete(Populated(nested, s.deleteInput))
  }

  /** The same without naming the steps. The options with the identifier's placeholder are the request; its
      configuration's fields go into one object, and the object and the rest have to fill the delete input exactly. */
  lemma DeleteAcceptedMeans(api: Api, kind: Kind, options: Params)
    ensures
      var s := api.For(kind);
      var request := if kind.FileSystem? then options["FileSystemId" := api.quote("fs-1234567890abc")]
                     else options["VolumeId" := api.quote("fsvol-1234567890abcdefghijm")];
      var text := api.json.renderObject(Populated(request, s.deleteConfig));
      DeleteAccepted(api, kind, options) <==>
        && (kind.FileSystem? ==> "SkipFinalBackup" in options)
        && (forall k | k in request ::
              api.json.wellFormed(request[k])
              && (k in s.deleteConfig.names ==> s.deleteConfig.decode(k, request[k]).Some?))
        && (forall k | k in request && k !in s.deleteConfig.names && k != "OpenZFSConfiguration" ::
              k in s.deleteInput.names && s.deleteInput.decode(k, request[k]).Some?)
        && api.json.wellFormed(text)
        && "OpenZFSConfiguration" in s.deleteInput.names && s.deleteInput.decode("OpenZFSConfiguration", text).Some?
        && s.validDelete(Populated((request - s.deleteConfig.Fields())["OpenZFSConfiguration" := text], s.deleteInput))
  {
    var s := api.For(kind);
    var request := options[IdField(kind) := api.quote(PlaceholderId(kind))];
    var nested := Collapsed(api.json, OPEN_ZFS_CONFIGURATION, request, s.deleteConfig);
    NestedAccepted(api.json, nested, request, s.deleteConfig, s.deleteInput);
  }

  lemma NestedAccepted(json: Json, nested: Params, request: Params, config: Schema, input: Schema)
    requires nested == Collapsed(json, OPEN_ZFS_CONFIGURATION, request, config)
    ensures var text := json.renderObject(Populated(request, config));
            Collapsible(json, request, config) && StrictlyAccepted(json, nested, input) <==>
              && (forall k | k in request ::
                    json.wellFormed(request[k]) && (k in config.names ==> config.decode(k, request[k]).Some?))
              && (forall k | k in request && k !in config.names && k != OPEN_ZFS_CONFIGURATION ::
                    k in input.names && input.decode(k, request[k]).Some?)
              && json.wellFormed(text)
              && OPEN_ZFS_CONFIGURATION in input.names && input.decode(OPEN_ZFS_CONFIGURATION, text).Some?
  {
    NestedEntries(json, request, config);
  }

  /** The parameters with the deletion options turned into tags. */
  function WithDeleteTags(json: Json, order: seq<string>, params: Params): Params {
    var existing := ExistingTags(json, params);
    if existing.None? then params
    else (params - DeletionKeys(params))[TAGS := json.renderTags(existing.value + DeletionTags(order, params))]
  }

  /** The parameters with the driver's own tag added last. */
  function WithClusterTag(json: Json, params: Params): Params {
    var existing := ExistingTags(json, params);
    if existing.None? then params else params[TAGS := json.renderTags(existing.value + [CLUSTER_TAG])]
  }

  // ---------- The operations ----------

  method AppendDeleteTags(api: Api, parameters: ParameterMap, kind: Kind)
    returns (err: Option<TagError>, ghost order: seq<string>)
    modifies parameters
    ensures err.None? <==>
      ExistingTags(api.json, old(parameters.entries)).Some? &&
        DeleteAccepted(api, kind, DeleteParameters(old(parameters.entries)))
    ensures IsOrderOf(order, old(parameters.entries).Keys)
    ensures err.None? ==> parameters.entries == WithDeleteTags(api.json, order, old(parameters.entries))
    ensures err == Some(BadTags) ==> parameters.entries == old(parameters.entries)
    ensures err == Some(BadTags) <==> ExistingTags(api.json, old(parameters.entries)).None?
    ensures err.Some? && err.value != BadTags ==>
      parameters.entries == old(parameters.entries) - DeletionKeys(old(parameters.entries))
    ensures err == Some(BadTags) <==>
      && "Tags" in old(parameters.entries) && old(parameters.entries)["Tags"] != ""
      && api.json.parseTags(old(parameters.entries)["Tags"]).None?
    ensures err == Some(SkipFinalBackupRequired) <==>
      err != Some(BadTags) && kind.FileSystem? && "SkipFinalBackupOnDeletion" !in old(parameters.entries)
    ensures err.None? ==>
      && (forall k | k != "Tags" ::
            k in parameters.entries <==> k in old(parameters.entries) && !HasSuffix(k, "OnDeletion"))
      && (forall k | k in parameters.entries && k != "Tags" :: parameters.entries[k] == old(parameters.entries)[k])
      && "Tags" in parameters.entries
  {
    SkipFinalBackupOption(parameters.entries);
    var before := parameters.entries;
    var deleteParameters := new ParameterMap(map[]);
    var existing := ExistingTags(api.json, before);
    if existing.None? {
      order := SomeOrder(before.Keys);
      return Some(BadTags), order;
    }
    var existingTags := existing.value;
    existingTags, order := MoveDeletionOptions(parameters, deleteParameters, existingTags);
    assert DeleteParameters(before) == DeleteParametersOf(before, before.Keys);
    err := ValidateDelete(api, kind, deleteParameters);
    if err.Some? {
      return;
    }
    parameters.entries := parameters.entries[TAGS := api.json.renderTags(existingTags)];
  }

  /** The loop over the parameters, in whatever order the map yields its keys. */
  method MoveDeletionOptions(parameters: ParameterMap, deleteParameters: ParameterMap, existing: seq<TagObject>)
    returns (tags: seq<TagObject>, ghost order: seq<string>)
    requires parameters != deleteParameters && deleteParameters.entries == map[]
    modifies parameters, deleteParameters
    ensures IsOrderOf(order, old(parameters.entries).Keys)
    ensures tags == existing + DeletionTags(order, old(parameters.entries))
    ensures parameters.entries == old(parameters.entries) - DeletionKeys(old(parameters.entries))
    ensures deleteParameters.entries == DeleteParameters(old(parameters.entries))
    ensures forall k :: k in parameters.entries <==> k in old(parameters.entries) && !HasSuffix(k, "OnDeletion")
    ensures forall o :: o in deleteParameters.entries <==> o + "OnDeletion" in old(parameters.entries)
    ensures forall o | o in deleteParameters.entries ::
      deleteParameters.entries[o] == old(parameters.entries)[o + "OnDeletion"]
  {
    var before := parameters.entries;
    tags := existing;
    order := [];
    var todo := before.Keys;
    ghost var visited := {};
    while todo != {}
      invariant todo == before.Keys - visited && visited <= before.Keys
      invariant IsOrderOf(order, visited)
      invariant tags == existing + DeletionTags(order, before)
      invariant parameters.entries == before - (DeletionKeys(before) * visited)
      invariant deleteParameters.entries == DeleteParametersOf(before, visited)
    {
      var key :| key in todo;
      VisitNext(order, visited, key, k => TagsOf(k, before));
      VisitedRemoved(before, visited, key);
      var value := before[key];
      if HasSuffix(key, DELETION_SUFFIX) {
        VisitDeletionKey(before, visited, key);
        deleteParameters.entries := deleteParameters.entries[TrimSuffix(key, DELETION_SUFFIX) := value];
        tags := tags + [DeletionTag(key, value)];
        parameters.entries := parameters.entries - {key};
      } else {
        VisitOtherKey(before, visited, key);
      }
      order := order + [key];
      visited := visited + {key};
      todo := todo - {key};
    }
    assert visited == before.Keys;
  }

  lemma OptionIn(params: Params, option: string)
    ensures option in DeleteParameters(params) <==> option + DELETION_SUFFIX in params
  {
  }

  lemma SkipFinalBackupOption(params: Params)
    ensures "SkipFinalBackup" in DeleteParameters(params) <==> "SkipFinalBackupOnDeletion" in params
  {
    OptionIn(params, "SkipFinalBackup");
    OptionName();
  }

  lemma OptionName()
    ensures "SkipFinalBackup" + DELETION_SUFFIX == "SkipFinalBackupOnDeletion"
  {
  }

  /** One option name, and only one, stands behind a deletion key. */
  lemma SoleOption(key: string)
    requires HasSuffix(key, DELETION_SUFFIX)
    ensures forall k :: k + DELETION_SUFFIX == key <==> k == TrimSuffix(key, DELETION_SUFFIX)
  {
    TrimSuffixRestores(key, DELETION_SUFFIX);
    forall k | k + DELETION_SUFFIX == key ensures k == TrimSuffix(key, DELETION_SUFFIX) {
      TrimSuffixOfConcat(k, DELETION_SUFFIX);
    }
  }

  /** How a deletion option changes what the loop has collected. */
  lemma VisitDeletionKey(params: Params, visited: set<string>, key: string)
    requires key in params && HasSuffix(key, DELETION_SUFFIX)
    ensures DeleteParametersOf(params, visited + {key})
      == DeleteParametersOf(params, visited)[TrimSuffix(key, DELETION_SUFFIX) := params[key]]
  {
    SoleOption(key);
    var before, after := DeleteParametersOf(params, visited), DeleteParametersOf(params, visited + {key});
    var option := TrimSuffix(key, DELETION_SUFFIX);
    assert forall k :: k in after <==> k in before || k == option;
  }

  lemma VisitedRemoved(params: Params, visited: set<string>, key: string)
    ensures params - (DeletionKeys(params) * (visited + {key}))
      == params - (DeletionKeys(params) * visited) - (if key in DeletionKeys(params) then {key} else {})
  {
  }

  lemma VisitOtherKey(params: Params, visited: set<string>, key: string)
    requires !HasSuffix(key, DELETION_SUFFIX)
    ensures DeleteParametersOf(params, visited + {key}) == DeleteParametersOf(params, visited)
  {
    forall k ensures k + DELETION_SUFFIX != key {
      TrimSuffixOfConcat(k, DELETION_SUFFIX);
    }
  }

  /** Builds the delete request that the options amount to, and has it checked. */
  method ValidateDelete(api: Api, kind: Kind, deleteParameters: ParameterMap) returns (err: Option<TagError>)
    modifies deleteParameters
    ensures err.None? <==> DeleteAccepted(api, kind, old(deleteParameters.entries))
    ensures err != Some(BadTags)
    ensures err == Some(SkipFinalBackupRequired) <==>
      kind.FileSystem? && "SkipFinalBackup" !in old(deleteParameters.entries)
  {
    var s := api.For(kind);
    if kind.FileSystem? && SKIP_FINAL_BACKUP !in deleteParameters.entries {
      return Some(SkipFinalBackupRequired);
    }
    deleteParameters.entries := deleteParameters.entries[IdField(kind) := api.quote(PlaceholderId(kind))];
    var collapseErr := ReplaceParametersAndPopulateObject(api.json, OPEN_ZFS_CONFIGURATION, deleteParameters,
                                                          s.deleteConfig);
    if collapseErr.Some? {
      return Some(BadDeleteParameters(collapseErr.value));
    }
    var config, populateErr := StrictRemoveParametersAndPopulateObject(api.json, deleteParameters, s.deleteInput);
    if populateErr.Some? {
      return Some(BadDeleteParameters(populateErr.value));
    }
    if !s.validDelete(config) {
      return Some(RejectedByService);
    }
    return None;
  }

  method AppendCustomTags(json: Json, parameters: ParameterMap) returns (ok: bool)
    modifies parameters
    ensures ok <==> ExistingTags(json, old(parameters.entries)).Some?
    ensures parameters.entries == WithClusterTag(json, old(parameters.entries))
  {
    var existing := ExistingTags(json, parameters.entries);
    if existing.None? {
      return false;
    }
    parameters.entries := parameters.entries[TAGS := json.renderTags(existing.value + [CLUSTER_TAG])];
    return true;
  }

  /** The new tags one by one: one for each deletion option that the order meets, with its full name and its text. */
  lemma {:induction false} TagsByKey(order: seq<string>, params: Params) returns (keys: seq<string>)
    requires forall i, j | 0 <= i < j < |order| :: order[i] != order[j]
    ensures forall k :: k in keys <==> k in order && k in params && HasSuffix(k, "OnDeletion")
    ensures forall i, j | 0 <= i < j < |keys| :: keys[i] != keys[j]
    ensures |DeletionTags(order, params)| == |keys|
    ensures forall i | 0 <= i < |keys| ::
      keys[i] in params && DeletionTags(order, params)[i] == map["Key" := keys[i], "Value" := TagValue(params[keys[i]])]
  {
    if order == [] {
      keys := [];
    } else {
      var n := |order| - 1;
      keys := TagsByKey(order[..n], params);
      assert order == order[..n] + [order[n]];
      if order[n] in params && HasSuffix(order[n], DELETION_SUFFIX) {
        keys := keys + [order[n]];
      }
    }
  }

  // ---------- Order of iteration ----------

  /** Any two orders of iteration yield the same tags, in some arrangement. */
  lemma TagsArePermutations(o1: seq<string>, o2: seq<string>, params: Params)
    requires IsOrderOf(o1, params.Keys) && IsOrderOf(o2, params.Keys)
    ensures multiset(DeletionTags(o1, params)) == multiset(DeletionTags(o2, params))
  {
    OrdersArePermutations(o1, o2, params.Keys, k => TagsOf(k, params));
  }

  /** The tags do not depend on the order of iteration exactly when there is at most one deletion option. */
  lemma TagsIndependentOfOrder(params: Params)
    ensures (forall o1, o2 | IsOrderOf(o1, params.Keys) && IsOrderOf(o2, params.Keys) ::
               DeletionTags(o1, params) == DeletionTags(o2, params))
      <==> |DeletionKeys(params)| <= 1
  {
    var keys := DeletionKeys(params);
    var items := k => TagsOf(k, params);
    if k1, k2 :| k1 in keys && k2 in keys && k1 != k2 {
      var o1, o2 := TwoContributors(params.Keys, items, k1, k2);
      assert DeletionTags(o1, params)[0]["Key"] == k1;
      assert DeletionTags(o2, params)[0]["Key"] == k2;
      CardinalityOfSubset({k1, k2}, keys);
    } else {
      if keys != {} {
        var k :| k in keys;
        assert keys == {k};
      }
      forall o1, o2 | IsOrderOf(o1, params.Keys) && IsOrderOf(o2, params.Keys)
        ensures DeletionTags(o1, params) == DeletionTags(o2, params)
      {
        AtMostOneOption(o1, o2, params);
      }
    }
  }

  lemma AtMostOneOption(o1: seq<string>, o2: seq<string>, params: Params)
    requires IsOrderOf(o1, params.Keys) && IsOrderOf(o2, params.Keys)
    requires forall a, b | a in DeletionKeys(params) && b in DeletionKeys(params) :: a == b
    ensures DeletionTags(o1, params) == DeletionTags(o2, params)
  {
    var items := k => TagsOf(k, params);
    if k :| k in DeletionKeys(params) {
      assert forall x | x in params.Keys && x != k :: x !in DeletionKeys(params);
      SoleContributor(o1, params.Keys, items, k);
      SoleContributor(o2, params.Keys, items, k);
    } else {
      assert forall x | x in params.Keys :: x !in DeletionKeys(params);
      CollectNothing(o1, items);
      CollectNothing(o2, items);
    }
  }

  lemma CardinalityOfSubset<T>(a: set<T>, b: set<T>)
    requires a <= b
    ensures |a| <= |b|
  {
    assert b == a + (b - a);
  }
}
