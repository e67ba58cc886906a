/** Deleting a volume: reading the deletion options back from its tags, and the request they make. */
module DeleteVolume {
  import opened Strings
  import opened Parameters
  import opened DeleteTags
  import opened Iteration
  import opened CreateVolume
  import opened CreateGuarantees
  import Codec = DeletionTagCodec
  import InFlight

  /** The resource kind that an identifier's prefix names, if any. */
  function KindOfId(id: string): Option<Kind> {
    var prefix := BeforeFirst(id, '-');
    if prefix == "fs" then Some(FileSystem) else if prefix == "fsvol" then Some(Volume) else None
  }

  // ---------- Reading the options back ----------

  /** Whether an option read from a tag is one that the resource's delete configuration understands. */
  predicate Understood(api: Api, id: string, option: string, value: string) {
    KindOfId(id).Some? ==> StrictlyAccepted(api.json, map[option := value], api.For(KindOfId(id).value).deleteConfig)
  }

  /** Whether the tag holds the given option. */
  predicate Carries(tag: Tag, option: string) {
    tag.key == Some(option + DELETION_SUFFIX) && tag.value.Some?
  }

  /** What one tag adds to the options read so far. */
  function ReadTag(api: Api, id: string, options: Params, tag: Tag): Params {
    if tag.key.None? || tag.value.None? || !HasSuffix(tag.key.value, DELETION_SUFFIX) then options else
      var option := TrimSuffix(tag.key.value, DELETION_SUFFIX);
      var value := Codec.DecodeDeletionTag(tag.value.value);
      if Understood(api, id, option, value) then options[option := value] else options
  }

  function ReadTags(api: Api, id: string, tags: seq<Tag>): Params {
    if tags == [] then map[]
    else ReadTag(api, id, ReadTags(api, id, tags[..|tags| - 1]), tags[|tags| - 1])
  }

  /** The configuration understands the option on its own. */
  lemma UnderstoodMeans(api: Api, id: string, option: string, value: string)
    ensures Understood(api, id, option, value) <==>
      && (BeforeFirst(id, '-') == "fs" ==>
            api.json.wellFormed(value)
            && option in api.fileSystem.deleteConfig.names && api.fileSystem.deleteConfig.decode(option, value).Some?)
      && (BeforeFirst(id, '-') == "fsvol" ==>
            api.json.wellFormed(value)
            && option in api.volume.deleteConfig.names && api.volume.deleteConfig.decode(option, value).Some?)
  {
    assert "fs" != "fsvol";
    assert map[option := value][option] == value;
  }

  /** What is read comes from some tag, and every tag that is understood is read. */
  lemma {:induction false} ReadTagsMeans(api: Api, id: string, tags: seq<Tag>)
    ensures forall o | o in ReadTags(api, id, tags) :: exists t ::
      && t in tags && t.key == Some(o + "OnDeletion") && t.value.Some?
      && ReadTags(api, id, tags)[o] == Codec.DecodeDeletionTag(t.value.value)
      && Understood(api, id, o, Codec.DecodeDeletionTag(t.value.value))
    ensures forall t, o: string |
      t in tags && t.key == Some(o + "OnDeletion") && t.value.Some?
      && Understood(api, id, o, Codec.DecodeDeletionTag(t.value.value)) ::
      o in ReadTags(api, id, tags)
  {
    if tags != [] {
      var n := |tags| - 1;
      ReadTagsMeans(api, id, tags[..n]);
      assert tags == tags[..n] + [tags[n]];
      forall o: string ensures Carries(tags[n], o) <==>
        && tags[n].key.Some? && tags[n].value.Some?
        && HasSuffix(tags[n].key.value, DELETION_SUFFIX) && TrimSuffix(tags[n].key.value, DELETION_SUFFIX) == o
      {
        CarriedOption(tags[n], o);
      }
      forall o | o in ReadTags(api, id, tags)
        ensures exists t ::
          && t in tags && t.key == Some(o + "OnDeletion") && t.value.Some?
          && ReadTags(api, id, tags)[o] == Codec.DecodeDeletionTag(t.value.value)
          && Understood(api, id, o, Codec.DecodeDeletionTag(t.value.value))
      {
        if Carries(tags[n], o) && Understood(api, id, o, Codec.DecodeDeletionTag(tags[n].value.value)) {
          assert tags[n] in tags;
        }
      }
    }
  }

  /** Of several tags that carry one option and are understood, the last one counts. */
  lemma {:induction false} LastTagCounts(api: Api, id: string, tags: seq<Tag>, i: nat, option: string)
    requires i < |tags| && tags[i].key == Some(option + "OnDeletion") && tags[i].value.Some?
    requires Understood(api, id, option, Codec.DecodeDeletionTag(tags[i].value.value))
    requires forall j | i < j < |tags| && tags[j].key == Some(option + "OnDeletion") && tags[j].value.Some? ::
      !Understood(api, id, option, Codec.DecodeDeletionTag(tags[j].value.value))
    ensures option in ReadTags(api, id, tags)
      && ReadTags(api, id, tags)[option] == Codec.DecodeDeletionTag(tags[i].value.value)
  {
    var n := |tags| - 1;
    CarriedOption(tags[n], option);
    if i < n {
      LastTagCounts(api, id, tags[..n], i, option);
    }
  }

  method GetDeleteParameters(api: Api, id: string, tags: seq<Tag>) returns (parameters: Params)
    ensures parameters == ReadTags(api, id, tags)
    ensures forall o | o in parameters :: exists t ::
      && t in tags && t.key == Some(o + "OnDeletion") && t.value.Some?
      && parameters[o] == Codec.DecodeDeletionTag(t.value.value)
      && Understood(api, id, o, Codec.DecodeDeletionTag(t.value.value))
    ensures forall t, o: string |
      t in tags && t.key == Some(o + "OnDeletion") && t.value.Some?
      && Understood(api, id, o, Codec.DecodeDeletionTag(t.value.value)) ::
      o in parameters
  {
    ReadTagsMeans(api, id, tags);
    parameters := map[];
    var kind := KindOfId(id);
    for i := 0 to |tags|
      invariant parameters == ReadTags(api, id, tags[..i])
    {
      assert tags[..i + 1][..i] == tags[..i];
      var tag := tags[i];
      if tag.key.None? || tag.value.None? {
        continue;
      }
      if HasSuffix(tag.key.value, DELETION_SUFFIX) {
        var deleteKey := TrimSuffix(tag.key.value, DELETION_SUFFIX);
        var deleteValue := Codec.DecodeDeletionTag(tag.value.value);
        var deleteMap := new ParameterMap(map[deleteKey := deleteValue]);
        var err: Option<Error> := None;
        if kind.Some? {
          var record;
          record, err := StrictRemoveParametersAndPopulateObject(api.json, deleteMap, api.For(kind.value).deleteConfig);
        }
        if err.Some? {
          continue;
        }
        parameters := parameters[deleteKey := deleteValue];
      }
    }
    assert tags[..|tags|] == tags;
  }

  // ---------- What comes out, whatever order the tags are listed in ----------

  /** No two different tags in the list hold the same option. */
  ghost predicate OneTagPerOption(tags: seq<Tag>) {
    forall s, t, option: string | s in tags && t in tags && Carries(s, option) && Carries(t, option) :: s == t
  }

  lemma CarriedOption(tag: Tag, option: string)
    ensures Carries(tag, option) <==>
      && tag.key.Some? && tag.value.Some?
      && HasSuffix(tag.key.value, DELETION_SUFFIX) && TrimSuffix(tag.key.value, DELETION_SUFFIX) == option
  {
    TrimSuffixOfConcat(option, DELETION_SUFFIX);
    if tag.key.Some? && HasSuffix(tag.key.value, DELETION_SUFFIX) {
      TrimSuffixRestores(tag.key.value, DELETION_SUFFIX);
    }
  }

  /** An option is read exactly when some tag carries it and the delete configuration understands its value. */
  lemma {:induction false} ReadOption(api: Api, id: string, tags: seq<Tag>, option: string)
    requires OneTagPerOption(tags)
    ensures option in ReadTags(api, id, tags) <==>
      exists t :: t in tags && Carries(t, option) && Understood(api, id, option, Codec.DecodeDeletionTag(t.value.value))
    ensures forall t | t in tags && Carries(t, option) && option in ReadTags(api, id, tags) ::
      ReadTags(api, id, tags)[option] == Codec.DecodeDeletionTag(t.value.value)
  {
    if tags != [] {
      var n := |tags| - 1;
      assert forall t | t in tags[..n] :: t in tags;
      ReadOption(api, id, tags[..n], option);
      CarriedOption(tags[n], option);
      assert tags == tags[..n] + [tags[n]];
    }
  }

  // ---------- The options that were given are the options that are read ----------

  /** The user gave no tag that looks like a deletion option. */
  predicate NoOptionTags(tags: seq<TagObject>) {
    forall t | t in tags :: "Key" in t ==> !HasSuffix(t["Key"], DELETION_SUFFIX)
  }

  /** The list the service returns holds the stored tags, in any order. */
  ghost predicate Lists(listed: seq<Tag>, tags: seq<TagObject>) {
    forall t :: t in listed <==> t in StoredAll(tags)
  }

  function OptionTag(params: Params, option: string): Tag
    requires option + DELETION_SUFFIX in params
  {
    Tag(Some(option + DELETION_SUFFIX), Some(TagValue(params[option + DELETION_SUFFIX])))
  }

  lemma StoredMembers(tags: seq<TagObject>, t: Tag)
    ensures t in StoredAll(tags) <==> exists o :: o in tags && Stored(o) == t
  {
    if o :| o in tags && Stored(o) == t {
      var i :| 0 <= i < |tags| && tags[i] == o;
      assert StoredAll(tags)[i] == t;
    }
  }

  lemma DeletionTagMembers(params: Params, order: seq<string>, o: TagObject)
    requires IsOrderOf(order, params.Keys)
    ensures o in DeletionTags(order, params) <==>
      exists k :: k in DeletionKeys(params) && o == DeletionTag(k, params[k])
  {
    var items := k => TagsOf(k, params);
    CollectedItems(order, items, o);
    if k :| k in DeletionKeys(params) && o == DeletionTag(k, params[k]) {
      assert k in order && o in items(k);
    }
  }

  /** A new resource has one tag for each option given, and no other tag that looks like an option. */
  lemma OptionTags(params: Params, order: seq<string>, existing: seq<TagObject>, option: string, t: Tag)
    requires IsOrderOf(order, params.Keys) && NoOptionTags(existing)
    ensures t in StoredAll(existing + DeletionTags(order, params) + [CLUSTER_TAG]) && Carries(t, option)
      <==> option in DeleteParameters(params) && t == OptionTag(params, option)
  {
    var all := existing + DeletionTags(order, params) + [CLUSTER_TAG];
    StoredMembers(all, t);
    CarriedOption(t, option);
    if t in StoredAll(all) && Carries(t, option) {
      var o :| o in all && Stored(o) == t;
      EndsOtherwise(CLUSTER_TAG["Key"], 0);
      assert o in DeletionTags(order, params);
      DeletionTagMembers(params, order, o);
      var k :| k in DeletionKeys(params) && o == DeletionTag(k, params[k]);
      assert k == option + DELETION_SUFFIX;
    }
    if option in DeleteParameters(params) && t == OptionTag(params, option) {
      var k := option + DELETION_SUFFIX;
      TrimSuffixOfConcat(option, DELETION_SUFFIX);
      var o := DeletionTag(k, params[k]);
      assert k in DeletionKeys(params);
      DeletionTagMembers(params, order, o);
      assert o in all && Stored(o) == t;
    }
  }

  /** The options that belong in the delete configuration, as the user gave them. */
  ghost function ConfigOptions(api: Api, kind: Kind, params: Params): Params {
    map o | o in DeleteParameters(params) && o in api.For(kind).deleteConfig.Fields() :: DeleteParameters(params)[o]
  }

  /** The delete configuration is an object of its own, inside the delete request that carries the identifier. */
  ghost predicate DeleteLawful(api: Api, kind: Kind) {
    var s := api.For(kind);
    && s.deleteConfig.Fields() !! s.deleteInput.Fields()
    && IdField(kind) in s.deleteInput.Fields() && OPEN_ZFS_CONFIGURATION in s.deleteInput.Fields()
  }

  /** An option accepted at creation is understood at deletion as far as its value survives. */
  lemma AcceptedIsUnderstood(api: Api, kind: Kind, id: string, options: Params, o: string)
    requires KindOfId(id) == Some(kind) && DeleteLawful(api, kind) && DeleteAccepted(api, kind, options)
    requires o in options
    ensures Understood(api, id, o, options[o]) <==> o in api.For(kind).deleteConfig.Fields()
  {
    var request := options[IdField(kind) := api.quote(PlaceholderId(kind))];
    if o in api.For(kind).deleteConfig.Fields() {
      assert o in request && request[o] == options[o];
    }
  }

  /** One option on its own: what its tag yields when the resource is deleted. */
  lemma OptionRoundTrip(api: Api, kind: Kind, id: string, params: Params, order: seq<string>, existing: seq<TagObject>,
                        listed: seq<Tag>, o: string)
    requires KindOfId(id) == Some(kind) && DeleteLawful(api, kind) &&
      DeleteAccepted(api, kind, DeleteParameters(params))
    requires IsOrderOf(order, params.Keys) && NoOptionTags(existing)
    requires Lists(listed, existing + DeletionTags(order, params) + [CLUSTER_TAG])
    ensures ReadAsGiven(ReadTags(api, id, listed), ConfigOptions(api, kind, params), o)
  {
    var stored := existing + DeletionTags(order, params) + [CLUSTER_TAG];
    var read := ReadTags(api, id, listed);
    forall s, t, option: string | s in listed && t in listed && Carries(s, option) && Carries(t, option)
      ensures s == t {
      OptionTags(params, order, existing, option, s);
      OptionTags(params, order, existing, option, t);
    }
    ReadOption(api, id, listed, o);
    if o in read {
      var t :| t in listed && Carries(t, o) && Understood(api, id, o, Codec.DecodeDeletionTag(t.value.value));
      OptionTags(params, order, existing, o, t);
    }
    if o in ConfigOptions(api, kind, params) {
      var value := DeleteParameters(params)[o];
      var t := OptionTag(params, o);
      OptionTags(params, order, existing, o, t);
      TagValueRoundTrip(value);
      AcceptedIsUnderstood(api, kind, id, DeleteParameters(params), o);
      assert t in listed && Carries(t, o);
    }
  }

  /** The options read at deletion are those given at creation exactly when each value survives its tag. */
  lemma DeleteParametersRoundTrip(api: Api, kind: Kind, id: string, params: Params, order: seq<string>,
                                  existing: seq<TagObject>, listed: seq<Tag>)
    requires KindOfId(id) == Some(kind) && DeleteLawful(api, kind) &&
      DeleteAccepted(api, kind, DeleteParameters(params))
    requires IsOrderOf(order, params.Keys) && NoOptionTags(existing)
    requires Lists(listed, existing + DeletionTags(order, params) + [CLUSTER_TAG])
    ensures var given := ConfigOptions(api, kind, params);
            ReadTags(api, id, listed) == given <==> forall o | o in given :: Preserved(given[o])
  {
    forall o: string ensures ReadAsGiven(ReadTags(api, id, listed), ConfigOptions(api, kind, params), o) {
      OptionRoundTrip(api, kind, id, params, order, existing, listed, o);
    }
    AgreementMeansPreserved(ReadTags(api, id, listed), ConfigOptions(api, kind, params));
  }

  /** The option is read only if it was given, and comes back as it was exactly when its value survives. */
  predicate ReadAsGiven(read: Params, given: Params, o: string) {
    && (o in read ==> o in given)
    && (o in given ==> (o in read && read[o] == given[o] <==> Preserved(given[o])))
  }

  lemma AgreementMeansPreserved(read: Params, given: Params)
    requires forall o: string :: ReadAsGiven(read, given, o)
    ensures read == given <==> forall o | o in given :: Preserved(given[o])
  {
    assert forall o | o in given :: ReadAsGiven(read, given, o);
    if forall o | o in given :: Preserved(given[o]) {
      assert forall o :: o in read <==> o in given by {
        forall o ensures o in read <==> o in given {
          assert ReadAsGiven(read, given, o);
        }
      }
    }
  }

  // ---------- The delete request ----------

  /** What looking for the resource and its tags comes to, before anything is deleted. */
  datatype Listing = Listed(tags: seq<Tag>) | Gone | ListingFailed

  datatype Answer = Deleted | NotThere | Failed

  datatype Reply = Success | Error(code: Code)

  function DeleteFlat(api: Api, kind: Kind, id: string, options: Params): Params {
    options[IdField(kind) := api.quote(id)]
  }

  /** The API object for deleting the resource under the given options. */
  function DeleteObject(api: Api, kind: Kind, id: string, options: Params): Record {
    var s := api.For(kind);
    Populated(Collapsed(api.json, OPEN_ZFS_CONFIGURATION, DeleteFlat(api, kind, id, options), s.deleteConfig),
              s.deleteInput)
  }

  /** Whether the options make a request at all; unlike at creation, parameters left over are let through. */
  predicate DeleteSendable(api: Api, kind: Kind, id: string, options: Params) {
    var s := api.For(kind);
    var nested := Collapsed(api.json, OPEN_ZFS_CONFIGURATION, DeleteFlat(api, kind, id, options), s.deleteConfig);
    && Collapsible(api.json, DeleteFlat(api, kind, id, options), s.deleteConfig)
    && WellFormed(api.json, nested) && Decodable(nested, s.deleteInput)
  }

  lemma NestedSendable(json: Json, request: Params, config: Schema, input: Schema)
    ensures var nested := Collapsed(json, "OpenZFSConfiguration", request, config);
            var text := json.renderObject(Populated(request, config));
            Collapsible(json, request, config) && WellFormed(json, nested) && Decodable(nested, input) <==>
              && (forall k | k in request ::
                    json.wellFormed(request[k]) && (k in config.names ==> config.decode(k, request[k]).Some?))
              && (forall k | k in request && k !in config.names && k != "OpenZFSConfiguration" && k in input.names ::
                    input.decode(k, request[k]).Some?)
              && json.wellFormed(text)
              && ("OpenZFSConfiguration" in input.names ==> input.decode("OpenZFSConfiguration", text).Some?)
  {
    NestedEntries(json, request, config);
  }

  lemma NestedPopulates(json: Json, request: Params, config: Schema, input: Schema)
    requires var nested := Collapsed(json, "OpenZFSConfiguration", request, config);
             WellFormed(json, nested) && Decodable(nested, input)
    ensures var sent := Populated(Collapsed(json, "OpenZFSConfiguration", request, config), input);
            var text := json.renderObject(Populated(request, config));
            && (forall k :: k in sent <==>
                  k in input.names && (k == "OpenZFSConfiguration" || (k in request && k !in config.names)))
            && (forall k | k in sent ::
                  Some(sent[k]) == input.decode(k, if k == "OpenZFSConfiguration" then text else request[k]))
  {
    NestedEntries(json, request, config);
  }

  /** The delete object field by field: the identifier under its field, every option that the configuration does not
      take under its own, and the configuration as one object. */
  lemma DeleteObjectMeans(api: Api, kind: Kind, id: string, options: Params)
    ensures
      var s := api.For(kind);
      var request := options[if kind.FileSystem? then "FileSystemId" else "VolumeId" := api.quote(id)];
      var text := api.json.renderObject(Populated(request, s.deleteConfig));
      var sent := DeleteObject(api, kind, id, options);
      && (DeleteSendable(api, kind, id, options) <==>
            && (forall k | k in request ::
                  api.json.wellFormed(request[k])
                  && (k in s.deleteConfig.names ==> s.deleteConfig.decode(k, request[k]).Some?))
            && (forall k | k in request && k !in s.deleteConfig.names && k != "OpenZFSConfiguration"
                           && k in s.deleteInput.names :: s.deleteInput.decode(k, request[k]).Some?)
            && api.json.wellFormed(text)
            && ("OpenZFSConfiguration" in s.deleteInput.names ==>
                  s.deleteInput.decode("OpenZFSConfiguration", text).Some?))
      && (DeleteSendable(api, kind, id, options) ==>
            && (forall k :: k in sent <==>
                  k in s.deleteInput.names
                  && (k == "OpenZFSConfiguration" || (k in request && k !in s.deleteConfig.names)))
            && (forall k | k in sent ::
                  Some(sent[k]) == s.deleteInput.decode(k, if k == "OpenZFSConfiguration" then text else request[k])))
  {
    var s := api.For(kind);
    var request := options[if kind.FileSystem? then "FileSystemId" else "VolumeId" := api.quote(id)];
    assert request == DeleteFlat(api, kind, id, options);
    NestedSendable(api.json, request, s.deleteConfig, s.deleteInput);
    if DeleteSendable(api, kind, id, options) {
      NestedPopulates(api.json, request, s.deleteConfig, s.deleteInput);
    }
  }

  lemma IdIsSent(api: Api, id: string, options: Params)
    ensures DeleteSendable(api, FileSystem, id, options) && "FileSystemId" in api.fileSystem.deleteInput.names
            && "FileSystemId" !in api.fileSystem.deleteConfig.names ==>
      var sent := DeleteObject(api, FileSystem, id, options);
      && "FileSystemId" in sent
      && Some(sent["FileSystemId"]) == api.fileSystem.deleteInput.decode("FileSystemId", api.quote(id))
    ensures DeleteSendable(api, Volume, id, options) && "VolumeId" in api.volume.deleteInput.names
            && "VolumeId" !in api.volume.deleteConfig.names ==>
      var sent := DeleteObject(api, Volume, id, options);
      && "VolumeId" in sent
      && Some(sent["VolumeId"]) == api.volume.deleteInput.decode("VolumeId", api.quote(id))
  {
    DeleteObjectMeans(api, FileSystem, id, options);
    DeleteObjectMeans(api, Volume, id, options);
    assert |"FileSystemId"| == 12 && |"VolumeId"| == 8 && |"OpenZFSConfiguration"| == 20;
  }

  /** Deletes one resource. An identifier of neither kind is answered with success and nothing is sent for it. A
      resource that goes away before its tags are read is an error, one that goes away after that is a success. */
  method DeleteVolume(api: Api, inFlight: InFlight.InFlight, id: string, listing: Listing, answer: Answer)
    returns (reply: Reply, sent: Option<Record>)
    modifies inFlight
    ensures inFlight.Keys() == old(inFlight.Keys())
    ensures id == "" ==> reply == Error(InvalidArgument)
    ensures id != "" && id in old(inFlight.Keys()) ==> reply == Error(Aborted)
    ensures sent.Some? <==>
      && id != "" && id !in old(inFlight.Keys()) && listing.Listed? && KindOfId(id).Some?
      && DeleteSendable(api, KindOfId(id).value, id, ReadTags(api, id, listing.tags))
    ensures sent.Some? ==> sent == Some(DeleteObject(api, KindOfId(id).value, id, ReadTags(api, id, listing.tags)))
    ensures sent.Some? ==> (reply == Success <==> !answer.Failed?)
    ensures id != "" && id !in old(inFlight.Keys()) && listing.Gone? ==> reply == Error(Internal) && sent.None?
    ensures sent.None? ==>
      (reply == Success <==> id != "" && id !in old(inFlight.Keys()) && listing.Listed? && KindOfId(id).None?)
    ensures id != "" && id !in old(inFlight.Keys()) ==> reply in {Success, Error(Internal)}
    ensures sent.Some? ==> BeforeFirst(id, '-') == "fs" || BeforeFirst(id, '-') == "fsvol"
    ensures sent.Some? && BeforeFirst(id, '-') == "fs" && "FileSystemId" in api.fileSystem.deleteInput.names
            && "FileSystemId" !in api.fileSystem.deleteConfig.names ==>
      && "FileSystemId" in sent.value
      && Some(sent.value["FileSystemId"]) == api.fileSystem.deleteInput.decode("FileSystemId", api.quote(id))
    ensures sent.Some? && BeforeFirst(id, '-') == "fsvol" && "VolumeId" in api.volume.deleteInput.names
            && "VolumeId" !in api.volume.deleteConfig.names ==>
      && "VolumeId" in sent.value
      && Some(sent.value["VolumeId"]) == api.volume.deleteInput.decode("VolumeId", api.quote(id))
    ensures id != "" && id !in old(inFlight.Keys()) ==>
      (BeforeFirst(id, '-') == "fs" || BeforeFirst(id, '-') == "fsvol"
       || (sent.None? && (reply == Success <==> listing.Listed?)))
  {
    IdIsSent(api, id, if listing.Listed? then ReadTags(api, id, listing.tags) else map[]);
    if id == "" {
      return Error(InvalidArgument), None;
    }
    var ok := inFlight.Insert(id);
    if !ok {
      return Error(Aborted), None;
    }
    if !listing.Listed? {
      reply, sent := Error(Internal), None;
    } else {
      var deleteParams := GetDeleteParameters(api, id, listing.tags);
      var kind := KindOfId(id);
      if kind.None? {
        reply, sent := Success, None;
      } else {
        var parameters := new ParameterMap(deleteParams);
        parameters.entries := parameters.entries[IdField(kind.value) := api.quote(id)];
        sent := SendDelete(api, kind.value, parameters);
        reply := if sent.None? || answer.Failed? then Error(Internal) else Success;
      }
    }
    inFlight.Delete(id);
  }

  method SendDelete(api: Api, kind: Kind, parameters: ParameterMap) returns (sent: Option<Record>)
    modifies parameters
    ensures var s := api.For(kind);
            var nested := Collapsed(api.json, OPEN_ZFS_CONFIGURATION, old(parameters.entries), s.deleteConfig);
            sent == if Collapsible(api.json, old(parameters.entries), s.deleteConfig)
                       && WellFormed(api.json, nested) && Decodable(nested, s.deleteInput)
                    then Some(Populated(nested, s.deleteInput)) else None
  {
    var s := api.For(kind);
    var err := ReplaceParametersAndPopulateObject(api.json, OPEN_ZFS_CONFIGURATION, parameters, s.deleteConfig);
    if err.Some? {
      return None;
    }
    var input;
    input, err := RemoveParametersAndPopulateObject(api.json, parameters, s.deleteInput);
    sent := if err.Some? then None else Some(input);
  }

  // ---------- From creation to deletion ----------

  /** What the delete request says, when only understood options are in it. */
  lemma DeleteObjectIs(api: Api, kind: Kind, id: string, options: Params)
    requires DeleteLawful(api, kind) && options.Keys <= api.For(kind).deleteConfig.Fields()
    requires Collapsible(api.json, options, api.For(kind).deleteConfig)
    requires ReadsBack(api.json, options, api.For(kind).deleteConfig, api.For(kind).deleteInput)
    requires api.json.wellFormed(api.quote(id)) && api.For(kind).deleteInput.decode(IdField(kind), api.quote(id)).Some?
    ensures DeleteSendable(api, kind, id, options)
    ensures DeleteObject(api, kind, id, options)
      == map[IdField(kind) := api.For(kind).deleteInput.decode(IdField(kind), api.quote(id)).value,
             OPEN_ZFS_CONFIGURATION := Nested(Populated(options, api.For(kind).deleteConfig))]
  {
    NestedDelete(api, kind, id, options);
  }

  lemma NestedDelete(api: Api, kind: Kind, id: string, options: Params)
    requires DeleteLawful(api, kind) && options.Keys <= api.For(kind).deleteConfig.Fields()
    ensures var s := api.For(kind);
            var config := Populated(options, s.deleteConfig);
            && Populated(DeleteFlat(api, kind, id, options), s.deleteConfig) == config
            && Collapsed(api.json, OPEN_ZFS_CONFIGURATION, DeleteFlat(api, kind, id, options), s.deleteConfig)
               == map[IdField(kind) := api.quote(id), OPEN_ZFS_CONFIGURATION := api.json.renderObject(config)]
  {
    var s := api.For(kind);
    var flat := DeleteFlat(api, kind, id, options);
    assert IdField(kind) !in s.deleteConfig.Fields();
    assert Populated(flat, s.deleteConfig) == Populated(options, s.deleteConfig);
    assert flat - s.deleteConfig.Fields() == map[IdField(kind) := api.quote(id)];
  }

  /** The configuration that the options make reads back as it was. */
  ghost predicate OptionsReadBack(api: Api, kind: Kind, params: Params) {
    ReadsBack(api.json, ConfigOptions(api, kind, params), api.For(kind).deleteConfig, api.For(kind).deleteInput)
  }

  lemma SameFields(json: Json, flat: Params, part: Params, config: Schema)
    requires forall o | o in part :: o in flat && flat[o] == part[o]
    requires forall o | o in flat && o in config.Fields() :: o in part
    ensures Populated(flat, config) == Populated(part, config)
    ensures Collapsible(json, flat, config) ==> Collapsible(json, part, config)
  {
  }

  lemma OptionsInRequest(api: Api, kind: Kind, params: Params)
    requires DeleteLawful(api, kind)
    ensures var flat, config := DeleteFlat(api, kind, PlaceholderId(kind), DeleteParameters(params)),
      ConfigOptions(api, kind, params);
            && (forall o | o in config :: o in flat && flat[o] == config[o])
            && (forall o | o in flat && o in api.For(kind).deleteConfig.Fields() :: o in config)
  {
  }

  /** Options outside the delete configuration do not show in it. */
  lemma ConfigIgnoresOthers(api: Api, kind: Kind, params: Params)
    requires DeleteLawful(api, kind) && DeleteAccepted(api, kind, DeleteParameters(params))
    requires OptionsReadBack(api, kind, params)
    ensures Collapsible(api.json, ConfigOptions(api, kind, params), api.For(kind).deleteConfig)
    ensures var checked := DeleteObject(api, kind, PlaceholderId(kind), DeleteParameters(params));
            && OPEN_ZFS_CONFIGURATION in checked
            && checked[OPEN_ZFS_CONFIGURATION]
                 == Nested(Populated(ConfigOptions(api, kind, params), api.For(kind).deleteConfig))
  {
    var s := api.For(kind);
    var flat := DeleteFlat(api, kind, PlaceholderId(kind), DeleteParameters(params));
    OptionsInRequest(api, kind, params);
    SameFields(api.json, flat, ConfigOptions(api, kind, params), s.deleteConfig);
    NestedEntries(api.json, flat, s.deleteConfig);
  }

  /** The identifier can be written into a delete request. */
  predicate Addressable(api: Api, kind: Kind, id: string) {
    && KindOfId(id) == Some(kind)
    && api.json.wellFormed(api.quote(id)) && api.For(kind).deleteInput.decode(IdField(kind), api.quote(id)).Some?
  }

  /** The delete request for `id` whose configuration is the one of `checked`. */
  ghost predicate SameConfiguration(api: Api, kind: Kind, id: string, sent: Record, checked: Record)
    requires Addressable(api, kind, id)
  {
    && OPEN_ZFS_CONFIGURATION in checked
    && sent == map[IdField(kind) := api.For(kind).deleteInput.decode(IdField(kind), api.quote(id)).value,
                   OPEN_ZFS_CONFIGURATION := checked[OPEN_ZFS_CONFIGURATION]]
  }

  lemma OptionsRoundTripInRequest(api: Api, kind: Kind, id: string, params: Params, order: seq<string>,
                                  existing: seq<TagObject>, listed: seq<Tag>)
    requires Addressable(api, kind, id) && DeleteLawful(api, kind) &&
      DeleteAccepted(api, kind, DeleteParameters(params))
    requires IsOrderOf(order, params.Keys) && NoOptionTags(existing)
    requires Lists(listed, existing + DeletionTags(order, params) + [CLUSTER_TAG])
    requires OptionsReadBack(api, kind, params)
    requires forall o | o in ConfigOptions(api, kind, params) :: Preserved(ConfigOptions(api, kind, params)[o])
    ensures var options := ReadTags(api, id, listed);
            && options == ConfigOptions(api, kind, params)
            && DeleteSendable(api, kind, id, options)
            && SameConfiguration(api, kind, id, DeleteObject(api, kind, id, options),
                                 DeleteObject(api, kind, PlaceholderId(kind), DeleteParameters(params)))
  {
    var options := ConfigOptions(api, kind, params);
    DeleteParametersRoundTrip(api, kind, id, params, order, existing, listed);
    ConfigIgnoresOthers(api, kind, params);
    DeleteObjectIs(api, kind, id, options);
  }

  /** The whole way round: if an accepted request's options survive their tags, then deleting the resource sends the
      identifier together with the very configuration that was checked when the resource was created. */
  lemma DeletionHonoursCreation(api: Api, req: Request, order: seq<string>, id: string, listed: seq<Tag>)
    requires Accepted(api, req, order) && IsOrderOf(order, WithToken(api, req.name, UserParams(req.parameters)).Keys)
    requires Lawful(api, RequestKind(req).value) && DeleteLawful(api, RequestKind(req).value)
    requires OwnTagsDecode(api, req, order)
    requires OptionsReadBack(api, RequestKind(req).value, WithToken(api, req.name, UserParams(req.parameters)))
    requires Addressable(api, RequestKind(req).value, id)
    requires NoOptionTags(ExistingTags(api.json, WithToken(api, req.name, UserParams(req.parameters))).value)
    requires var sent := Delivered(api, RequestKind(req).value, Flat(api, req, order));
             TAGS in sent && sent[TAGS].TagList? && forall t :: t in listed <==> t in sent[TAGS].tags
    requires var given := ConfigOptions(api, RequestKind(req).value,
                                        WithToken(api, req.name, UserParams(req.parameters)));
             forall o | o in given :: Preserved(given[o])
    ensures var kind := RequestKind(req).value;
            var given := WithToken(api, req.name, UserParams(req.parameters));
            var options := ReadTags(api, id, listed);
            && options == ConfigOptions(api, kind, given)
            && DeleteSendable(api, kind, id, options)
            && SameConfiguration(api, kind, id, DeleteObject(api, kind, id, options),
                                 DeleteObject(api, kind, PlaceholderId(kind), DeleteParameters(given)))
  {
    var kind := RequestKind(req).value;
    var user := UserParams(req.parameters);
    var given := WithToken(api, req.name, user);
    var existing := ExistingTags(api.json, given).value;
    NotDriverProvided(user);
    TokenIsNoOption(api, req.name, user, order);
    AllTagsAreDelivered(api, req, order);
    assert AllTags(api, req, order) == existing + DeletionTags(order, given) + [CLUSTER_TAG];
    OptionsRoundTripInRequest(api, kind, id, given, order, existing, listed);
  }
}
