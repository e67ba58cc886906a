/** Request parameters: a map of text values that is consumed, field by field, into the driver's API objects. */
module Parameters {

  datatype Option<+T> = None | Some(value: T)

  type Params = map<string, string>

  /** One tag as the driver builds it: a JSON object of strings with the members "Key" and "Value". */
  type TagObject = map<string, string>

  /** One tag as the service stores it; either member can be missing. */
  datatype Tag = Tag(key: Option<string>, value: Option<string>)

  /** A decoded field value. Only the values the driver builds itself have a visible structure. */
  datatype Value = Leaf(json: string) | Nested(fields: map<string, Value>) | TagList(tags: seq<Tag>)

  /** A populated API object: the fields that were supplied. */
  type Record = map<string, Value>

  /** A Go struct type: its field names in order, and the partial decoder of each field. */
  datatype Schema = Schema(names: seq<string>, decode: (string, string) -> Option<Value>) {
    function Fields(): set<string> {
      set n | n in names
    }
  }

  /** The JSON library as the driver uses it: which texts marshal, and how objects and tags are written and read. */
  datatype Json = Json(
    wellFormed: string -> bool,
    renderObject: Record -> string,
    renderTags: seq<TagObject> -> string,
    parseTags: string -> Option<seq<TagObject>>)

  datatype Error = Malformed(key: string) | Undecodable | UnknownParameters(keys: set<string>)

  const OPEN_ZFS_CONFIGURATION := "OpenZFSConfiguration"

  // ---------- What populating an object means ----------

  /** Every value can be marshalled. */
  predicate WellFormed(json: Json, params: Params) {
    forall k | k in params :: json.wellFormed(params[k])
  }

  /** Every value under one of the schema's names has a decoding. */
  predicate Decodable(params: Params, schema: Schema) {
    forall k | k in params && k in schema.Fields() :: schema.decode(k, params[k]).Some?
  }

  /** The object the schema reads out of the parameters. */
  function Populated(params: Params, schema: Schema): Record {
    map k | k in params && k in schema.Fields() && schema.decode(k, params[k]).Some? ::
      schema.decode(k, params[k]).value
  }

  lemma PopulatedIs(params: Params, schema: Schema)
    ensures forall k ::
      k in Populated(params, schema) <==> k in params && k in schema.names && schema.decode(k, params[k]).Some?
    ensures forall k | k in Populated(params, schema) ::
      Populated(params, schema)[k] == schema.decode(k, params[k]).value
  {
  }

  lemma PopulatedIsOnly(params: Params, schema: Schema, record: Record)
    requires Decodable(params, schema)
    requires forall k :: k in record <==> k in params && k in schema.names
    requires forall k | k in record :: Some(record[k]) == schema.decode(k, params[k])
    ensures record == Populated(params, schema)
  {
  }

  /** The parameters left when the schema has taken its own; a text that does not marshal stops it before that. */
  function Unused(json: Json, params: Params, schema: Schema): Params {
    if WellFormed(json, params) then params - schema.Fields() else params
  }

  // ---------- The operations, on the caller's own map ----------

  /** A Go map handed from function to function and edited in place. */
  class ParameterMap {
    var entries: Params

    constructor (entries: Params)
      ensures this.entries == entries
    {
      this.entries := entries;
    }
  }

  /** Finds a parameter that does not marshal, looking at the keys in any order. */
  method IdentifyImproperlyFormattedParameter(json: Json, params: Params) returns (key: Option<string>)
    ensures key.None? <==> WellFormed(json, params)
    ensures key.Some? ==> key.value in params && !json.wellFormed(params[key.value])
  {
    var todo := params.Keys;
    while todo != {}
      invariant todo <= params.Keys
      invariant forall k | k in params && k !in todo :: json.wellFormed(params[k])
    {
      var k :| k in todo;
      todo := todo - {k};
      if !json.wellFormed(params[k]) {
        return Some(k);
      }
    }
    return None;
  }

  method RemoveParametersAndPopulateObject(json: Json, parameters: ParameterMap, schema: Schema)
    returns (record: Record, err: Option<Error>)
    modifies parameters
    ensures parameters.entries == Unused(json, old(parameters.entries), schema)
    ensures err.None? <==> WellFormed(json, old(parameters.entries)) && Decodable(old(parameters.entries), schema)
    ensures err.None? ==> record == Populated(old(parameters.entries), schema)
    ensures err.Some? && err.value.Malformed? <==> !WellFormed(json, old(parameters.entries))
    ensures err.Some? && err.value.Malformed? ==>
      err.value.key in old(parameters.entries) && !json.wellFormed(old(parameters.entries)[err.value.key])
    ensures err.Some? ==> !err.value.UnknownParameters?
    ensures err.None? <==> forall k | k in old(parameters.entries) ::
      && json.wellFormed(old(parameters.entries)[k])
      && (k in schema.names ==> schema.decode(k, old(parameters.entries)[k]).Some?)
    ensures err.None? ==>
      && (forall k :: k in parameters.entries <==> k in old(parameters.entries) && k !in schema.names)
      && (forall k :: k in record <==> k in old(parameters.entries) && k in schema.names)
      && (forall k | k in record :: Some(record[k]) == schema.decode(k, old(parameters.entries)[k]))
    ensures forall k | k in parameters.entries ::
      k in old(parameters.entries) && parameters.entries[k] == old(parameters.entries)[k]
    ensures err.Some? && err.value.Malformed? ==> parameters.entries == old(parameters.entries)
    ensures err == Some(Undecodable) ==>
      forall k :: k in parameters.entries <==> k in old(parameters.entries) && k !in schema.names
  {
    var before := parameters.entries;
    var bad := IdentifyImproperlyFormattedParameter(json, before);
    if bad.Some? {
      return map[], Some(Malformed(bad.value));
    }
    record := Populated(before, schema);
    err := if Decodable(before, schema) then None else Some(Undecodable);
    for i := 0 to |schema.names|
      invariant parameters.entries == before - (set n | n in schema.names[..i])
    {
      assert schema.names[..i + 1] == schema.names[..i] + [schema.names[i]];
      if schema.names[i] in parameters.entries {
        parameters.entries := parameters.entries - {schema.names[i]};
      }
    }
    assert schema.names[..|schema.names|] == schema.names;
  }

  /** Populates the object and insists that nothing is left over. */
  method StrictRemoveParametersAndPopulateObject(json: Json, parameters: ParameterMap, schema: Schema)
    returns (record: Record, err: Option<Error>)
    modifies parameters
    ensures parameters.entries == Unused(json, old(parameters.entries), schema)
    ensures err.None? <==> StrictlyAccepted(json, old(parameters.entries), schema)
    ensures err.None? ==> record == Populated(old(parameters.entries), schema) && parameters.entries == map[]
    ensures err.None? <==> forall k | k in old(parameters.entries) ::
      && json.wellFormed(old(parameters.entries)[k])
      && k in schema.names && schema.decode(k, old(parameters.entries)[k]).Some?
    ensures err.None? ==>
      && record.Keys == old(parameters.entries).Keys
      && forall k | k in record :: Some(record[k]) == schema.decode(k, old(parameters.entries)[k])
  {
    StrictlyAcceptedMeansConsumed(json, parameters.entries, schema);
    record, err := RemoveParametersAndPopulateObject(json, parameters, schema);
    if err.Some? {
      return;
    }
    if |parameters.entries| != 0 {
      return record, Some(UnknownParameters(parameters.entries.Keys));
    }
  }

  /** Every parameter marshals, belongs to the schema, and decodes. */
  predicate StrictlyAccepted(json: Json, params: Params, schema: Schema) {
    forall k | k in params ::
      json.wellFormed(params[k]) && k in schema.Fields() && schema.decode(k, params[k]).Some?
  }

  lemma StrictlyAcceptedMeansConsumed(json: Json, params: Params, schema: Schema)
    ensures StrictlyAccepted(json, params, schema)
      <==> WellFormed(json, params) && Decodable(params, schema) && params - schema.Fields() == map[]
  {
    if params - schema.Fields() == map[] {
      forall k | k in params ensures k in schema.Fields() {
        assert k !in params - schema.Fields();
      }
    }
  }

  /** Replaces the parameters of a configuration object by one parameter that holds the whole object. */
  method ReplaceParametersAndPopulateObject(json: Json, newKey: string, parameters: ParameterMap, schema: Schema)
    returns (err: Option<Error>)
    modifies parameters
    ensures err.None? <==> WellFormed(json, old(parameters.entries)) && Decodable(old(parameters.entries), schema)
    ensures err.None? ==> parameters.entries == Collapsed(json, newKey, old(parameters.entries), schema)
    ensures err.Some? ==> parameters.entries == Unused(json, old(parameters.entries), schema)
    ensures err.None? <==> forall k | k in old(parameters.entries) ::
      && json.wellFormed(old(parameters.entries)[k])
      && (k in schema.names ==> schema.decode(k, old(parameters.entries)[k]).Some?)
    ensures err.None? ==>
      && newKey in parameters.entries
      && (forall k | k != newKey ::
            k in parameters.entries <==> k in old(parameters.entries) && k !in schema.names)
      && (forall k | k in parameters.entries && k != newKey :: parameters.entries[k] == old(parameters.entries)[k])
      && forall record: Record |
           && (forall k :: k in record <==> k in old(parameters.entries) && k in schema.names)
           && (forall k | k in record :: Some(record[k]) == schema.decode(k, old(parameters.entries)[k])) ::
           parameters.entries[newKey] == json.renderObject(record)
  {
    var record;
    record, err := RemoveParametersAndPopulateObject(json, parameters, schema);
    if err.Some? {
      return;
    }
    forall other: Record |
      && (forall k :: k in other <==> k in old(parameters.entries) && k in schema.names)
      && (forall k | k in other :: Some(other[k]) == schema.decode(k, old(parameters.entries)[k]))
      ensures json.renderObject(other) == json.renderObject(record)
    {
      PopulatedIsOnly(old(parameters.entries), schema, other);
    }
    var text := json.renderObject(record);
    parameters.entries := parameters.entries[newKey := text];
  }

  function Collapsed(json: Json, newKey: string, params: Params, schema: Schema): Params {
    (params - schema.Fields())[newKey := json.renderObject(Populated(params, schema))]
  }

  lemma NestedEntries(json: Json, request: Params, config: Schema)
    ensures var nested := Collapsed(json, "OpenZFSConfiguration", request, config);
            && "OpenZFSConfiguration" in nested
            && nested["OpenZFSConfiguration"] == json.renderObject(Populated(request, config))
            && (forall k | k != "OpenZFSConfiguration" :: k in nested <==> k in request && k !in config.names)
            && (forall k | k in nested && k != "OpenZFSConfiguration" :: nested[k] == request[k])
  {
  }

  /** Whether collapsing the parameters into a configuration object succeeds. */
  predicate Collapsible(json: Json, params: Params, config: Schema) {
    WellFormed(json, params) && Decodable(params, config)
  }

  // ---------- Flattened parameters mean the nested object ----------

  /** What the JSON library owes the driver for these parameters: the object they populate marshals once it is written,
      and reads back as it was. */
  predicate ReadsBack(json: Json, params: Params, config: Schema, input: Schema) {
    var text := json.renderObject(Populated(params, config));
    && OPEN_ZFS_CONFIGURATION in input.Fields()
    && json.wellFormed(text) && input.decode(OPEN_ZFS_CONFIGURATION, text) == Some(Nested(Populated(params, config)))
  }

  /** The flat form's own meaning: every key is in exactly one of the two schemas and every value decodes there. */
  predicate FlatAccepted(json: Json, params: Params, config: Schema, input: Schema) {
    forall k | k in params ::
      && json.wellFormed(params[k])
      && (k in config.Fields() || k in input.Fields())
      && (if k in config.Fields() then config.decode(k, params[k]).Some? else input.decode(k, params[k]).Some?)
  }

  /** Collapsing and then populating accepts exactly the flat parameters, and puts each value in its one place. */
  lemma NestingPreservesMeaning(json: Json, params: Params, config: Schema, input: Schema)
    requires config.Fields() !! input.Fields()
    requires ReadsBack(json, params, config, input)
    requires OPEN_ZFS_CONFIGURATION !in params
    ensures var nested := Collapsed(json, OPEN_ZFS_CONFIGURATION, params, config);
            && ((Collapsible(json, params, config) && StrictlyAccepted(json, nested, input))
                <==> FlatAccepted(json, params, config, input))
            && (FlatAccepted(json, params, config, input) ==>
                  && Populated(nested, input)
                     == Populated(params, input)[OPEN_ZFS_CONFIGURATION := Nested(Populated(params, config))]
                  && Populated(params, config).Keys + Populated(params, input).Keys == params.Keys
                  && Populated(params, config).Keys !! Populated(params, input).Keys
                  && Unused(json, nested, input) == map[])
  {
    var record := Populated(params, config);
    var nested := Collapsed(json, OPEN_ZFS_CONFIGURATION, params, config);
    assert OPEN_ZFS_CONFIGURATION !in config.Fields();
    assert nested[OPEN_ZFS_CONFIGURATION] == json.renderObject(record);
    assert forall k | k in nested && k != OPEN_ZFS_CONFIGURATION ::
      k in params && nested[k] == params[k] && k !in config.Fields();
    assert forall k | k in params && k !in config.Fields() :: k in nested && nested[k] == params[k];
    if Collapsible(json, params, config) && StrictlyAccepted(json, nested, input) {
      forall k | k in params
        ensures json.wellFormed(params[k])
        ensures k in config.Fields() || k in input.Fields()
        ensures if k in config.Fields() then config.decode(k, params[k]).Some? else input.decode(k, params[k]).Some?
      {
        if k !in config.Fields() {
          assert k in nested;
        }
      }
    }
    if FlatAccepted(json, params, config, input) {
      var top := Populated(params, input)[OPEN_ZFS_CONFIGURATION := Nested(record)];
      assert Populated(nested, input).Keys == top.Keys;
      assert Populated(nested, input) == top;
      assert forall k | k in params :: k in record || k in Populated(params, input);
    }
  }
}
