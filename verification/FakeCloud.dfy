/** The repository's in-memory cloud: its statement of what a client token is for. */
module FakeCloud {
  import opened Parameters
  import opened CreateVolume
  import opened CreateGuarantees
  import opened DeleteTags
  import opened Iteration

  datatype FakeFileSystem = FakeFileSystem(id: string, capacity: int)
  datatype FakeVolume = FakeVolume(id: string, fileSystemId: string)
  datatype FakeSnapshot = FakeSnapshot(id: string, sourceVolumeId: string)

  /** The resources of one kind, and the parameters each was created with. */
  datatype Table<R> = Table(resources: map<string, R>, parameters: map<string, Params>)

  datatype Reply = Resource(id: string) | AlreadyExists | BadCapacity

  const FILE_SYSTEM_ID := "fs-1234"

  function Token(params: Params): string {
    Text(params, CLIENT_REQUEST_TOKEN)
  }

  predicate Holds(parameters: map<string, Params>, token: string, id: string) {
    id in parameters && Token(parameters[id]) == token
  }

  predicate Used(parameters: map<string, Params>, token: string) {
    exists id | id in parameters :: Token(parameters[id]) == token
  }

  /** No token has two holders, so a search of the table has one answer whatever order it takes. */
  ghost predicate Distinct(parameters: map<string, Params>) {
    forall a, b | a in parameters && b in parameters && Token(parameters[a]) == Token(parameters[b]) :: a == b
  }

  // ---------- One create request ----------

  /** The table after a create request, if a new resource can be made and gets the given identifier. */
  function Next<R>(t: Table<R>, params: Params, id: string, made: Option<R>): Table<R> {
    if Used(t.parameters, Token(params)) || made.None? then t
    else Table(t.resources[id := made.value], t.parameters[id := params])
  }

  /** The reply to a create request; the holder of the token, if any, is what some search of the table finds. */
  ghost predicate Replies<R>(t: Table<R>, params: Params, id: string, made: Option<R>, reply: Reply) {
    if Used(t.parameters, Token(params)) then
      exists holder :: Holds(t.parameters, Token(params), holder)
        && reply == if t.parameters[holder] == params then Resource(holder) else Reply.AlreadyExists
    else reply == if made.Some? then Resource(id) else BadCapacity
  }

  class FakeCloudProvider {
    var fileSystems: Table<FakeFileSystem>
    var volumes: Table<FakeVolume>
    var snapshots: Table<FakeSnapshot>

    ghost predicate Valid()
      reads this
    {
      Distinct(fileSystems.parameters) && Distinct(volumes.parameters) && Distinct(snapshots.parameters)
    }

    constructor ()
      ensures Valid()
      ensures fileSystems == Table(map["fs-1234" := FakeFileSystem("fs-1234", 100)], map[])
      ensures volumes == Table(map[], map[]) && snapshots == Table(map[], map[])
    {
      fileSystems := Table(map[FILE_SYSTEM_ID := FakeFileSystem(FILE_SYSTEM_ID, 100)], map[]);
      volumes := Table(map[], map[]);
      snapshots := Table(map[], map[]);
    }

    /** `id` is the identifier drawn at random; `parse` reads a decimal 32-bit number. */
    method CreateFileSystem(parameters: Params, id: string, parse: string -> Option<int>) returns (reply: Reply)
      requires Valid()
      modifies this`fileSystems
      ensures Valid()
      ensures var made := Made(parameters, id, parse);
              && fileSystems == Next(old(fileSystems), parameters, id, made)
              && Replies(old(fileSystems), parameters, id, made, reply)
      ensures (forall held | held in old(fileSystems).parameters ::
                 Text(old(fileSystems).parameters[held], "ClientRequestToken") != Text(parameters,
                                                                                       "ClientRequestToken")) ==>
        var capacity := parse(Text(parameters, "StorageCapacity"));
        if capacity.None? then reply == BadCapacity && fileSystems == old(fileSystems)
        else
          && reply == Resource(id)
          && fileSystems.resources == old(fileSystems).resources[id := FakeFileSystem(id, capacity.value)]
          && fileSystems.parameters == old(fileSystems).parameters[id := parameters]
      ensures forall held | held in old(fileSystems).parameters ::
        Text(old(fileSystems).parameters[held], "ClientRequestToken") == Text(parameters, "ClientRequestToken") ==>
          && fileSystems == old(fileSystems)
          && (old(fileSystems).parameters[held] == parameters ==> reply == Resource(held))
          && (old(fileSystems).parameters[held] != parameters ==> reply == Reply.AlreadyExists)
    {
      NextKeepsDistinct(fileSystems, parameters, id, Made(parameters, id, parse));
      var existing := FindToken(fileSystems.parameters, Token(parameters));
      if existing.Some? {
        return if fileSystems.parameters[existing.value] == parameters then Resource(existing.value)
          else Reply.AlreadyExists;
      }
      var capacity := parse(Text(parameters, STORAGE_CAPACITY));
      if capacity.None? {
        return BadCapacity;
      }
      fileSystems := Table(fileSystems.resources[id := FakeFileSystem(id, capacity.value)],
                           fileSystems.parameters[id := parameters]);
      return Resource(id);
    }

    method CreateVolume(parameters: Params, id: string) returns (reply: Reply)
      requires Valid()
      modifies this`volumes
      ensures Valid()
      ensures var made := Some(FakeVolume(id, FILE_SYSTEM_ID));
              && volumes == Next(old(volumes), parameters, id, made)
              && Replies(old(volumes), parameters, id, made, reply)
      ensures (forall held | held in old(volumes).parameters ::
                 Text(old(volumes).parameters[held], "ClientRequestToken") != Text(parameters,
                                                                                   "ClientRequestToken")) ==>
        && reply == Resource(id)
        && volumes.resources == old(volumes).resources[id := FakeVolume(id, "fs-1234")]
        && volumes.parameters == old(volumes).parameters[id := parameters]
      ensures forall held | held in old(volumes).parameters ::
        Text(old(volumes).parameters[held], "ClientRequestToken") == Text(parameters, "ClientRequestToken") ==>
          && volumes == old(volumes)
          && (old(volumes).parameters[held] == parameters ==> reply == Resource(held))
          && (old(volumes).parameters[held] != parameters ==> reply == Reply.AlreadyExists)
    {
      NextKeepsDistinct(volumes, parameters, id, Some(FakeVolume(id, FILE_SYSTEM_ID)));
      var existing := FindToken(volumes.parameters, Token(parameters));
      if existing.Some? {
        return if volumes.parameters[existing.value] == parameters then Resource(existing.value)
          else Reply.AlreadyExists;
      }
      volumes := Table(volumes.resources[id := FakeVolume(id, FILE_SYSTEM_ID)], volumes.parameters[id := parameters]);
      return Resource(id);
    }

    method CreateSnapshot(parameters: Params, id: string) returns (reply: Reply)
      requires Valid()
      modifies this`snapshots
      ensures Valid()
      ensures var made := Some(FakeSnapshot(id, Text(parameters, "VolumeId")));
              && snapshots == Next(old(snapshots), parameters, id, made)
              && Replies(old(snapshots), parameters, id, made, reply)
      ensures (forall held | held in old(snapshots).parameters ::
                 Text(old(snapshots).parameters[held], "ClientRequestToken") != Text(parameters,
                                                                                     "ClientRequestToken")) ==>
        && reply == Resource(id)
        && snapshots.resources == old(snapshots).resources[id := FakeSnapshot(id, Text(parameters, "VolumeId"))]
        && snapshots.parameters == old(snapshots).parameters[id := parameters]
      ensures forall held | held in old(snapshots).parameters ::
        Text(old(snapshots).parameters[held], "ClientRequestToken") == Text(parameters, "ClientRequestToken") ==>
          && snapshots == old(snapshots)
          && (old(snapshots).parameters[held] == parameters ==> reply == Resource(held))
          && (old(snapshots).parameters[held] != parameters ==> reply == Reply.AlreadyExists)
    {
      NextKeepsDistinct(snapshots, parameters, id, Some(FakeSnapshot(id, Text(parameters, "VolumeId"))));
      var existing := FindToken(snapshots.parameters, Token(parameters));
      if existing.Some? {
        return if snapshots.parameters[existing.value] == parameters then Resource(existing.value)
          else Reply.AlreadyExists;
      }
      snapshots := Table(snapshots.resources[id := FakeSnapshot(id, Text(parameters, "VolumeId"))],
                         snapshots.parameters[id := parameters]);
      return Resource(id);
    }
  }

  function Made(parameters: Params, id: string, parse: string -> Option<int>): Option<FakeFileSystem> {
    var capacity := parse(Text(parameters, STORAGE_CAPACITY));
    if capacity.None? then None else Some(FakeFileSystem(id, capacity.value))
  }

  /** Looks for the holder of a token, in any order. */
  method FindToken(parameters: map<string, Params>, token: string) returns (holder: Option<string>)
    ensures holder.Some? <==> Used(parameters, token)
    ensures holder.Some? ==> Holds(parameters, token, holder.value)
  {
    var todo := parameters.Keys;
    while todo != {}
      invariant todo <= parameters.Keys
      invariant forall id | id in parameters && id !in todo :: Token(parameters[id]) != token
    {
      var id :| id in todo;
      todo := todo - {id};
      if Token(parameters[id]) == token {
        return Some(id);
      }
    }
    return None;
  }

  // ---------- All histories of create requests ----------

  /** Tokens stay distinct even if an identifier is drawn twice and the earlier resource is lost. */
  lemma NextKeepsDistinct<R>(t: Table<R>, params: Params, id: string, made: Option<R>)
    requires Distinct(t.parameters)
    ensures Distinct(Next(t, params, id, made).parameters)
  {
  }

  datatype Create<R> = Create(params: Params, id: string, made: Option<R>)

  function Run<R>(t: Table<R>, history: seq<Create<R>>): Table<R> {
    if history == [] then t else
      var e := history[|history| - 1];
      Next(Run(t, history[..|history| - 1]), e.params, e.id, e.made)
  }

  /** No create of the history draws an identifier that is in use. */
  predicate FreshIds<R>(t: Table<R>, history: seq<Create<R>>) {
    forall i | 0 <= i < |history| :: history[i].id !in Run(t, history[..i]).parameters
  }

  /** Tokens stay distinct over any history, and no table ever comes to hold two resources for one. */
  lemma {:induction false} RunKeepsDistinct<R>(t: Table<R>, history: seq<Create<R>>)
    requires Distinct(t.parameters)
    ensures Distinct(Run(t, history).parameters)
  {
    if history != [] {
      var n := |history| - 1;
      RunKeepsDistinct(t, history[..n]);
      NextKeepsDistinct(Run(t, history[..n]), history[n].params, history[n].id, history[n].made);
    }
  }

  /** What a table has recorded stays over any history with fresh identifiers. */
  lemma {:induction false} RunKeepsEntries<R>(t: Table<R>, history: seq<Create<R>>)
    requires FreshIds(t, history)
    ensures forall id | id in t.parameters ::
      id in Run(t, history).parameters && Run(t, history).parameters[id] == t.parameters[id]
  {
    if history != [] {
      var n := |history| - 1;
      forall i | 0 <= i < n ensures history[..n][i].id !in Run(t, history[..n][..i]).parameters {
        assert history[..n][..i] == history[..i];
      }
      RunKeepsEntries(t, history[..n]);
    }
  }

  /** A token, once used, answers for good: the same parameters get the same resource and add nothing, any others
      are refused, whatever else was created in between. */
  lemma TokenIsIdempotent<R>(t: Table<R>, first: Create<R>, history: seq<Create<R>>, again: Create<R>, reply: Reply)
    requires Distinct(t.parameters) && !Used(t.parameters, Token(first.params)) && first.made.Some?
    requires FreshIds(Next(t, first.params, first.id, first.made), history)
    requires Token(again.params) == Token(first.params)
    requires Replies(Run(Next(t, first.params, first.id, first.made), history), again.params, again.id, again.made,
                     reply)
    ensures reply == if again.params == first.params then Resource(first.id) else Reply.AlreadyExists
    ensures var now := Run(Next(t, first.params, first.id, first.made), history);
            Next(now, again.params, again.id, again.made) == now
  {
    var t1 := Next(t, first.params, first.id, first.made);
    NextKeepsDistinct(t, first.params, first.id, first.made);
    RunKeepsDistinct(t1, history);
    RunKeepsEntries(t1, history);
    assert t1.parameters[first.id] == first.params;
    assert Holds(Run(t1, history).parameters, Token(first.params), first.id);
  }

  // ---------- The controller sends a request again ----------

  /** What two tries at one request draw and make, and what happens between them. */
  datatype Retry<R> = Retry(id: string, resource: R, history: seq<Create<R>>, id2: string, made2: Option<R>)

  /** The map for the cloud, for one order of iteration. */
  function Sent(api: Api, kind: Kind, req: Request, o: seq<string>): Params
    requires RequestKind(req).Some? && CapacityOf(req).Some?
  {
    CloudParams(api, kind, Flat(api, req, o))
  }

  function AfterFirst<R>(api: Api, kind: Kind, req: Request, t: Table<R>, first: Retry<R>, o: seq<string>): Table<R>
    requires RequestKind(req).Some? && CapacityOf(req).Some?
  {
    Next(t, Sent(api, kind, req, o), first.id, Some(first.resource))
  }

  /** The table after the first try, sent with one order of iteration, and all that others created since. */
  function Since<R>(api: Api, kind: Kind, req: Request, t: Table<R>, first: Retry<R>, o: seq<string>): Table<R>
    requires RequestKind(req).Some? && CapacityOf(req).Some?
  {
    Run(AfterFirst(api, kind, req, t, first, o), first.history)
  }

  /** The request gets as far as the cloud's token, and the token is new. */
  ghost predicate Tried<R>(api: Api, kind: Kind, req: Request, t: Table<R>) {
    && RequestKind(req) == Some(kind) && CapacityOf(req).Some? && Lawful(api, kind)
    && !DriverProvided(UserParams(req.parameters)) && ExistingTags(api.json, UserParams(req.parameters)).Some?
    && Distinct(t.parameters) && !Used(t.parameters, api.quote(req.name))
  }

  /** The second try, with order `o2`, is answered with `reply`. */
  ghost predicate ReplyToRetry<R>(api: Api, kind: Kind, req: Request, t: Table<R>, r: Retry<R>, o1: seq<string>,
                                  o2: seq<string>, reply: Reply)
    requires RequestKind(req).Some? && CapacityOf(req).Some?
  {
    && FreshIds(AfterFirst(api, kind, req, t, r, o1), r.history)
    && Replies(Since(api, kind, req, t, r, o1), Sent(api, kind, req, o2), r.id2, r.made2, reply)
  }

  /** The retry is given the resource of the first try, and the table stays as it is. */
  ghost predicate Replayed<R>(api: Api, kind: Kind, req: Request, t: Table<R>, r: Retry<R>, o1: seq<string>,
                              o2: seq<string>, reply: Reply)
    requires RequestKind(req).Some? && CapacityOf(req).Some?
  {
    var now := Since(api, kind, req, t, r, o1);
    reply == Resource(r.id) && Next(now, Sent(api, kind, req, o2), r.id2, r.made2) == now
  }

  ghost predicate AreOrders(api: Api, req: Request, o1: seq<string>, o2: seq<string>) {
    var keys := WithToken(api, req.name, UserParams(req.parameters)).Keys;
    IsOrderOf(o1, keys) && IsOrderOf(o2, keys)
  }

  /** Whatever happened in between, the second try is answered by comparing what was sent, and adds nothing. */
  lemma RetryReply<R>(api: Api, kind: Kind, req: Request, t: Table<R>, r: Retry<R>, o1: seq<string>, o2: seq<string>,
                      reply: Reply)
    requires Tried(api, kind, req, t) && ReplyToRetry(api, kind, req, t, r, o1, o2, reply)
    ensures reply == if Sent(api, kind, req, o2) == Sent(api, kind, req, o1) then Resource(r.id)
      else Reply.AlreadyExists
    ensures var now := Since(api, kind, req, t, r, o1);
            Next(now, Sent(api, kind, req, o2), r.id2, r.made2) == now
  {
    SentFields(api, kind, req, o1);
    SentFields(api, kind, req, o2);
    TokenIsIdempotent(t, Create(Sent(api, kind, req, o1), r.id, Some(r.resource)), r.history,
                      Create(Sent(api, kind, req, o2), r.id2, r.made2), reply);
  }

  /** The cloud always has an answer. */
  lemma SomeReply<R>(t: Table<R>, params: Params, id: string, made: Option<R>) returns (reply: Reply)
    ensures Replies(t, params, id, made, reply)
  {
    if Used(t.parameters, Token(params)) {
      var holder :| holder in t.parameters && Token(t.parameters[holder]) == Token(params);
      assert Holds(t.parameters, Token(params), holder);
      reply := if t.parameters[holder] == params then Resource(holder) else Reply.AlreadyExists;
    } else {
      reply := if made.Some? then Resource(id) else BadCapacity;
    }
  }

  lemma RetryHasReply<R>(api: Api, kind: Kind, req: Request, t: Table<R>, r: Retry<R>, o1: seq<string>, o2: seq<string>)
    returns (reply: Reply)
    requires RequestKind(req).Some? && CapacityOf(req).Some? && r.history == []
    ensures ReplyToRetry(api, kind, req, t, r, o1, o2, reply)
  {
    reply := SomeReply(Since(api, kind, req, t, r, o1), Sent(api, kind, req, o2), r.id2, r.made2);
  }

  lemma ReplaysIfSame<R>(api: Api, kind: Kind, req: Request, t: Table<R>, r: Retry<R>, o1: seq<string>, o2: seq<string>,
                         reply: Reply)
    requires Tried(api, kind, req, t) && ReplyToRetry(api, kind, req, t, r, o1, o2, reply)
    requires |DeletionKeys(UserParams(req.parameters))| <= 1 && AreOrders(api, req, o1, o2)
    ensures Replayed(api, kind, req, t, r, o1, o2, reply)
  {
    ReplayIsIdentical(api, kind, req);
    RetryReply(api, kind, req, t, r, o1, o2, reply);
  }

  lemma SentDifferently(api: Api, kind: Kind, req: Request) returns (o1: seq<string>, o2: seq<string>)
    requires RequestKind(req) == Some(kind) && CapacityOf(req).Some? && Lawful(api, kind)
    requires !DriverProvided(UserParams(req.parameters)) && ExistingTags(api.json, UserParams(req.parameters)).Some?
    requires |DeletionKeys(UserParams(req.parameters))| > 1
    ensures AreOrders(api, req, o1, o2) && Sent(api, kind, req, o1) != Sent(api, kind, req, o2)
  {
    var keys := WithToken(api, req.name, UserParams(req.parameters)).Keys;
    ReplayIsIdentical(api, kind, req);
    o1, o2 :| IsOrderOf(o1, keys) && IsOrderOf(o2, keys)
      && CloudParams(api, kind, Flat(api, req, o1)) != CloudParams(api, kind, Flat(api, req, o2));
  }

  lemma RefusedRetry<R>(api: Api, kind: Kind, req: Request, t: Table<R>, r: Retry<R>)
    returns (o1: seq<string>, o2: seq<string>, reply: Reply)
    requires Tried(api, kind, req, t) && |DeletionKeys(UserParams(req.parameters))| > 1 && r.history == []
    ensures AreOrders(api, req, o1, o2) && ReplyToRetry(api, kind, req, t, r, o1, o2, reply)
    ensures !Replayed(api, kind, req, t, r, o1, o2, reply)
  {
    o1, o2 := SentDifferently(api, kind, req);
    reply := RetryHasReply(api, kind, req, t, r, o1, o2);
    RetryReply(api, kind, req, t, r, o1, o2, reply);
  }

  /** A controller that repeats a create request is sure to be given the resource of its first try, and to add nothing,
      exactly when the request has at most one deletion option; whatever others created in between, and whatever
      identifier the second try would have drawn. */
  lemma RetryIsSafe<R(!new)>(api: Api, kind: Kind, req: Request, t: Table<R>, some: R)
    requires Tried(api, kind, req, t)
    ensures (forall r: Retry<R>, o1, o2, reply | AreOrders(api, req, o1, o2) &&
             ReplyToRetry(api, kind, req, t, r, o1, o2, reply) ::
               Replayed(api, kind, req, t, r, o1, o2, reply))
      <==> |DeletionKeys(UserParams(req.parameters))| <= 1
  {
    if |DeletionKeys(UserParams(req.parameters))| <= 1 {
      forall r: Retry<R>, o1, o2, reply | AreOrders(api, req, o1, o2) &&
        ReplyToRetry(api, kind, req, t, r, o1, o2, reply)
        ensures Replayed(api, kind, req, t, r, o1, o2, reply)
      {
        ReplaysIfSame(api, kind, req, t, r, o1, o2, reply);
      }
    } else {
      var o1, o2, reply := RefusedRetry(api, kind, req, t, Retry("", some, [], "", None));
    }
  }
}
