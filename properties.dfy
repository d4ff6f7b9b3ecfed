/**
 * Properties of the client's operations, stated over the `Spec` functions
 * and so, through their postconditions, over the methods of
 * `Client.RedashClient`.
 */
module Properties {
  import opened Optional
  import opened Json
  import opened Paths
  import opened Resolver
  import opened Http
  import opened Spec

  /** The intent-level operations of the client. */
  datatype Operation =
    | CreateDataSourceOp(kind: string, name: string, options: Json)
    | CreateOrUpdateDatasourceOp(kind: string, name: string, options: Json)
    | DeleteDataSourceOp(name: string)
    | CreateUserOp(name: string, email: string)
    | DeleteUserOp(name: string)
    | CreateGroupOp(name: string)
    | DeleteGroupOp(name: string)
    | AddUserToGroupOp(memberName: string, groupName: string)
    | DeleteUserFromGroupOp(memberName: string, groupName: string)
    | AddDataSourceToGroupOp(memberName: string, groupName: string)
    | DeleteDataSourceFromGroupOp(memberName: string, groupName: string)

  function Perform(s: Service, op: Operation): Run<Response> {
    match op
    case CreateDataSourceOp(k, n, o) => CreateDataSource(s, k, n, o)
    case CreateOrUpdateDatasourceOp(k, n, o) => CreateOrUpdateDatasource(s, k, n, o)
    case DeleteDataSourceOp(n) => DeleteDataSource(s, n)
    case CreateUserOp(n, e) => CreateUser(s, n, e)
    case DeleteUserOp(n) => DeleteUser(s, n)
    case CreateGroupOp(n) => CreateGroup(s, n)
    case DeleteGroupOp(n) => DeleteGroup(s, n)
    case AddUserToGroupOp(u, g) => AddUserToGroup(s, u, g)
    case DeleteUserFromGroupOp(u, g) => DeleteUserFromGroup(s, u, g)
    case AddDataSourceToGroupOp(d, g) => AddDataSourceToGroup(s, d, g)
    case DeleteDataSourceFromGroupOp(d, g) => DeleteDataSourceFromGroup(s, d, g)
  }

  /** The mutating requests (POST and DELETE) among `sent`, in order. */
  function Mutations(sent: seq<Request>): (m: seq<Request>)
    ensures |m| <= |sent|
    ensures forall i :: 0 <= i < |m| ==> m[i].IsMutation() && m[i] in sent
    ensures (forall i :: 0 <= i < |sent| ==> !sent[i].IsMutation()) ==> m == []
  {
    if sent == [] then []
    else (if sent[0].IsMutation() then [sent[0]] else []) + Mutations(sent[1..])
  }

  /** The status codes the client accepts for a request: 200, and also 204 for DELETE and the users listing. */
  predicate Accepted(req: Request, status: int) {
    if req.DeleteRequest? || (req.GetRequest? && req.query.UserQuery?) then IsOkOrNoContent(status)
    else IsOk(status)
  }

  predicate LookupsOnly(sent: seq<Request>) {
    forall i :: 0 <= i < |sent| ==> !sent[i].IsMutation()
  }

  /**
   * A run of a listing or lookup: only GET requests, and a transport error
   * is that of the last one, which the service refused.
   */
  predicate LookupExplained<T>(s: Service, run: Run<T>) {
    && |run.sent| > 0
    && LookupsOnly(run.sent)
    && var last := run.sent[|run.sent| - 1];
       (run.result.Err? && run.result.error.TransportError? ==>
          run.result.error == TransportError(GET, Uri(last.path), s.status(last)) &&
          !Accepted(last, s.status(last)))
  }

  /**
   * A run of an operation: lookups, then at most one mutating request, last;
   * a remote response is the service's accepted answer to that mutation; a
   * fabricated response or a client-side exception comes with no mutation;
   * a transport error names the method, the path and the status of the last
   * request, which the service refused.
   */
  predicate Explained(s: Service, run: Run<Response>) {
    && |run.sent| > 0
    && LookupsOnly(run.sent[..|run.sent| - 1])
    && var last := run.sent[|run.sent| - 1];
       match run.result
       case Ok(Remote(status)) => last.IsMutation() && status == s.status(last) && Accepted(last, status)
       case Ok(Synth(_, _)) => !last.IsMutation()
       case Err(TransportError(verb, uri, status)) =>
         verb == last.Verb() && uri == Uri(last.path) && status == s.status(last) && !Accepted(last, status)
       case Err(_) => !last.IsMutation()
  }

  lemma {:induction false} MutationsOfExplained(s: Service, run: Run<Response>)
    requires Explained(s, run)
    ensures |Mutations(run.sent)| <= 1
    ensures run.result.Ok? && run.result.value.Synth? ==> Mutations(run.sent) == []
    ensures run.result.Err? && !run.result.error.TransportError? ==> Mutations(run.sent) == []
  {
    var n := |run.sent|;
    MutationsConcat(run.sent[..n - 1], [run.sent[n - 1]]);
    assert run.sent[..n - 1] + [run.sent[n - 1]] == run.sent;
  }

  lemma {:induction false} MutationsConcat(a: seq<Request>, b: seq<Request>)
    ensures Mutations(a + b) == Mutations(a) + Mutations(b)
  {
    if a != [] {
      assert (a + b)[1..] == a[1..] + b;
      MutationsConcat(a[1..], b);
    } else {
      assert a + b == b;
    }
  }

  // ---- building blocks ----

  lemma GetExplained(s: Service, p: Path)
    ensures LookupExplained(s, Get(s, p))
  {
  }

  lemma FindExplained(s: Service, listed: Run<seq<Record>>, k: Key)
    requires LookupExplained(s, listed)
    ensures LookupExplained(s, Find(listed, k))
  {
  }

  lemma GetUsersExplained(s: Service, count: int, withPending: bool, order: string)
    ensures LookupExplained(s, GetUsers(s, count, withPending, order))
  {
  }

  lemma TransportExplained(s: Service, p: Path, payload: Json)
    ensures Explained(s, Post(s, p, payload))
    ensures Explained(s, Delete(s, p))
  {
  }

  lemma {:induction false} AfterExplained(s: Service, earlier: seq<Request>, r: Run<Response>)
    requires LookupsOnly(earlier) && Explained(s, r)
    ensures Explained(s, After(earlier, r))
  {
    var all := After(earlier, r).sent;
    assert all[..|all| - 1] == earlier + r.sent[..|r.sent| - 1];
  }

  lemma {:induction false} StopAfterLookup<T>(s: Service, lookup: Run<T>, outcome: Result<Response>)
    requires LookupExplained(s, lookup)
    requires match outcome
             case Ok(r) => r.Synth?
             case Err(e) => !e.TransportError? || (lookup.result.Err? && e == lookup.result.error)
    ensures Explained(s, Run(lookup.sent, outcome))
  {
  }

  lemma {:induction false} ResolveWithGroupExplained(s: Service, member: Run<Option<Record>>, kind: Kind, name: string, groupName: string)
    requires LookupExplained(s, member)
    ensures LookupExplained(s, ResolveWithGroup(s, member, kind, name, groupName))
  {
    if member.result.Ok? && member.result.value.Some? {
      GetExplained(s, Groups);
      FindExplained(s, GetGroups(s), ByName(groupName));
      var group := GetGroupByName(s, groupName);
      var sent := member.sent + group.sent;
      assert sent[|sent| - 1] == group.sent[|group.sent| - 1];
    }
  }

  lemma {:induction false} MembershipTailExplained(s: Service, earlier: seq<Request>, listed: Run<Option<Record>>, mutation: Run<Response>)
    requires LookupsOnly(earlier) && LookupExplained(s, listed) && Explained(s, mutation)
    ensures Explained(s, After(earlier, AddUnlessListed(listed, mutation)))
    ensures Explained(s, After(earlier, RemoveIfListed(listed, mutation)))
  {
    match listed.result
    case Err(e) =>
      StopAfterLookup(s, listed, Err(e));
    case Ok(None) =>
      StopAfterLookup(s, listed, Ok(NotFound));
      AfterExplained(s, listed.sent, mutation);
    case Ok(Some(_)) =>
      StopAfterLookup(s, listed, Ok(NotChanged));
      AfterExplained(s, listed.sent, mutation);
    AfterExplained(s, earlier, AddUnlessListed(listed, mutation));
    AfterExplained(s, earlier, RemoveIfListed(listed, mutation));
  }

  lemma {:induction false} ByNameDeleteExplained(s: Service, found: Run<Option<Record>>, path: Path, run: Run<Response>)
    requires LookupExplained(s, found)
    requires found.result.Ok? && found.result.value.Some? ==> run == After(found.sent, Delete(s, path))
    requires !(found.result.Ok? && found.result.value.Some?) ==>
      run == Run(found.sent, match found.result case Err(e) => Err(e) case Ok(_) => Ok(NotFound))
    ensures Explained(s, run)
  {
    match found.result
    case Err(e) => StopAfterLookup(s, found, Err(e));
    case Ok(None) => StopAfterLookup(s, found, Ok(NotFound));
    case Ok(Some(_)) =>
      TransportExplained(s, path, JNull);
      AfterExplained(s, found.sent, Delete(s, path));
  }

  lemma DataSourceLookupExplained(s: Service, name: string)
    ensures LookupExplained(s, GetDataSourceByName(s, name))
  {
    GetExplained(s, DataSources);
    FindExplained(s, GetDataSources(s), ByName(name));
  }

  lemma UserLookupExplained(s: Service, name: string)
    ensures LookupExplained(s, GetUserByName(s, name))
  {
    GetUsersExplained(s, UserLookupPageSize, true, UserLookupOrder);
    FindExplained(s, GetUsers(s, UserLookupPageSize, true, UserLookupOrder), ByName(name));
  }

  lemma GroupLookupExplained(s: Service, name: string)
    ensures LookupExplained(s, GetGroupByName(s, name))
  {
    GetExplained(s, Groups);
    FindExplained(s, GetGroups(s), ByName(name));
  }

  lemma {:induction false} CreateExplained(s: Service, kind: string, name: string, options: Json)
    ensures Explained(s, CreateDataSource(s, kind, name, options))
    ensures Explained(s, CreateOrUpdateDatasource(s, kind, name, options))
  {
    var found := GetDataSourceByName(s, name);
    DataSourceLookupExplained(s, name);
    match found.result
    case Err(e) =>
      StopAfterLookup(s, found, Err(e));
    case Ok(Some(ds)) =>
      StopAfterLookup(s, found, Err(AlreadyExists(DataSourceKind, name)));
      var update := DataSourceUpdatePayload(ds.id, kind, name, options);
      TransportExplained(s, DataSource(ds.id), update);
      AfterExplained(s, found.sent, Post(s, DataSource(ds.id), update));
    case Ok(None) =>
      var payload := DataSourcePayload(kind, name, ObjectOrEmpty(options));
      TransportExplained(s, DataSources, payload);
      AfterExplained(s, found.sent, Post(s, DataSources, payload));
      AfterExplained(s, found.sent, CreateDataSource(s, kind, name, options));
  }

  lemma {:induction false} CreateGroupExplained(s: Service, name: string)
    ensures Explained(s, CreateGroup(s, name))
  {
    var found := GetGroupByName(s, name);
    GroupLookupExplained(s, name);
    match found.result
    case Err(e) =>
      StopAfterLookup(s, found, Err(e));
    case Ok(Some(_)) =>
      StopAfterLookup(s, found, Err(AlreadyExists(GroupKind, name)));
    case Ok(None) =>
      var payload := JObject(map["name" := JStr(name)]);
      TransportExplained(s, Groups, payload);
      AfterExplained(s, found.sent, Post(s, Groups, payload));
  }

  lemma {:induction false} UserMembershipExplained(s: Service, userName: string, groupName: string)
    ensures Explained(s, AddUserToGroup(s, userName, groupName))
    ensures Explained(s, DeleteUserFromGroup(s, userName, groupName))
  {
    UserLookupExplained(s, userName);
    var pair := ResolveWithGroup(s, GetUserByName(s, userName), UserKind, userName, groupName);
    ResolveWithGroupExplained(s, GetUserByName(s, userName), UserKind, userName, groupName);
    match pair.result
    case Err(e) =>
      StopAfterLookup(s, pair, Err(e));
    case Ok((user, group)) =>
      GetExplained(s, GroupMembers(group.id));
      var listed := Find(GetGroupUsersById(s, group.id), ById(user.id));
      FindExplained(s, GetGroupUsersById(s, group.id), ById(user.id));
      var add := Post(s, GroupMembers(group.id), JObject(map["user_id" := JInt(user.id)]));
      var remove := Delete(s, GroupMember(group.id, user.id));
      TransportExplained(s, GroupMembers(group.id), JObject(map["user_id" := JInt(user.id)]));
      TransportExplained(s, GroupMember(group.id, user.id), JNull);
      MembershipTailExplained(s, pair.sent, listed, add);
      MembershipTailExplained(s, pair.sent, listed, remove);
  }

  lemma {:induction false} DataSourceMembershipExplained(s: Service, dataSourceName: string, groupName: string)
    ensures Explained(s, AddDataSourceToGroup(s, dataSourceName, groupName))
    ensures Explained(s, DeleteDataSourceFromGroup(s, dataSourceName, groupName))
  {
    DataSourceLookupExplained(s, dataSourceName);
    var pair := ResolveWithGroup(s, GetDataSourceByName(s, dataSourceName), DataSourceKind, dataSourceName, groupName);
    ResolveWithGroupExplained(s, GetDataSourceByName(s, dataSourceName), DataSourceKind, dataSourceName, groupName);
    match pair.result
    case Err(e) =>
      StopAfterLookup(s, pair, Err(e));
    case Ok((ds, group)) =>
      GetExplained(s, GroupDataSources(group.id));
      var listed := Find(GetGroupDataSourcesById(s, group.id), ById(ds.id));
      FindExplained(s, GetGroupDataSourcesById(s, group.id), ById(ds.id));
      var add := Post(s, GroupDataSources(group.id), JObject(map["data_source_id" := JInt(ds.id)]));
      var remove := Delete(s, GroupDataSource(group.id, ds.id));
      TransportExplained(s, GroupDataSources(group.id), JObject(map["data_source_id" := JInt(ds.id)]));
      TransportExplained(s, GroupDataSource(group.id, ds.id), JNull);
      MembershipTailExplained(s, pair.sent, listed, add);
      MembershipTailExplained(s, pair.sent, listed, remove);
  }

  lemma {:induction false} DeleteByNameExplained(s: Service, name: string)
    ensures Explained(s, DeleteDataSource(s, name))
    ensures Explained(s, DeleteUser(s, name))
    ensures Explained(s, DeleteGroup(s, name))
  {
    DataSourceLookupExplained(s, name);
    UserLookupExplained(s, name);
    GroupLookupExplained(s, name);
    var ds, user, group := GetDataSourceByName(s, name), GetUserByName(s, name), GetGroupByName(s, name);
    ByNameDeleteExplained(s, ds, if ds.result.Ok? && ds.result.value.Some? then DataSource(ds.result.value.value.id) else DataSources, DeleteDataSource(s, name));
    ByNameDeleteExplained(s, user, if user.result.Ok? && user.result.value.Some? then User(user.result.value.value.id) else Users, DeleteUser(s, name));
    ByNameDeleteExplained(s, group, if group.result.Ok? && group.result.value.Some? then Group(group.result.value.value.id) else Groups, DeleteGroup(s, name));
  }

  /**
   * Every operation sends its lookups first and at most one POST or DELETE,
   * last; it returns the service's response only to that mutation, and
   * a fabricated response or AlreadyExists / EntityNotFound only when it sent
   * no mutation; a transport error describes the request the service refused.
   */
  lemma {:induction false} EveryOperationExplained(s: Service, op: Operation)
    ensures Explained(s, Perform(s, op))
  {
    match op
    case CreateDataSourceOp(k, n, o) => CreateExplained(s, k, n, o);
    case CreateOrUpdateDatasourceOp(k, n, o) => CreateExplained(s, k, n, o);
    case DeleteDataSourceOp(n) => DeleteByNameExplained(s, n);
    case CreateUserOp(n, e) => TransportExplained(s, Users, JObject(map["email" := JStr(e), "name" := JStr(n)]));
    case DeleteUserOp(n) => DeleteByNameExplained(s, n);
    case CreateGroupOp(n) => CreateGroupExplained(s, n);
    case DeleteGroupOp(n) => DeleteByNameExplained(s, n);
    case AddUserToGroupOp(u, g) => UserMembershipExplained(s, u, g);
    case DeleteUserFromGroupOp(u, g) => UserMembershipExplained(s, u, g);
    case AddDataSourceToGroupOp(d, g) => DataSourceMembershipExplained(s, d, g);
    case DeleteDataSourceFromGroupOp(d, g) => DataSourceMembershipExplained(s, d, g);
  }

  /** No operation sends more than one POST or DELETE, and the exceptions raised by the client itself and the fabricated responses come with none. */
  lemma AtMostOneMutation(s: Service, op: Operation)
    ensures var run := Perform(s, op);
      && |Mutations(run.sent)| <= 1
      && (run.result.Ok? && run.result.value.Synth? ==> Mutations(run.sent) == [])
      && (run.result.Err? && !run.result.error.TransportError? ==> Mutations(run.sent) == [])
  {
    EveryOperationExplained(s, op);
    MutationsOfExplained(s, Perform(s, op));
  }
}
