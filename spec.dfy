/**
 * What every operation of the client does, as a function of the answers the
 * service gives: the requests it sends, in order, and the response it returns
 * or the exception it raises.  The methods of `Client.RedashClient` are
 * proved to send exactly these requests and return exactly these results.
 */
module Spec {
  import opened Optional
  import opened Json
  import opened Paths
  import opened Resolver
  import opened Http

  /** The requests an operation sent, in order, and its outcome. */
  datatype Run<T> = Run(sent: seq<Request>, result: Result<T>)

  /** `get_user_by_name` lists users 250 per page, ordered by name. */
  const UserLookupPageSize := 250
  const UserLookupOrder := "name"

  /** `r`, preceded by the requests sent before it. */
  function After<T>(earlier: seq<Request>, r: Run<T>): Run<T> {
    Run(earlier + r.sent, r.result)
  }

  // ---- transport: `get`, `post`, `delete` ----

  function Get(s: Service, p: Path): Run<seq<Record>> {
    var req := GetRequest(p, NoQuery);
    var status := s.status(req);
    Run([req], if IsOk(status) then Ok(s.listing(req)) else Err(TransportError(GET, Uri(p), status)))
  }

  function Post(s: Service, p: Path, payload: Json): Run<Response> {
    var req := PostRequest(p, ObjectOrEmpty(payload).fields);
    var status := s.status(req);
    Run([req], if IsOk(status) then Ok(Remote(status)) else Err(TransportError(POST, Uri(p), status)))
  }

  function Delete(s: Service, p: Path): Run<Response> {
    var req := DeleteRequest(p);
    var status := s.status(req);
    Run([req], if IsOkOrNoContent(status) then Ok(Remote(status)) else Err(TransportError(DELETE, Uri(p), status)))
  }

  // ---- listings and name resolution ----

  /** The first record of a listing that matches `k`, once the listing has arrived. */
  function Find(listed: Run<seq<Record>>, k: Key): Run<Option<Record>> {
    Run(listed.sent, match listed.result
                     case Ok(l) => Ok(FirstMatch(l, k))
                     case Err(e) => Err(e))
  }

  function GetDataSources(s: Service): Run<seq<Record>> {
    Get(s, DataSources)
  }

  function GetDataSourceByName(s: Service, name: string): Run<Option<Record>> {
    Find(GetDataSources(s), ByName(name))
  }

  /** The active users, then (when `withPending`) the pending ones. */
  function GetUsers(s: Service, count: int, withPending: bool, order: string): Run<seq<Record>> {
    var active := GetRequest(Users, UserQuery(false, order, count));
    var status := s.status(active);
    if !IsOkOrNoContent(status) then
      Run([active], Err(TransportError(GET, Uri(Users), status)))
    else if !withPending then
      Run([active], Ok(s.listing(active)))
    else
      var pending := GetRequest(Users, UserQuery(true, order, count));
      var status' := s.status(pending);
      if !IsOkOrNoContent(status') then
        Run([active, pending], Err(TransportError(GET, Uri(Users), status')))
      else
        Run([active, pending], Ok(s.listing(active) + s.listing(pending)))
  }

  function GetUserByName(s: Service, name: string): Run<Option<Record>> {
    Find(GetUsers(s, UserLookupPageSize, true, UserLookupOrder), ByName(name))
  }

  function GetGroups(s: Service): Run<seq<Record>> {
    Get(s, Groups)
  }

  function GetGroupByName(s: Service, name: string): Run<Option<Record>> {
    Find(GetGroups(s), ByName(name))
  }

  function GetGroupUsersById(s: Service, id: int): Run<seq<Record>> {
    Get(s, GroupMembers(id))
  }

  function GetGroupDataSourcesById(s: Service, id: int): Run<seq<Record>> {
    Get(s, GroupDataSources(id))
  }

  // ---- data sources ----

  function DataSourcePayload(kind: string, name: string, options: Json): Json {
    JObject(map["type" := JStr(kind), "name" := JStr(name), "options" := options])
  }

  function DataSourceUpdatePayload(id: int, kind: string, name: string, options: Json): Json {
    JObject(map["id" := JInt(id), "type" := JStr(kind), "name" := JStr(name), "options" := options])
  }

  function CreateDataSource(s: Service, kind: string, name: string, options: Json): Run<Response> {
    var found := GetDataSourceByName(s, name);
    match found.result
    case Err(e) => Run(found.sent, Err(e))
    case Ok(Some(_)) => Run(found.sent, Err(AlreadyExists(DataSourceKind, name)))
    case Ok(None) => After(found.sent, Post(s, DataSources, DataSourcePayload(kind, name, ObjectOrEmpty(options))))
  }

  function CreateOrUpdateDatasource(s: Service, kind: string, name: string, options: Json): Run<Response> {
    var found := GetDataSourceByName(s, name);
    match found.result
    case Err(e) => Run(found.sent, Err(e))
    case Ok(None) => After(found.sent, CreateDataSource(s, kind, name, options))
    case Ok(Some(ds)) => After(found.sent, Post(s, DataSource(ds.id), DataSourceUpdatePayload(ds.id, kind, name, options)))
  }

  function DeleteDataSource(s: Service, name: string): Run<Response> {
    var found := GetDataSourceByName(s, name);
    match found.result
    case Err(e) => Run(found.sent, Err(e))
    case Ok(None) => Run(found.sent, Ok(NotFound))
    case Ok(Some(ds)) => After(found.sent, Delete(s, DataSource(ds.id)))
  }

  // ---- users ----

  function CreateUser(s: Service, name: string, email: string): Run<Response> {
    Post(s, Users, JObject(map["email" := JStr(email), "name" := JStr(name)]))
  }

  function DeleteUser(s: Service, name: string): Run<Response> {
    var found := GetUserByName(s, name);
    match found.result
    case Err(e) => Run(found.sent, Err(e))
    case Ok(None) => Run(found.sent, Ok(NotFound))
    case Ok(Some(user)) => After(found.sent, Delete(s, User(user.id)))
  }

  // ---- groups ----

  function CreateGroup(s: Service, name: string): Run<Response> {
    var found := GetGroupByName(s, name);
    match found.result
    case Err(e) => Run(found.sent, Err(e))
    case Ok(Some(_)) => Run(found.sent, Err(AlreadyExists(GroupKind, name)))
    case Ok(None) => After(found.sent, Post(s, Groups, JObject(map["name" := JStr(name)])))
  }

  function DeleteGroup(s: Service, name: string): Run<Response> {
    var found := GetGroupByName(s, name);
    match found.result
    case Err(e) => Run(found.sent, Err(e))
    case Ok(None) => Run(found.sent, Ok(NotFound))
    case Ok(Some(group)) => After(found.sent, Delete(s, Group(group.id)))
  }

  // ---- memberships ----

  /**
   * The member (a user or a data source) resolved first, then the group;
   * the first that is missing raises `EntityNotFound`.
   */
  function ResolveWithGroup(s: Service, member: Run<Option<Record>>, kind: Kind, name: string, groupName: string)
    : Run<(Record, Record)>
  {
    match member.result
    case Err(e) => Run(member.sent, Err(e))
    case Ok(None) => Run(member.sent, Err(EntityNotFound(kind, name)))
    case Ok(Some(m)) =>
      var group := GetGroupByName(s, groupName);
      var sent := member.sent + group.sent;
      match group.result
      case Err(e) => Run(sent, Err(e))
      case Ok(None) => Run(sent, Err(EntityNotFound(GroupKind, groupName)))
      case Ok(Some(g)) => Run(sent, Ok((m, g)))
  }

  /** `add`, unless the membership listing already shows the member. */
  function AddUnlessListed(listed: Run<Option<Record>>, add: Run<Response>): Run<Response> {
    match listed.result
    case Err(e) => Run(listed.sent, Err(e))
    case Ok(None) => After(listed.sent, add)
    case Ok(Some(_)) => Run(listed.sent, Ok(NotChanged))
  }

  /** `remove`, if the membership listing shows the member. */
  function RemoveIfListed(listed: Run<Option<Record>>, remove: Run<Response>): Run<Response> {
    match listed.result
    case Err(e) => Run(listed.sent, Err(e))
    case Ok(None) => Run(listed.sent, Ok(NotFound))
    case Ok(Some(_)) => After(listed.sent, remove)
  }

  function AddUserToGroup(s: Service, userName: string, groupName: string): Run<Response> {
    var pair := ResolveWithGroup(s, GetUserByName(s, userName), UserKind, userName, groupName);
    match pair.result
    case Err(e) => Run(pair.sent, Err(e))
    case Ok((user, group)) =>
      After(pair.sent, AddUnlessListed(Find(GetGroupUsersById(s, group.id), ById(user.id)),
                                       Post(s, GroupMembers(group.id), JObject(map["user_id" := JInt(user.id)]))))
  }

  function DeleteUserFromGroup(s: Service, userName: string, groupName: string): Run<Response> {
    var pair := ResolveWithGroup(s, GetUserByName(s, userName), UserKind, userName, groupName);
    match pair.result
    case Err(e) => Run(pair.sent, Err(e))
    case Ok((user, group)) =>
      After(pair.sent, RemoveIfListed(Find(GetGroupUsersById(s, group.id), ById(user.id)),
                                      Delete(s, GroupMember(group.id, user.id))))
  }

  function AddDataSourceToGroup(s: Service, dataSourceName: string, groupName: string): Run<Response> {
    var pair := ResolveWithGroup(s, GetDataSourceByName(s, dataSourceName), DataSourceKind, dataSourceName, groupName);
    match pair.result
    case Err(e) => Run(pair.sent, Err(e))
    case Ok((ds, group)) =>
      After(pair.sent, AddUnlessListed(Find(GetGroupDataSourcesById(s, group.id), ById(ds.id)),
                                       Post(s, GroupDataSources(group.id), JObject(map["data_source_id" := JInt(ds.id)]))))
  }

  function DeleteDataSourceFromGroup(s: Service, dataSourceName: string, groupName: string): Run<Response> {
    var pair := ResolveWithGroup(s, GetDataSourceByName(s, dataSourceName), DataSourceKind, dataSourceName, groupName);
    match pair.result
    case Err(e) => Run(pair.sent, Err(e))
    case Ok((ds, group)) =>
      After(pair.sent, RemoveIfListed(Find(GetGroupDataSourcesById(s, group.id), ById(ds.id)),
                                      Delete(s, GroupDataSource(group.id, ds.id))))
  }
}
