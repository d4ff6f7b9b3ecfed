/**
 * The client object.  `Session` stands for the HTTP session: it forwards a
 * request to the service and records it in `calls`.  `RedashClient` has one
 * method per method of the Python class; each appends to the log exactly the
 * requests of the matching `Spec` function and returns exactly its result.
 */
module Client {
  import opened Optional
  import opened Json
  import opened Paths
  import opened Resolver
  import opened Http
  import Spec

  class Session {
    /** The answers of the remote service; the client never changes them. */
    var service: Service
    /** Every request sent through this session, oldest first. */
    var calls: seq<Request>

    constructor (service: Service)
      ensures this.service == service && calls == []
    {
      this.service := service;
      calls := [];
    }

    method Send(req: Request) returns (status: int, records: seq<Record>)
      modifies this`calls
      ensures calls == old(calls) + [req]
      ensures status == service.status(req) && records == service.listing(req)
    {
      calls := calls + [req];
      status := service.status(req);
      records := service.listing(req);
    }
  }

  class RedashClient {
    const apiKey: string
    const host: string
    const session: Session

    constructor (apiKey: string, service: Service, host: string := "http://localhost:5000")
      ensures this.apiKey == apiKey && this.host == host
      ensures fresh(session) && session.service == service && session.calls == []
    {
      this.apiKey := apiKey;
      this.host := host;
      session := new Session(service);
    }

    // ---- transport ----

    method Get(p: Path) returns (r: Result<seq<Record>>)
      modifies session`calls
      ensures var run := Spec.Get(session.service, p);
        session.calls == old(session.calls) + run.sent && r == run.result
    {
      var status, records := session.Send(GetRequest(p, NoQuery));
      if !IsOk(status) {
        return Err(TransportError(GET, Uri(p), status));
      }
      r := Ok(records);
    }

    method Post(p: Path, payload: Json := JNull) returns (r: Result<Response>)
      modifies session`calls
      ensures var run := Spec.Post(session.service, p, payload);
        session.calls == old(session.calls) + run.sent && r == run.result
    {
      var body := ObjectOrEmpty(payload);
      var status, _ := session.Send(PostRequest(p, body.fields));
      if !IsOk(status) {
        return Err(TransportError(POST, Uri(p), status));
      }
      r := Ok(Remote(status));
    }

    method Delete(p: Path) returns (r: Result<Response>)
      modifies session`calls
      ensures var run := Spec.Delete(session.service, p);
        session.calls == old(session.calls) + run.sent && r == run.result
    {
      var status, _ := session.Send(DeleteRequest(p));
      if !IsOkOrNoContent(status) {
        return Err(TransportError(DELETE, Uri(p), status));
      }
      r := Ok(Remote(status));
    }

    // ---- listings and name resolution ----

    method GetDataSources() returns (r: Result<seq<Record>>)
      modifies session`calls
      ensures var run := Spec.GetDataSources(session.service);
        session.calls == old(session.calls) + run.sent && r == run.result
    {
      r := Get(DataSources);
    }

    method GetDataSourceByName(name: string) returns (r: Result<Option<Record>>)
      modifies session`calls
      ensures var run := Spec.GetDataSourceByName(session.service, name);
        session.calls == old(session.calls) + run.sent && r == run.result
    {
      var listed := GetDataSources();
      if listed.Err? {
        return Err(listed.error);
      }
      r := Ok(FirstMatch(listed.value, ByName(name)));
    }

    method GetUsers(count: int := 250, withPending: bool := true, sortOrder: string := "name")
      returns (r: Result<seq<Record>>)
      modifies session`calls
      ensures var run := Spec.GetUsers(session.service, count, withPending, sortOrder);
        session.calls == old(session.calls) + run.sent && r == run.result
    {
      var status, records := session.Send(GetRequest(Users, UserQuery(false, sortOrder, count)));
      if !IsOkOrNoContent(status) {
        return Err(TransportError(GET, Uri(Users), status));
      }
      var allUsers := records;
      if withPending {
        status, records := session.Send(GetRequest(Users, UserQuery(true, sortOrder, count)));
        if !IsOkOrNoContent(status) {
          return Err(TransportError(GET, Uri(Users), status));
        }
        allUsers := allUsers + records;
      }
      r := Ok(allUsers);
    }

    method GetUserByName(name: string) returns (r: Result<Option<Record>>)
      modifies session`calls
      ensures var run := Spec.GetUserByName(session.service, name);
        session.calls == old(session.calls) + run.sent && r == run.result
    {
      var listed := GetUsers(count := Spec.UserLookupPageSize);
      if listed.Err? {
        return Err(listed.error);
      }
      r := Ok(FirstMatch(listed.value, ByName(name)));
    }

    method GetGroups() returns (r: Result<seq<Record>>)
      modifies session`calls
      ensures var run := Spec.GetGroups(session.service);
        session.calls == old(session.calls) + run.sent && r == run.result
    {
      r := Get(Groups);
    }

    method GetGroupByName(name: string) returns (r: Result<Option<Record>>)
      modifies session`calls
      ensures var run := Spec.GetGroupByName(session.service, name);
        session.calls == old(session.calls) + run.sent && r == run.result
    {
      var listed := GetGroups();
      if listed.Err? {
        return Err(listed.error);
      }
      r := Ok(FirstMatch(listed.value, ByName(name)));
    }

    method GetGroupUsersById(id: int) returns (r: Result<seq<Record>>)
      modifies session`calls
      ensures var run := Spec.GetGroupUsersById(session.service, id);
        session.calls == old(session.calls) + run.sent && r == run.result
    {
      r := Get(GroupMembers(id));
    }

    method GetGroupDataSourcesById(id: int) returns (r: Result<seq<Record>>)
      modifies session`calls
      ensures var run := Spec.GetGroupDataSourcesById(session.service, id);
        session.calls == old(session.calls) + run.sent && r == run.result
    {
      r := Get(GroupDataSources(id));
    }

    // ---- data sources ----

    method CreateDataSource(kind: string, name: string, options: Json := JNull) returns (r: Result<Response>)
      modifies session`calls
      ensures var run := Spec.CreateDataSource(session.service, kind, name, options);
        session.calls == old(session.calls) + run.sent && r == run.result
    {
      var found := GetDataSourceByName(name);
      if found.Err? {
        return Err(found.error);
      }
      if found.value.Some? {
        return Err(AlreadyExists(DataSourceKind, name));
      }
      r := Post(DataSources, Spec.DataSourcePayload(kind, name, ObjectOrEmpty(options)));
    }

    method CreateOrUpdateDatasource(kind: string, name: string, options: Json := JNull) returns (r: Result<Response>)
      modifies session`calls
      ensures var run := Spec.CreateOrUpdateDatasource(session.service, kind, name, options);
        session.calls == old(session.calls) + run.sent && r == run.result
    {
      var found := GetDataSourceByName(name);
      if found.Err? {
        return Err(found.error);
      }
      match found.value
      case None =>
        r := CreateDataSource(kind, name, options);
      case Some(ds) =>
        r := Post(DataSource(ds.id), Spec.DataSourceUpdatePayload(ds.id, kind, name, options));
    }

    method DeleteDataSource(name: string) returns (r: Result<Response>)
      modifies session`calls
      ensures var run := Spec.DeleteDataSource(session.service, name);
        session.calls == old(session.calls) + run.sent && r == run.result
    {
      var found := GetDataSourceByName(name);
      if found.Err? {
        return Err(found.error);
      }
      match found.value
      case Some(ds) =>
        r := Delete(DataSource(ds.id));
      case None =>
        r := Ok(NotFound);
    }

    // ---- users ----

    method CreateUser(name: string, email: string) returns (r: Result<Response>)
      modifies session`calls
      ensures var run := Spec.CreateUser(session.service, name, email);
        session.calls == old(session.calls) + run.sent && r == run.result
    {
      r := Post(Users, JObject(map["email" := JStr(email), "name" := JStr(name)]));
    }

    method DeleteUser(name: string) returns (r: Result<Response>)
      modifies session`calls
      ensures var run := Spec.DeleteUser(session.service, name);
        session.calls == old(session.calls) + run.sent && r == run.result
    {
      var found := GetUserByName(name);
      if found.Err? {
        return Err(found.error);
      }
      match found.value
      case Some(user) =>
        r := Delete(User(user.id));
      case None =>
        r := Ok(NotFound);
    }

    // ---- groups ----

    method CreateGroup(name: string) returns (r: Result<Response>)
      modifies session`calls
      ensures var run := Spec.CreateGroup(session.service, name);
        session.calls == old(session.calls) + run.sent && r == run.result
    {
      var found := GetGroupByName(name);
      if found.Err? {
        return Err(found.error);
      }
      if found.value.Some? {
        return Err(AlreadyExists(GroupKind, name));
      }
      r := Post(Groups, JObject(map["name" := JStr(name)]));
    }

    method DeleteGroup(name: string) returns (r: Result<Response>)
      modifies session`calls
      ensures var run := Spec.DeleteGroup(session.service, name);
        session.calls == old(session.calls) + run.sent && r == run.result
    {
      var found := GetGroupByName(name);
      if found.Err? {
        return Err(found.error);
      }
      match found.value
      case Some(group) =>
        r := Delete(Group(group.id));
      case None =>
        r := Ok(NotFound);
    }

    // ---- memberships ----

    method AddUserToGroup(userName: string, groupName: string) returns (r: Result<Response>)
      modifies session`calls
      ensures var run := Spec.AddUserToGroup(session.service, userName, groupName);
        session.calls == old(session.calls) + run.sent && r == run.result
    {
      var user := GetUserByName(userName);
      if user.Err? {
        return Err(user.error);
      }
      if user.value.None? {
        return Err(EntityNotFound(UserKind, userName));
      }
      var group := GetGroupByName(groupName);
      if group.Err? {
        return Err(group.error);
      }
      if group.value.None? {
        return Err(EntityNotFound(GroupKind, groupName));
      }
      var uid, gid := user.value.value.id, group.value.value.id;
      var members := GetGroupUsersById(gid);
      if members.Err? {
        return Err(members.error);
      }
      if FirstMatch(members.value, ById(uid)).None? {
        r := Post(GroupMembers(gid), JObject(map["user_id" := JInt(uid)]));
      } else {
        r := Ok(NotChanged);
      }
    }

    method DeleteUserFromGroup(userName: string, groupName: string) returns (r: Result<Response>)
      modifies session`calls
      ensures var run := Spec.DeleteUserFromGroup(session.service, userName, groupName);
        session.calls == old(session.calls) + run.sent && r == run.result
    {
      var user := GetUserByName(userName);
      if user.Err? {
        return Err(user.error);
      }
      if user.value.None? {
        return Err(EntityNotFound(UserKind, userName));
      }
      var group := GetGroupByName(groupName);
      if group.Err? {
        return Err(group.error);
      }
      if group.value.None? {
        return Err(EntityNotFound(GroupKind, groupName));
      }
      var uid, gid := user.value.value.id, group.value.value.id;
      var members := GetGroupUsersById(gid);
      if members.Err? {
        return Err(members.error);
      }
      if FirstMatch(members.value, ById(uid)).Some? {
        r := Delete(GroupMember(gid, uid));
      } else {
        r := Ok(NotFound);
      }
    }

    method AddDataSourceToGroup(dataSourceName: string, groupName: string) returns (r: Result<Response>)
      modifies session`calls
      ensures var run := Spec.AddDataSourceToGroup(session.service, dataSourceName, groupName);
        session.calls == old(session.calls) + run.sent && r == run.result
    {
      var ds := GetDataSourceByName(dataSourceName);
      if ds.Err? {
        return Err(ds.error);
      }
      if ds.value.None? {
        return Err(EntityNotFound(DataSourceKind, dataSourceName));
      }
      var group := GetGroupByName(groupName);
      if group.Err? {
        return Err(group.error);
      }
      if group.value.None? {
        return Err(EntityNotFound(GroupKind, groupName));
      }
      var dsid, gid := ds.value.value.id, group.value.value.id;
      var granted := GetGroupDataSourcesById(gid);
      if granted.Err? {
        return Err(granted.error);
      }
      if FirstMatch(granted.value, ById(dsid)).None? {
        r := Post(GroupDataSources(gid), JObject(map["data_source_id" := JInt(dsid)]));
      } else {
        r := Ok(NotChanged);
      }
    }

    method DeleteDataSourceFromGroup(dataSourceName: string, groupName: string) returns (r: Result<Response>)
      modifies session`calls
      ensures var run := Spec.DeleteDataSourceFromGroup(session.service, dataSourceName, groupName);
        session.calls == old(session.calls) + run.sent && r == run.result
    {
      var ds := GetDataSourceByName(dataSourceName);
      if ds.Err? {
        return Err(ds.error);
      }
      if ds.value.None? {
        return Err(EntityNotFound(DataSourceKind, dataSourceName));
      }
      var group := GetGroupByName(groupName);
      if group.Err? {
        return Err(group.error);
      }
      if group.value.None? {
        return Err(EntityNotFound(GroupKind, groupName));
      }
      var dsid, gid := ds.value.value.id, group.value.value.id;
      var granted := GetGroupDataSourcesById(gid);
      if granted.Err? {
        return Err(granted.error);
      }
      if FirstMatch(granted.value, ById(dsid)).Some? {
        r := Delete(GroupDataSource(gid, dsid));
      } else {
        r := Ok(NotFound);
      }
    }
  }
}
