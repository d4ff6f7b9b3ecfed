/**
 * What each operation decides once its lookups have been answered: which
 * request it sends, to which path and with which body, or which response it
 * fabricates or exception it raises instead.
 */
module Decisions {
  import opened Optional
  import opened Json
  import opened Paths
  import opened Resolver
  import opened Http
  import opened Spec
  import opened Properties

  function Listing(p: Path): Request {
    GetRequest(p, NoQuery)
  }

  function UsersListing(pending: bool): Request {
    GetRequest(Users, UserQuery(pending, UserLookupOrder, UserLookupPageSize))
  }

  // ---- transport ----

  /**
   * `get` and `post` succeed on 200 only, `delete` on 200 or 204; otherwise
   * each raises an error naming the method, the path and the status.  `post`
   * sends a payload that is not an object as the empty object.
   */
  lemma TransportAcceptance(s: Service, p: Path, payload: Json)
    ensures var st := s.status(Listing(p));
      Get(s, p) == Run([Listing(p)], if st == 200 then Ok(s.listing(Listing(p))) else Err(TransportError(GET, Uri(p), st)))
    ensures var req := PostRequest(p, ObjectOrEmpty(payload).fields); var st := s.status(req);
      Post(s, p, payload) == Run([req], if st == 200 then Ok(Remote(200)) else Err(TransportError(POST, Uri(p), st)))
    ensures var req := DeleteRequest(p); var st := s.status(req);
      Delete(s, p) == Run([req], if st == 200 || st == 204 then Ok(Remote(st)) else Err(TransportError(DELETE, Uri(p), st)))
    ensures !payload.JObject? ==> Post(s, p, payload).sent == [PostRequest(p, map[])]
  {
  }

  // ---- users listing ----

  /**
   * `get_users` lists active users first; with `with_pending` it appends the
   * pending users after them, otherwise it returns the active ones alone.
   * Each of the two fetches accepts 200 or 204; a refused active fetch raises
   * at once, before the pending users are requested.
   */
  lemma GetUsersDecision(s: Service, count: int, withPending: bool, order: string)
    ensures var active := GetRequest(Users, UserQuery(false, order, count));
      var pending := GetRequest(Users, UserQuery(true, order, count));
      var run := GetUsers(s, count, withPending, order);
      && run.sent[0] == active
      && (!withPending ==> run.sent == [active])
      && (withPending && IsOkOrNoContent(s.status(active)) ==> run.sent == [active, pending])
      && (run.result.Ok? <==>
            IsOkOrNoContent(s.status(active)) && (withPending ==> IsOkOrNoContent(s.status(pending))))
      && (run.result.Ok? ==>
            run.result.value == s.listing(active) + (if withPending then s.listing(pending) else []))
      && (!IsOkOrNoContent(s.status(active)) ==>
            run == Run([active], Err(TransportError(GET, Uri(Users), s.status(active)))))
      && (withPending && IsOkOrNoContent(s.status(active)) && !IsOkOrNoContent(s.status(pending)) ==>
            run.result == Err(TransportError(GET, Uri(Users), s.status(pending))))
  {
  }

  /** A user name that is both active and pending resolves to the active user. */
  lemma UserLookupPrefersActive(s: Service, name: string)
    requires IsOkOrNoContent(s.status(UsersListing(false))) && IsOkOrNoContent(s.status(UsersListing(true)))
    ensures var active := FirstMatch(s.listing(UsersListing(false)), ByName(name));
      GetUserByName(s, name) ==
        Run([UsersListing(false), UsersListing(true)],
            Ok(if active.Some? then active else FirstMatch(s.listing(UsersListing(true)), ByName(name))))
  {
    FirstMatchConcat(s.listing(UsersListing(false)), s.listing(UsersListing(true)), ByName(name));
  }

  // ---- creation ----

  /**
   * `create_data_source` sends one POST to `data_sources` with
   * `{type, name, options}` exactly when no listed data source has the name,
   * with options that are not an object replaced by `{}`; otherwise it
   * raises AlreadyExists having sent nothing but the listing request.
   */
  lemma CreateDataSourceDecision(s: Service, kind: string, name: string, options: Json)
    requires IsOk(s.status(Listing(DataSources)))
    ensures var existing := FirstMatch(s.listing(Listing(DataSources)), ByName(name));
      var run := CreateDataSource(s, kind, name, options);
      && (Mutations(run.sent) != [] <==> existing.None?)
      && (existing.None? ==>
            run.sent == [Listing(DataSources),
                         PostRequest(DataSources, map["type" := JStr(kind), "name" := JStr(name), "options" := ObjectOrEmpty(options)])])
      && (existing.Some? ==> run == Run([Listing(DataSources)], Err(AlreadyExists(DataSourceKind, name))))
  {
  }

  /** `create_group` sends one POST of `{name}` to `groups` exactly when no listed group has the name. */
  lemma CreateGroupDecision(s: Service, name: string)
    requires IsOk(s.status(Listing(Groups)))
    ensures var existing := FirstMatch(s.listing(Listing(Groups)), ByName(name));
      var run := CreateGroup(s, name);
      && (Mutations(run.sent) != [] <==> existing.None?)
      && (existing.None? ==> run.sent == [Listing(Groups), PostRequest(Groups, map["name" := JStr(name)])])
      && (existing.Some? ==> run == Run([Listing(Groups)], Err(AlreadyExists(GroupKind, name))))
  {
  }

  /** `create_user` does not look anything up: it always sends its one POST of `{email, name}`. */
  lemma CreateUserDecision(s: Service, name: string, email: string)
    ensures CreateUser(s, name, email).sent == [PostRequest(Users, map["email" := JStr(email), "name" := JStr(name)])]
  {
  }

  /**
   * `create_or_update_datasource` updates a listed data source of that name
   * by a POST to `data_sources/{id}` carrying the same id in its body and the
   * options as given; otherwise it hands over to `create_data_source`, which
   * lists again and creates.
   */
  lemma CreateOrUpdateDecision(s: Service, kind: string, name: string, options: Json)
    requires IsOk(s.status(Listing(DataSources)))
    ensures var run := CreateOrUpdateDatasource(s, kind, name, options);
      match FirstMatch(s.listing(Listing(DataSources)), ByName(name))
      case Some(ds) =>
        run.sent == [Listing(DataSources),
                     PostRequest(DataSource(ds.id),
                                 map["id" := JInt(ds.id), "type" := JStr(kind), "name" := JStr(name), "options" := options])]
      case None =>
        run.sent == [Listing(DataSources), Listing(DataSources),
                     PostRequest(DataSources, map["type" := JStr(kind), "name" := JStr(name), "options" := ObjectOrEmpty(options)])]
  {
  }

  /** Both lookups of `create_or_update_datasource` see the same listing, so it never raises AlreadyExists. */
  lemma CreateOrUpdateNeverAlreadyExists(s: Service, kind: string, name: string, options: Json)
    ensures var run := CreateOrUpdateDatasource(s, kind, name, options);
      !(run.result.Err? && run.result.error.AlreadyExists?)
  {
  }

  // ---- deletion by name ----

  /**
   * `delete_data_source` sends one DELETE to `data_sources/{id}` of the first
   * data source with the name and returns the service's answer to it; with
   * no such data source it returns a fabricated 404 and sends no DELETE.
   */
  lemma DeleteDataSourceDecision(s: Service, name: string)
    requires IsOk(s.status(Listing(DataSources)))
    ensures var run := DeleteDataSource(s, name);
      match FirstMatch(s.listing(Listing(DataSources)), ByName(name))
      case Some(ds) => run.sent == [Listing(DataSources), DeleteRequest(DataSource(ds.id))] &&
                       run.result == Delete(s, DataSource(ds.id)).result
      case None => run == Run([Listing(DataSources)], Ok(NotFound))
  {
  }

  /** `delete_group` does the same for `groups/{id}`. */
  lemma DeleteGroupDecision(s: Service, name: string)
    requires IsOk(s.status(Listing(Groups)))
    ensures var run := DeleteGroup(s, name);
      match FirstMatch(s.listing(Listing(Groups)), ByName(name))
      case Some(g) => run.sent == [Listing(Groups), DeleteRequest(Group(g.id))] &&
                      run.result == Delete(s, Group(g.id)).result
      case None => run == Run([Listing(Groups)], Ok(NotFound))
  {
  }

  /** `delete_user` resolves the name over active and then pending users, and deletes `users/{id}` of the first match. */
  lemma DeleteUserDecision(s: Service, name: string)
    requires IsOkOrNoContent(s.status(UsersListing(false))) && IsOkOrNoContent(s.status(UsersListing(true)))
    ensures var run := DeleteUser(s, name);
      var users := s.listing(UsersListing(false)) + s.listing(UsersListing(true));
      match FirstMatch(users, ByName(name))
      case Some(u) => run.sent == [UsersListing(false), UsersListing(true), DeleteRequest(User(u.id))] &&
                      run.result == Delete(s, User(u.id)).result
      case None => run == Run([UsersListing(false), UsersListing(true)], Ok(NotFound))
  {
  }

  // ---- memberships ----

  function UserLookups(): seq<Request> {
    [UsersListing(false), UsersListing(true)]
  }

  function AllUsers(s: Service): seq<Record> {
    s.listing(UsersListing(false)) + s.listing(UsersListing(true))
  }

  /**
   * The user is resolved before the group: a missing user raises
   * EntityNotFound before the groups are even listed, a missing group before
   * the membership listing is requested; neither sends a mutation.
   */
  lemma UserMembershipGuards(s: Service, userName: string, groupName: string)
    requires IsOkOrNoContent(s.status(UsersListing(false))) && IsOkOrNoContent(s.status(UsersListing(true)))
    ensures var add, del := AddUserToGroup(s, userName, groupName), DeleteUserFromGroup(s, userName, groupName);
      FirstMatch(AllUsers(s), ByName(userName)).None? ==>
        add == del == Run(UserLookups(), Err(EntityNotFound(UserKind, userName)))
    ensures var add, del := AddUserToGroup(s, userName, groupName), DeleteUserFromGroup(s, userName, groupName);
      FirstMatch(AllUsers(s), ByName(userName)).Some? && IsOk(s.status(Listing(Groups))) &&
      FirstMatch(s.listing(Listing(Groups)), ByName(groupName)).None? ==>
        add == del == Run(UserLookups() + [Listing(Groups)], Err(EntityNotFound(GroupKind, groupName)))
  {
  }

  /**
   * With both names resolved, `add_user_to_group` POSTs `{user_id}` to
   * `groups/{gid}/members` only when the user's id is not in the member
   * listing, and otherwise answers a fabricated 200 "Not changed";
   * `delete_user_from_group` DELETEs `groups/{gid}/members/{uid}` only when
   * the id is listed, and otherwise answers a fabricated 404.
   */
  lemma UserMembershipDecision(s: Service, userName: string, groupName: string)
    requires IsOkOrNoContent(s.status(UsersListing(false))) && IsOkOrNoContent(s.status(UsersListing(true)))
    requires IsOk(s.status(Listing(Groups)))
    requires FirstMatch(AllUsers(s), ByName(userName)).Some?
    requires FirstMatch(s.listing(Listing(Groups)), ByName(groupName)).Some?
    requires IsOk(s.status(Listing(GroupMembers(FirstMatch(s.listing(Listing(Groups)), ByName(groupName)).value.id))))
    ensures var u := FirstMatch(AllUsers(s), ByName(userName)).value;
      var g := FirstMatch(s.listing(Listing(Groups)), ByName(groupName)).value;
      var lookups := UserLookups() + [Listing(Groups), Listing(GroupMembers(g.id))];
      var listed := FirstMatch(s.listing(Listing(GroupMembers(g.id))), ById(u.id));
      var add, del := AddUserToGroup(s, userName, groupName), DeleteUserFromGroup(s, userName, groupName);
      && (listed.None? ==> add.sent == lookups + [PostRequest(GroupMembers(g.id), map["user_id" := JInt(u.id)])] &&
                           add.result == Post(s, GroupMembers(g.id), JObject(map["user_id" := JInt(u.id)])).result)
      && (listed.Some? ==> add == Run(lookups, Ok(NotChanged)))
      && (listed.Some? ==> del.sent == lookups + [DeleteRequest(GroupMember(g.id, u.id))] &&
                           del.result == Delete(s, GroupMember(g.id, u.id)).result)
      && (listed.None? ==> del == Run(lookups, Ok(NotFound)))
  {
  }

  /** The data source is resolved before the group, as for users. */
  lemma DataSourceMembershipGuards(s: Service, dataSourceName: string, groupName: string)
    requires IsOk(s.status(Listing(DataSources)))
    ensures var add, del := AddDataSourceToGroup(s, dataSourceName, groupName), DeleteDataSourceFromGroup(s, dataSourceName, groupName);
      FirstMatch(s.listing(Listing(DataSources)), ByName(dataSourceName)).None? ==>
        add == del == Run([Listing(DataSources)], Err(EntityNotFound(DataSourceKind, dataSourceName)))
    ensures var add, del := AddDataSourceToGroup(s, dataSourceName, groupName), DeleteDataSourceFromGroup(s, dataSourceName, groupName);
      FirstMatch(s.listing(Listing(DataSources)), ByName(dataSourceName)).Some? && IsOk(s.status(Listing(Groups))) &&
      FirstMatch(s.listing(Listing(Groups)), ByName(groupName)).None? ==>
        add == del == Run([Listing(DataSources), Listing(Groups)], Err(EntityNotFound(GroupKind, groupName)))
  {
  }

  /**
   * With both names resolved, `add_data_source_to_group` POSTs
   * `{data_source_id}` to `groups/{gid}/data_sources` only when the id is not
   * listed there, and `delete_data_source_from_group` DELETEs
   * `groups/{gid}/data_sources/{dsid}` only when it is.
   */
  lemma DataSourceMembershipDecision(s: Service, dataSourceName: string, groupName: string)
    requires IsOk(s.status(Listing(DataSources))) && IsOk(s.status(Listing(Groups)))
    requires FirstMatch(s.listing(Listing(DataSources)), ByName(dataSourceName)).Some?
    requires FirstMatch(s.listing(Listing(Groups)), ByName(groupName)).Some?
    requires IsOk(s.status(Listing(GroupDataSources(FirstMatch(s.listing(Listing(Groups)), ByName(groupName)).value.id))))
    ensures var ds := FirstMatch(s.listing(Listing(DataSources)), ByName(dataSourceName)).value;
      var g := FirstMatch(s.listing(Listing(Groups)), ByName(groupName)).value;
      var lookups := [Listing(DataSources), Listing(Groups), Listing(GroupDataSources(g.id))];
      var listed := FirstMatch(s.listing(Listing(GroupDataSources(g.id))), ById(ds.id));
      var add, del := AddDataSourceToGroup(s, dataSourceName, groupName), DeleteDataSourceFromGroup(s, dataSourceName, groupName);
      && (listed.None? ==> add.sent == lookups + [PostRequest(GroupDataSources(g.id), map["data_source_id" := JInt(ds.id)])] &&
                           add.result == Post(s, GroupDataSources(g.id), JObject(map["data_source_id" := JInt(ds.id)])).result)
      && (listed.Some? ==> add == Run(lookups, Ok(NotChanged)))
      && (listed.Some? ==> del.sent == lookups + [DeleteRequest(GroupDataSource(g.id, ds.id))] &&
                           del.result == Delete(s, GroupDataSource(g.id, ds.id)).result)
      && (listed.None? ==> del == Run(lookups, Ok(NotFound)))
  {
  }
}
