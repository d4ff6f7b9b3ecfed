/**
 * Repeated operations.  The client does not decide what the service lists
 * after it accepts a POST or a DELETE; these lemmas ASSUME the obvious
 * effect (a created record or membership is listed from then on, a deleted
 * one no longer is, everything else stays as it was) by building the
 * service's next state with `WithListing`, and prove what the client then
 * does on the second call.
 */
module Scenarios {
  import opened Optional
  import opened Json
  import opened Paths
  import opened Resolver
  import opened Http
  import opened Spec
  import opened Properties
  import opened Decisions

  /** The service, except that it now answers the listing request `req` with `l`. */
  function WithListing(s: Service, req: Request, l: seq<Record>): (s': Service)
    ensures s'.listing(req) == l
    ensures forall r :: r != req ==> s'.listing(r) == s.listing(r)
    ensures s'.status == s.status
  {
    Service(s.status, (r: Request) => if r == req then l else s.listing(r))
  }

  /** The listing without the records of id `id`, in the same order. */
  function RemoveId(l: seq<Record>, id: int): (r: seq<Record>)
    ensures forall x :: x in r <==> x in l && x.id != id
  {
    if l == [] then []
    else (if l[0].id == id then [] else [l[0]]) + RemoveId(l[1..], id)
  }

  // ---- resolution after a change ----

  /** Once the first record with a (unique) name is removed by id, nothing of that name is found. */
  lemma NameGoneAfterRemoval(l: seq<Record>, name: string)
    requires UniqueNames(l)
    requires FirstMatch(l, ByName(name)).Some?
    ensures FirstMatch(RemoveId(l, FirstMatch(l, ByName(name)).value.id), ByName(name)).None?
  {
    var r := FirstMatch(l, ByName(name)).value;
    var rest := RemoveId(l, r.id);
    forall i | 0 <= i < |rest|
      ensures rest[i].name != name
    {
      var x := rest[i];
      assert x in rest;
      if x.name == name {
        OnlyNameMatch(l, name, x);
      }
    }
  }

  /** Once the records of an id are removed, a scan for that id finds nothing. */
  lemma IdGoneAfterRemoval(l: seq<Record>, id: int)
    ensures FirstMatch(RemoveId(l, id), ById(id)).None?
  {
    var rest := RemoveId(l, id);
    forall i | 0 <= i < |rest|
      ensures rest[i].id != id
    {
      assert rest[i] in rest;
    }
  }

  /** A record appended to a listing with no earlier match is what the scan finds. */
  lemma FoundAfterAppend(l: seq<Record>, k: Key, r: Record)
    requires FirstMatch(l, k).None? && Matches(r, k)
    ensures FirstMatch(l + [r], k) == Some(r)
  {
    FirstMatchConcat(l, [r], k);
  }

  // ---- repeated deletes ----

  /**
   * Deleting an existing data source sends a DELETE and returns the service's
   * answer; once the service no longer lists it, deleting it again returns a
   * fabricated 404 after the listing request alone.
   */
  lemma DeleteDataSourceTwice(s: Service, name: string)
    requires IsOk(s.status(Listing(DataSources)))
    requires UniqueNames(s.listing(Listing(DataSources)))
    requires FirstMatch(s.listing(Listing(DataSources)), ByName(name)).Some?
    requires IsOkOrNoContent(s.status(DeleteRequest(DataSource(FirstMatch(s.listing(Listing(DataSources)), ByName(name)).value.id))))
    ensures var l := s.listing(Listing(DataSources));
      var ds := FirstMatch(l, ByName(name)).value;
      var first := DeleteDataSource(s, name);
      && first.sent == [Listing(DataSources), DeleteRequest(DataSource(ds.id))]
      && first.result == Ok(Remote(s.status(DeleteRequest(DataSource(ds.id)))))
      && DeleteDataSource(WithListing(s, Listing(DataSources), RemoveId(l, ds.id)), name) ==
           Run([Listing(DataSources)], Ok(NotFound))
  {
    NameGoneAfterRemoval(s.listing(Listing(DataSources)), name);
  }

  /** Deleting a group twice: the service's answer, then a fabricated 404. */
  lemma DeleteGroupTwice(s: Service, name: string)
    requires IsOk(s.status(Listing(Groups)))
    requires UniqueNames(s.listing(Listing(Groups)))
    requires FirstMatch(s.listing(Listing(Groups)), ByName(name)).Some?
    requires IsOkOrNoContent(s.status(DeleteRequest(Group(FirstMatch(s.listing(Listing(Groups)), ByName(name)).value.id))))
    ensures var l := s.listing(Listing(Groups));
      var g := FirstMatch(l, ByName(name)).value;
      var first := DeleteGroup(s, name);
      && first.sent == [Listing(Groups), DeleteRequest(Group(g.id))]
      && first.result == Ok(Remote(s.status(DeleteRequest(Group(g.id)))))
      && DeleteGroup(WithListing(s, Listing(Groups), RemoveId(l, g.id)), name) == Run([Listing(Groups)], Ok(NotFound))
  {
    NameGoneAfterRemoval(s.listing(Listing(Groups)), name);
  }

  /**
   * Deleting a user twice.  The name is resolved over active then pending
   * users, so the service's next state drops the user's id from both
   * listings; the second delete then returns a fabricated 404 after the two
   * listing requests alone.
   */
  lemma DeleteUserTwice(s: Service, name: string)
    requires IsOkOrNoContent(s.status(UsersListing(false))) && IsOkOrNoContent(s.status(UsersListing(true)))
    requires UniqueNames(AllUsers(s))
    requires FirstMatch(AllUsers(s), ByName(name)).Some?
    requires IsOkOrNoContent(s.status(DeleteRequest(User(FirstMatch(AllUsers(s), ByName(name)).value.id))))
    ensures var u := FirstMatch(AllUsers(s), ByName(name)).value;
      var first := DeleteUser(s, name);
      var s1 := WithListing(s, UsersListing(false), RemoveId(s.listing(UsersListing(false)), u.id));
      var s2 := WithListing(s1, UsersListing(true), RemoveId(s.listing(UsersListing(true)), u.id));
      && first.sent == [UsersListing(false), UsersListing(true), DeleteRequest(User(u.id))]
      && first.result == Ok(Remote(s.status(DeleteRequest(User(u.id)))))
      && DeleteUser(s2, name) == Run(UserLookups(), Ok(NotFound))
  {
    var all := AllUsers(s);
    var u := FirstMatch(all, ByName(name)).value;
    DeleteUserDecision(s, name);
    var s1 := WithListing(s, UsersListing(false), RemoveId(s.listing(UsersListing(false)), u.id));
    var s2 := WithListing(s1, UsersListing(true), RemoveId(s.listing(UsersListing(true)), u.id));
    var rest := AllUsers(s2);
    assert rest == RemoveId(s.listing(UsersListing(false)), u.id) + RemoveId(s.listing(UsersListing(true)), u.id);
    forall i | 0 <= i < |rest|
      ensures rest[i].name != name
    {
      var x := rest[i];
      assert x in all && x.id != u.id;
      if x.name == name {
        OnlyNameMatch(all, name, x);
      }
    }
    DeleteUserDecision(s2, name);
  }

  // ---- repeated creates ----

  /**
   * Creating a data source whose name is not listed sends the POST; once the
   * service lists the new record, looking the name up finds it, and creating
   * it again raises AlreadyExists after the listing request alone.
   */
  lemma CreateDataSourceTwice(s: Service, kind: string, name: string, options: Json, newId: int)
    requires IsOk(s.status(Listing(DataSources)))
    requires FirstMatch(s.listing(Listing(DataSources)), ByName(name)).None?
    ensures var s' := WithListing(s, Listing(DataSources), s.listing(Listing(DataSources)) + [Record(newId, name)]);
      && |Mutations(CreateDataSource(s, kind, name, options).sent)| == 1
      && GetDataSourceByName(s', name) == Run([Listing(DataSources)], Ok(Some(Record(newId, name))))
      && CreateDataSource(s', kind, name, options) == Run([Listing(DataSources)], Err(AlreadyExists(DataSourceKind, name)))
  {
    FoundAfterAppend(s.listing(Listing(DataSources)), ByName(name), Record(newId, name));
    CreateDataSourceDecision(s, kind, name, options);
  }

  /** Creating a group twice: one POST, then AlreadyExists with no mutation. */
  lemma CreateGroupTwice(s: Service, name: string, newId: int)
    requires IsOk(s.status(Listing(Groups)))
    requires FirstMatch(s.listing(Listing(Groups)), ByName(name)).None?
    ensures var s' := WithListing(s, Listing(Groups), s.listing(Listing(Groups)) + [Record(newId, name)]);
      && |Mutations(CreateGroup(s, name).sent)| == 1
      && GetGroupByName(s', name) == Run([Listing(Groups)], Ok(Some(Record(newId, name))))
      && CreateGroup(s', name) == Run([Listing(Groups)], Err(AlreadyExists(GroupKind, name)))
  {
    FoundAfterAppend(s.listing(Listing(Groups)), ByName(name), Record(newId, name));
    CreateGroupDecision(s, name);
  }

  /**
   * Create-or-update converges: whether the first call updated the record of
   * that name or created one the service then lists, the second call updates
   * that same id, with the second call's options.
   */
  lemma CreateOrUpdateConverges(s: Service, kind: string, name: string, options: Json, options': Json, newId: int)
    requires IsOk(s.status(Listing(DataSources)))
    ensures var l := s.listing(Listing(DataSources));
      var existing := FirstMatch(l, ByName(name));
      var id := if existing.Some? then existing.value.id else newId;
      var s' := if existing.Some? then s else WithListing(s, Listing(DataSources), l + [Record(newId, name)]);
      CreateOrUpdateDatasource(s', kind, name, options').sent ==
        [Listing(DataSources),
         PostRequest(DataSource(id), map["id" := JInt(id), "type" := JStr(kind), "name" := JStr(name), "options" := options'])]
  {
    var l := s.listing(Listing(DataSources));
    if FirstMatch(l, ByName(name)).None? {
      FoundAfterAppend(l, ByName(name), Record(newId, name));
      var s' := WithListing(s, Listing(DataSources), l + [Record(newId, name)]);
      CreateOrUpdateDecision(s', kind, name, options');
    } else {
      CreateOrUpdateDecision(s, kind, name, options');
    }
  }

  // ---- repeated membership changes ----

  /**
   * Adding a user who is not a member sends the POST; once the service lists
   * the membership, adding again answers "Not changed" and sends nothing
   * but lookups.  Removing a member sends the DELETE; once the service no
   * longer lists it, removing again answers a fabricated 404.
   */
  lemma UserMembershipTwice(s: Service, userName: string, groupName: string)
    requires IsOkOrNoContent(s.status(UsersListing(false))) && IsOkOrNoContent(s.status(UsersListing(true)))
    requires IsOk(s.status(Listing(Groups)))
    requires FirstMatch(AllUsers(s), ByName(userName)).Some?
    requires FirstMatch(s.listing(Listing(Groups)), ByName(groupName)).Some?
    requires IsOk(s.status(Listing(GroupMembers(FirstMatch(s.listing(Listing(Groups)), ByName(groupName)).value.id))))
    ensures var u := FirstMatch(AllUsers(s), ByName(userName)).value;
      var g := FirstMatch(s.listing(Listing(Groups)), ByName(groupName)).value;
      var members := s.listing(Listing(GroupMembers(g.id)));
      var lookups := UserLookups() + [Listing(Groups), Listing(GroupMembers(g.id))];
      && (FirstMatch(members, ById(u.id)).None? ==>
            AddUserToGroup(WithListing(s, Listing(GroupMembers(g.id)), members + [u]), userName, groupName) ==
              Run(lookups, Ok(NotChanged)))
      && DeleteUserFromGroup(WithListing(s, Listing(GroupMembers(g.id)), RemoveId(members, u.id)), userName, groupName) ==
           Run(lookups, Ok(NotFound))
  {
    var u := FirstMatch(AllUsers(s), ByName(userName)).value;
    var g := FirstMatch(s.listing(Listing(Groups)), ByName(groupName)).value;
    var members := s.listing(Listing(GroupMembers(g.id)));
    if FirstMatch(members, ById(u.id)).None? {
      FoundAfterAppend(members, ById(u.id), u);
      UserMembershipDecision(WithListing(s, Listing(GroupMembers(g.id)), members + [u]), userName, groupName);
    }
    IdGoneAfterRemoval(members, u.id);
    UserMembershipDecision(WithListing(s, Listing(GroupMembers(g.id)), RemoveId(members, u.id)), userName, groupName);
  }

  /** Granting and revoking a data source twice, as for users. */
  lemma DataSourceMembershipTwice(s: Service, dataSourceName: string, groupName: string)
    requires IsOk(s.status(Listing(DataSources))) && IsOk(s.status(Listing(Groups)))
    requires FirstMatch(s.listing(Listing(DataSources)), ByName(dataSourceName)).Some?
    requires FirstMatch(s.listing(Listing(Groups)), ByName(groupName)).Some?
    requires IsOk(s.status(Listing(GroupDataSources(FirstMatch(s.listing(Listing(Groups)), ByName(groupName)).value.id))))
    ensures var ds := FirstMatch(s.listing(Listing(DataSources)), ByName(dataSourceName)).value;
      var g := FirstMatch(s.listing(Listing(Groups)), ByName(groupName)).value;
      var granted := s.listing(Listing(GroupDataSources(g.id)));
      var lookups := [Listing(DataSources), Listing(Groups), Listing(GroupDataSources(g.id))];
      && (FirstMatch(granted, ById(ds.id)).None? ==>
            AddDataSourceToGroup(WithListing(s, Listing(GroupDataSources(g.id)), granted + [ds]), dataSourceName, groupName) ==
              Run(lookups, Ok(NotChanged)))
      && DeleteDataSourceFromGroup(WithListing(s, Listing(GroupDataSources(g.id)), RemoveId(granted, ds.id)), dataSourceName, groupName) ==
           Run(lookups, Ok(NotFound))
  {
    var ds := FirstMatch(s.listing(Listing(DataSources)), ByName(dataSourceName)).value;
    var g := FirstMatch(s.listing(Listing(Groups)), ByName(groupName)).value;
    var granted := s.listing(Listing(GroupDataSources(g.id)));
    if FirstMatch(granted, ById(ds.id)).None? {
      FoundAfterAppend(granted, ById(ds.id), ds);
      DataSourceMembershipDecision(WithListing(s, Listing(GroupDataSources(g.id)), granted + [ds]), dataSourceName, groupName);
    }
    IdGoneAfterRemoval(granted, ds.id);
    DataSourceMembershipDecision(WithListing(s, Listing(GroupDataSources(g.id)), RemoveId(granted, ds.id)), dataSourceName, groupName);
  }
}
