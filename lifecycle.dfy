/**
 * The lifecycles that the repository's integration tests walk through,
 * replayed on a `RedashClient` whose service answers are set between calls
 * the way the live service would change them.
 */
module Lifecycle {
  import opened Optional
  import opened Json
  import opened Paths
  import opened Resolver
  import opened Http
  import opened Client
  import Scenarios

  const DsName := "_datasource-test"
  const GroupName := "_group-test"

  /** A service that accepts every request (DELETE with `deleteStatus`) and lists `listed` for `listingReq`. */
  function Answering(listingReq: Request, listed: seq<Record>, deleteStatus: int): Service {
    Service((r: Request) => if r.DeleteRequest? then deleteStatus else 200,
            (r: Request) => if r == listingReq then listed else [])
  }

  /**
   * Create a data source, fail to create it again, find it by name, update
   * it in place, delete it (204) and delete it again (404).
   */
  method DataSourceLifecycle(id: int)
    returns (created: Result<Response>, duplicate: Result<Response>, found: Result<Option<Record>>,
             updated: Result<Response>, deleted: Result<Response>, deletedAgain: Result<Response>)
    ensures created == Ok(Remote(200))
    ensures duplicate == Err(AlreadyExists(DataSourceKind, DsName))
    ensures found == Ok(Some(Record(id, DsName)))
    ensures updated == Ok(Remote(200))
    ensures deleted == Ok(Remote(204)) && deletedAgain == Ok(NotFound)
  {
    var listing := GetRequest(DataSources, NoQuery);
    var options := JObject(map["dbname" := JStr("test_ds"), "port" := JInt(35432)]);
    var client := new RedashClient("put-your-key-here", Answering(listing, [], 204), "http://redash:5000");
    created := client.CreateDataSource("pg", DsName, options);
    assert client.session.calls[1] ==
      PostRequest(DataSources, map["type" := JStr("pg"), "name" := JStr(DsName), "options" := options]);

    client.session.service := Answering(listing, [Record(id, DsName)], 204);
    duplicate := client.CreateDataSource("pg", DsName, options);
    found := client.GetDataSourceByName(DsName);
    var n := |client.session.calls|;
    updated := client.CreateOrUpdateDatasource("pg", DsName, options);
    assert client.session.calls[n + 1].path == DataSource(id);

    deleted := client.DeleteDataSource(DsName);
    assert client.session.calls[n + 3] == DeleteRequest(DataSource(id));
    client.session.service := Scenarios.WithListing(client.session.service, listing, []);
    deletedAgain := client.DeleteDataSource(DsName);
  }

  /** Create a group, delete it (200 from this service) and delete it again (404). */
  method GroupLifecycle(id: int)
    returns (created: Result<Response>, deleted: Result<Response>, deletedAgain: Result<Response>)
    ensures created == Ok(Remote(200))
    ensures deleted == Ok(Remote(200)) && deletedAgain == Ok(NotFound)
  {
    var listing := GetRequest(Groups, NoQuery);
    var client := new RedashClient("put-your-key-here", Answering(listing, [], 200));
    created := client.CreateGroup(GroupName);
    assert client.session.calls == [listing, PostRequest(Groups, map["name" := JStr(GroupName)])];
    client.session.service := Answering(listing, [Record(id, GroupName)], 200);
    deleted := client.DeleteGroup(GroupName);
    assert client.session.calls[3] == DeleteRequest(Group(id));
    client.session.service := Answering(listing, [], 200);
    deletedAgain := client.DeleteGroup(GroupName);
  }
}
