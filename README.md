# Redash API client: reconciliation layer

This project models the decision logic of `RedashAPIClient`, the Python client for the
administrative REST API of the Redash BI service. Each public operation does three things:

1. It lists data sources, users, groups, group members or group data sources.
2. It picks the first listed record whose `name` matches, or whose `id` matches for
   membership checks.
3. It then does exactly one of these:
   - raises `AlreadyExistsException` or `EntityNotFoundException`;
   - returns a fabricated response (404, or 200 `{"msg": "Not changed"}`);
   - sends a single POST or DELETE to a path built from the resolved id.

The remote service is an abstract collaborator, `Http.Service`. For every request it gives
the status code it answers with and the records that the answer lists. Given those
answers, the model says exactly which requests each operation sends, in which order, to
which path, with which body, and what it returns or raises.

Layout, one module per file:

- `optional.dfy`, `json.dfy`: `Option`, and the JSON values sent as bodies. `ObjectOrEmpty`
  is the `{}` defaulting that `post` and `create_data_source` apply.
- `decimal.dfy`: `str(int)` for ids, and its inverse.
- `paths.dfy`: the API paths. `Uri` is their text after `/api/`, as the client formats it.
  `ParseUri` inverts it.
- `resolver.dfy`: `Record(id, name)` and `FirstMatch`. `FirstMatch` models the
  `next((x for x in listing if ...), None)` scans.
- `http.dfy`: requests, the two kinds of response (`Remote` from the service, `Synth`
  fabricated by the client), the client's exceptions, `Result` and `Service`.
- `spec.dfy`: one function per client operation, giving `Run(sent, result)`. `sent` is the
  requests issued, in order. `result` is what the operation returns or raises.
- `client.dfy`: the imperative client.
  - `Session` stands for the HTTP session. It forwards a request to the service and
    appends it to its `calls` log.
  - `RedashClient` has one method per Python method. Each method is proved to append
    exactly the requests of its `Spec` function to `session.calls` and to return its
    result.
- `properties.dfy`: properties shared by all operations.
  - Lookups come first.
  - At most one POST or DELETE is sent, and it is the last request.
  - Fabricated responses and client-side exceptions come with no mutation.
  - Transport errors name the refused request.
- `decisions.dfy`: what each operation decides once its lookups are answered.
- `scenarios.dfy`: repeated calls, such as delete twice or add twice. These lemmas ASSUME
  what the service lists after it accepts a mutation (`WithListing`, `RemoveId`). They
  state that assumption explicitly, because the client code does not decide it.
- `lifecycle.dfy`: the data source and group lifecycles from the repository's integration
  tests, replayed on a `RedashClient`.

Two details follow the code where a reader might expect otherwise:

- `get_users` accepts 204 as well as 200 on both of its fetches.
- The update branch of `create_or_update_datasource` sends `options` exactly as given. It
  sends `null` when none is given. Only `create_data_source` replaces a missing or
  non-object value with `{}`.

## Model

| member | source | states |
|---|---|---|
| `Resolver.FirstMatch` | redashAPI/client.py:72-73 | returns a listed record that matches the key and has no match before it; returns None exactly when no listed record matches |
| `Resolver.FirstMatchConcat` | redashAPI/client.py:111-124 | scanning active users followed by pending users finds a match among the active ones first, and a pending one only when no active user matches |
| `Json.ObjectOrEmpty` | redashAPI/client.py:31-33 | a payload that is not a JSON object becomes the empty object; an object is kept unchanged |
| `Decimal.ParseShow` | redashAPI/client.py:92 | the id written into a path reads back as the same integer, negative ids included |
| `Decimal.ShowInjective` | redashAPI/client.py:129 | distinct ids are written as distinct text |
| `Paths.UriRoundTrip` | redashAPI/client.py:186 | every path the client formats, such as `groups/{gid}/members/{uid}`, parses back to the same resource and ids |
| `Paths.UriInjective` | redashAPI/client.py:216 | two different paths never render to the same text, so the path of a DELETE or POST determines its target ids |
| `Client.Session.constructor` | redashAPI/client.py:20 | a new session has sent nothing and reaches the given service |
| `Client.Session.Send` | redashAPI/client.py:24 | appends the request to the log and returns the service's status and listing for it |
| `Client.RedashClient.constructor` | redashAPI/client.py:16-21 | keeps the key and host (default `http://localhost:5000`); its fresh session has sent nothing |
| `Client.RedashClient.Get` | redashAPI/client.py:23-29 | sends one GET and returns the listing on 200; any other status gives TransportError(GET, path, status) |
| `Client.RedashClient.Post` | redashAPI/client.py:31-43 | sends one POST whose body is the payload, or `{}` when the payload is missing or not an object; it succeeds only on 200 |
| `Client.RedashClient.Delete` | redashAPI/client.py:45-51 | sends one DELETE; succeeds on 200 or 204 with the service's status, otherwise TransportError(DELETE, path, status) |
| `Client.RedashClient.GetDataSources` | redashAPI/client.py:68-70 | one GET of `data_sources`, returning its listing |
| `Client.RedashClient.GetDataSourceByName` | redashAPI/client.py:72-73 | one GET of `data_sources`, then the first record with that name, or None |
| `Client.RedashClient.GetUsers` | redashAPI/client.py:104-120 | GET of active users, then with `with_pending` a GET of pending users. Either fetch accepts 200 or 204. Returns active then pending users, in order |
| `Client.RedashClient.GetUserByName` | redashAPI/client.py:122-124 | lists users 250 per page with pending included, and returns the first name match |
| `Client.RedashClient.GetGroups` | redashAPI/client.py:141-142 | one GET of `groups`, returning its listing |
| `Client.RedashClient.GetGroupByName` | redashAPI/client.py:144-145 | one GET of `groups`, then the first record with that name, or None |
| `Client.RedashClient.GetGroupUsersById` | redashAPI/client.py:147-148 | one GET of `groups/{id}/members` |
| `Client.RedashClient.GetGroupDataSourcesById` | redashAPI/client.py:150-151 | one GET of `groups/{id}/data_sources` |
| `Client.RedashClient.CreateDataSource` | redashAPI/client.py:53-66 | lookup by name. If found, raises AlreadyExists. Otherwise sends a POST of `{type, name, options}` to `data_sources`, with `{}` for options that are not an object |
| `Client.RedashClient.CreateOrUpdateDatasource` | redashAPI/client.py:75-87 | lookup by name. If found, POST to `data_sources/{id}` with the id in the body and options as given. Otherwise hands over to CreateDataSource |
| `Client.RedashClient.DeleteDataSource` | redashAPI/client.py:89-95 | lookup by name. If found, DELETE `data_sources/{id}` and return the service's answer. Otherwise a fabricated 404 |
| `Client.RedashClient.CreateUser` | redashAPI/client.py:97-102 | one POST of `{email, name}` to `users`, with no lookup |
| `Client.RedashClient.DeleteUser` | redashAPI/client.py:126-132 | user lookup. If found, DELETE `users/{id}`. Otherwise a fabricated 404 |
| `Client.RedashClient.CreateGroup` | redashAPI/client.py:134-139 | lookup by name. If found, raises AlreadyExists. Otherwise a POST of `{name}` to `groups` |
| `Client.RedashClient.DeleteGroup` | redashAPI/client.py:153-159 | lookup by name. If found, DELETE `groups/{id}`. Otherwise a fabricated 404 |
| `Client.RedashClient.AddUserToGroup` | redashAPI/client.py:161-175 | resolves the user, then the group, then lists the members. POSTs `{user_id}` if absent, else a fabricated 200 "Not changed" |
| `Client.RedashClient.DeleteUserFromGroup` | redashAPI/client.py:177-189 | resolves the user, then the group, then lists the members. DELETEs `groups/{gid}/members/{uid}` if present, else a fabricated 404 |
| `Client.RedashClient.AddDataSourceToGroup` | redashAPI/client.py:191-205 | resolves the data source, then the group, then lists the group's data sources. POSTs `{data_source_id}` if absent, else "Not changed" |
| `Client.RedashClient.DeleteDataSourceFromGroup` | redashAPI/client.py:207-219 | resolves the data source, then the group, then lists the group's data sources. DELETEs `groups/{gid}/data_sources/{dsid}` if present, else a fabricated 404 |
| `Properties.EveryOperationExplained` | redashAPI/client.py:53-219 | see the list below the table |
| `Properties.AtMostOneMutation` | redashAPI/client.py:53-219 | no operation sends more than one POST or DELETE; AlreadyExists, EntityNotFound and fabricated responses come with none |
| `Decisions.TransportAcceptance` | redashAPI/client.py:23-51 | `get`/`post` accept 200 only and `delete` 200 or 204. Errors carry method, path and status. A non-object payload is sent as `{}` |
| `Decisions.GetUsersDecision` | redashAPI/client.py:104-120 | active users are fetched first. A refused active fetch raises `[GET] /api/users (status)` at once and the pending users are never requested. Without `with_pending` the result is exactly the active listing. With it, active followed by pending, and a refused pending fetch raises the same error with that fetch's status. Each fetch accepts 200 or 204 |
| `Decisions.UserLookupPrefersActive` | redashAPI/client.py:122-124 | a user name found among the active users resolves to the active record even if a pending user has it too |
| `Decisions.CreateDataSourceDecision` | redashAPI/client.py:53-66 | exactly one POST, with body `{type, name, options or {}}`, iff no listed data source has the name. Otherwise AlreadyExists after the listing request alone |
| `Decisions.CreateGroupDecision` | redashAPI/client.py:134-139 | exactly one POST of `{name}` iff no listed group has the name; otherwise AlreadyExists and no mutation |
| `Decisions.CreateUserDecision` | redashAPI/client.py:97-102 | create_user sends its POST without any lookup |
| `Decisions.CreateOrUpdateDecision` | redashAPI/client.py:75-87 | see the list below the table |
| `Decisions.CreateOrUpdateNeverAlreadyExists` | redashAPI/client.py:75-78 | both lookups see the same listing, so create_or_update_datasource never raises AlreadyExists |
| `Decisions.DeleteDataSourceDecision` | redashAPI/client.py:89-95 | needs only the data source listing to be accepted. If the name is listed, one DELETE to `data_sources/{id}` of the first match, returning the service's answer. Otherwise a fabricated 404 after the listing request alone |
| `Decisions.DeleteGroupDecision` | redashAPI/client.py:153-159 | needs only the groups listing to be accepted. If the name is listed, one DELETE to `groups/{id}` of the first match, returning the service's answer. Otherwise a fabricated 404 after the listing request alone |
| `Decisions.DeleteUserDecision` | redashAPI/client.py:126-132 | DELETE of `users/{id}` for the first name match over active-then-pending users, else a fabricated 404 |
| `Decisions.UserMembershipGuards` | redashAPI/client.py:161-167 | see the list below the table |
| `Decisions.UserMembershipDecision` | redashAPI/client.py:168-189 | see the list below the table |
| `Decisions.DataSourceMembershipGuards` | redashAPI/client.py:191-197 | the same guard order for data sources: data source first, then the group |
| `Decisions.DataSourceMembershipDecision` | redashAPI/client.py:198-219 | POST `{data_source_id}` only when the id is not in the group's data source listing, otherwise "Not changed"; DELETE only when it is listed, otherwise 404 |
| `Scenarios.NameGoneAfterRemoval` | redashAPI/client.py:89-95 | when names are unique, removing the first name match by id leaves no record with that name |
| `Scenarios.IdGoneAfterRemoval` | redashAPI/client.py:185-189 | removing the records of an id leaves nothing for an id scan to find |
| `Scenarios.FoundAfterAppend` | redashAPI/client.py:144-145 | a record appended to a listing with no earlier match is what the first-match scan returns |
| `Scenarios.DeleteDataSourceTwice` | redashAPI/test_client.py:62-68 | deleting an existing data source returns the service's 200/204 answer. Once it is no longer listed, the second delete returns a fabricated 404 after the listing request alone |
| `Scenarios.DeleteGroupTwice` | redashAPI/test_client.py:76-82 | the same for groups: the service's answer, then a fabricated 404 |
| `Scenarios.DeleteUserTwice` | redashAPI/client.py:111-132 | with unique user names, deleting a user sends one DELETE to `users/{id}` and returns the service's answer. Once the id is gone from both the active and the pending listing, a second delete returns a fabricated 404 after the two listing requests alone |
| `Scenarios.CreateDataSourceTwice` | redashAPI/test_client.py:30-37 | the first create sends one POST. Once the record is listed, the name resolves to it, and a second create raises AlreadyExists with no mutation |
| `Scenarios.CreateGroupTwice` | redashAPI/client.py:134-139 | the same for groups |
| `Scenarios.CreateOrUpdateConverges` | redashAPI/test_client.py:44-55 | see the list below the table |
| `Scenarios.UserMembershipTwice` | redashAPI/client.py:161-189 | once the membership is listed, adding again answers "Not changed" with no mutation. Once it is no longer listed, removing again answers a fabricated 404 |
| `Scenarios.DataSourceMembershipTwice` | redashAPI/client.py:191-219 | the same for data source grants |
| `Lifecycle.DataSourceLifecycle` | redashAPI/test_client.py:17-68 | create succeeds, the duplicate raises AlreadyExists, the name resolves to the id, the update succeeds, delete gives 204, and deleting again gives 404 |
| `Lifecycle.GroupLifecycle` | redashAPI/test_client.py:70-82 | create succeeds, delete returns the service's 200, deleting again gives 404 |

What the longer rows state:

- `Properties.EveryOperationExplained`: for every operation and every service answer:
  - only lookups precede the last request;
  - a `Remote` result is the accepted status of a final POST or DELETE;
  - a fabricated response, AlreadyExists or EntityNotFound comes with no mutation;
  - a transport error carries the method, path text and status of the last request,
    which the service refused.
- `Decisions.CreateOrUpdateDecision`:
  - If a data source of that name is listed, it sends the listing request and one POST
    to `data_sources/{id}`. The body is `{id, type, name, options}`, with the listed
    record's id and the options unchanged.
  - Otherwise it sends two listing requests, then the create POST.
- `Decisions.UserMembershipGuards`:
  - A missing user raises EntityNotFound(user) before the groups are listed.
  - A missing group raises EntityNotFound(group) before the member listing is requested.
  - Neither sends a mutation, and add and delete behave alike.
- `Decisions.UserMembershipDecision`, with both names resolved:
  - add POSTs `{user_id}` to `groups/{gid}/members` exactly when the user id is not in
    the member listing, and otherwise answers a fabricated 200 "Not changed";
  - delete sends DELETE `groups/{gid}/members/{uid}` exactly when the id is listed, and
    otherwise answers a fabricated 404.
- `Scenarios.CreateOrUpdateConverges`: on a second call, the first call's effect decides
  the target. If the first call updated an existing record, or created one that the
  service then lists, the second call POSTs to that same id. Its body carries the second
  call's options.

## Left out

- The `requests.Session` plumbing. Not modelled:
  - the host and `/api/` prefix;
  - the `Authorization` header set at construction;
  - JSON encoding and `.json()` decoding;
  - the `{"results": [...]}` envelope of the users listing.
  These are calls into a library. Paths are modelled as `Paths.Path`, bodies as `Json.Json`.
- `Client.RedashClient.Post`: does not model the `Content-Type: application/json` header
  that `post` adds to the session, because headers are not part of the model.
- Response bodies from the service: a `Remote` response carries its status code only. The
  created or updated record the service echoes back is server behaviour.
- `Client.RedashClient.GetUsers`: a 204 answer is accepted as the code does. The model does
  not capture that decoding the empty body of a 204 would then raise in `requests`, because
  decoding is not modelled.
- Records carry only `id` and `name`, the two fields the client reads. Other fields
  (`type`, `options`, `email`, ...) are not modelled.
- Exception message texts. The client's exceptions are modelled by their content:
  - the transport error by method, path and status;
  - AlreadyExists and EntityNotFound by kind and name.
- Server-side behaviour: id assignment, the `"--------"` password placeholder, the
  `"regular"` group type, and whether a created record is later listed. The client does
  not decide any of these. `scenarios.dfy` states its assumptions about listings
  explicitly, and only those lemmas use them.
- A service whose answer to the same request changes during one operation (a race
  between lookup and mutation). `Service` answers each request by a fixed function, so
  within one operation both lookups of `create_or_update_datasource` see the same
  listing.
- The unused `time` and `datetime` imports.
- Key order inside JSON objects: bodies are modelled as maps.
