/**
 * Requests, responses and errors of the client, and the service it talks to
 * as an abstract collaborator: for every request, the status code it answers
 * with and the records the body of that answer lists.
 */
module Http {
  import opened Json
  import opened Paths
  import opened Resolver

  datatype Method = GET | POST | DELETE

  /** The query string of a listing request; only the users listing has one. */
  datatype Query = NoQuery | UserQuery(pending: bool, order: string, pageSize: int)

  datatype Request =
    | GetRequest(path: Path, query: Query)
    | PostRequest(path: Path, body: map<string, Json>)
    | DeleteRequest(path: Path)
  {
    function Verb(): Method {
      match this
      case GetRequest(_, _) => GET
      case PostRequest(_, _) => POST
      case DeleteRequest(_) => DELETE
    }

    predicate IsMutation() {
      !GetRequest?
    }
  }

  /**
   * What an operation returns: the service's own response, identified by its
   * status code, or a response the client fabricates without a request.
   */
  datatype Response = Remote(status: int) | Synth(status: int, body: string)

  /** The fabricated answer for a target that is already absent. */
  const NotFound := Synth(404, "")

  /** The fabricated answer for a membership that already holds. */
  const NotChanged := Synth(200, "{\"msg\": \"Not changed\"}")

  datatype Kind = DataSourceKind | UserKind | GroupKind

  /** The exceptions the client raises. */
  datatype ClientError =
    | TransportError(verb: Method, uri: string, status: int)
    | AlreadyExists(kind: Kind, name: string)
    | EntityNotFound(kind: Kind, name: string)

  datatype Result<T> = Ok(value: T) | Err(error: ClientError)

  /** The remote service as the client observes it. */
  datatype Service = Service(status: Request -> int, listing: Request -> seq<Record>)

  /** `get` and `post` accept status 200 only. */
  predicate IsOk(status: int) {
    status == 200
  }

  /** `delete` and the users listing also accept 204 No Content. */
  predicate IsOkOrNoContent(status: int) {
    status == 200 || status == 204
  }
}
