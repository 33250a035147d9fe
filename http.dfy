/**
 * The HTTP vocabulary of the connector: status codes and the three success
 * rules built on them, verbs, request and response values, and the errors a
 * call can raise.
 */
module Http {
  import opened Wrappers

  const OK: int := 200
  const Created: int := 201
  const NoContent: int := 204

  /** The connector's success status codes (`_successStatusCodes`). */
  const SuccessStatusCodes: set<int> := {OK, Created, NoContent}

  /** The rule shared by CallServer, ExtractResponse, FindLinkedEntity, FindBy and PerformAction. */
  predicate IsSuccessStatus(status: int): (ok: bool)
    ensures ok ==> 200 <= status < 300
  {
    status in SuccessStatusCodes
  }

  /** DeleteObject's rule: OK or NoContent. */
  predicate IsDeleteSuccess(status: int): (ok: bool)
    ensures ok ==> IsSuccessStatus(status)
    ensures status == Created ==> !ok
  {
    status == OK || status == NoContent
  }

  /** ReadObject's rule: exactly OK. */
  predicate IsReadSuccess(status: int): (ok: bool)
    ensures ok ==> IsDeleteSuccess(status)
    ensures status == NoContent ==> !ok
  {
    status == OK
  }

  /** Each of the narrower rules is the shared rule with some codes taken away. */
  lemma SuccessRulesNest(status: int)
    ensures IsSuccessStatus(status) <==> status == OK || status == Created || status == NoContent
    ensures IsDeleteSuccess(status) <==> IsSuccessStatus(status) && status != Created
    ensures IsReadSuccess(status) <==> IsSuccessStatus(status) && status != Created && status != NoContent
  {
  }

  /** The verbs the connector sends, two of them non-standard; `PerformAction`'s is spelled "patch". */
  datatype Method = Get | Post | Put | Delete | Link | Unlink | Patch

  /** A value stored in a request dictionary (a C# `object`). */
  datatype Value = IntValue(i: int) | StringValue(s: string) | BoolValue(b: bool)

  /** An entity as JSON deserialisation of a response body yields it. */
  datatype Payload = Payload(id: Option<int>, fields: map<string, Value>)

  /**
   * A server response: its status, its raw content, and what deserialising
   * that content yields as one entity and as a list of entities. Either is
   * None when the body deserialises to null (an empty body, for one).
   */
  datatype Response = Response(status: int, content: string, entity: Option<Payload>, entities: Option<seq<Payload>>)

  /** Request headers: each name with its values in the order they were added. */
  type Headers = map<string, seq<string>>

  /** A request as it is handed to the transport; `body` is the JSON object sent, if any. */
  datatype Request = Request(verb: Method, url: string, headers: Headers, body: Option<map<string, Value>>)

  /** The exceptions a connector call can raise. */
  datatype Error =
    | PerPageNotPositive   // "PerPage must be greater than zero"
    | PageNotPositive      // "Page must be greater than zero"
    | InternalProblem      // "Penneo: Internal problem encountered"
    | NullReference        // a member access on a null deserialised object
}
