/** Worked examples of the connector's behaviour, each against a fresh connector. */
module Scenarios {
  import opened Wrappers
  import StringUtil
  import opened Http
  import opened Requests
  import opened Entities
  import opened Connector

  /** Every entity type resolves to the same path in these examples. */
  function CaseFiles(kind: string, parent: Option<EntityView>): string {
    "casefiles"
  }

  /** Creating a case file: the POST is answered 201 with id 42, and the entity takes that id. */
  method CreateCaseFile() returns (ok: bool, id: Option<int>, stored: bool)
    ensures ok && id == Some(42) && stored
  {
    var c := new ApiConnector(None, None, CaseFiles);
    var caseFile := new Entity("CaseFile", "casefiles", None, 1, Some(map["title" := StringValue("Demo case file")]));
    var reply := Response(Created, "{\"id\": 42}", Some(Payload(Some(42), map[])), None);
    var r := c.WriteObject(caseFile, reply);
    ok := r == Success(true);
    id := caseFile.id;
    var result := c.GetLatestEntityServerResult(caseFile);
    stored := result != null && result.success;
  }

  /** A 201 whose body deserialises to null: the successful result is stored, then taking the id raises. */
  method CreatedWithoutBody() returns (raised: bool, id: Option<int>, stored: bool)
    ensures raised && id.None? && stored
  {
    var c := new ApiConnector(None, None, CaseFiles);
    var caseFile := new Entity("CaseFile", "casefiles", None, 1, Some(map[]));
    var r := c.WriteObject(caseFile, Response(Created, "null", None, None));
    raised := r == Failure(NullReference);
    id := caseFile.id;
    var result := c.GetLatestEntityServerResult(caseFile);
    stored := result != null && result.success;
  }

  /** Linking two existing entities with a 200 answer succeeds and records a successful result for the parent. */
  method LinkTwoEntities() returns (ok: bool, stored: bool)
    ensures ok && stored
  {
    var c := new ApiConnector(None, None, CaseFiles);
    var parent := new Entity("CaseFile", "casefiles", Some(7), 1, Some(map[]));
    var child := new Entity("Signer", "signers", Some(9), 2, Some(map[]));
    ok := c.LinkEntity(parent, child, Response(OK, "", None, None));
    var result := c.GetLatestEntityServerResult(parent);
    stored := result != null && result.success;
  }

  /** A 404 raises from FindLinkedEntity but is a plain failure from GetLinkedEntities. */
  method NestedNotFound() returns (single: Result<Option<Payload>, Error>, collection: bool)
    ensures single == Failure(InternalProblem) && !collection
  {
    var c := new ApiConnector(None, None, CaseFiles);
    var parent := new Entity("CaseFile", "casefiles", Some(7), 1, Some(map[]));
    var notFound := Response(404, "", None, None);
    single := c.FindLinkedEntity(parent, 3, "Document", notFound);
    var result := c.GetLinkedEntities(parent, None, "Document", notFound);
    collection := result.success;
  }

  /** A page number of 0 is rejected before anything reaches the transport. */
  method ZeroPageNeverSent() returns (r: Result<Found, Error>, sentCount: nat)
    ensures r == Failure(PageNotPositive) && sentCount == 0
  {
    var c := new ApiConnector(None, None, CaseFiles);
    r := c.FindBy(None, "CaseFile", Some(0), Some(10), Response(OK, "[]", None, None));
    sentCount := |c.sent|;
  }

  /** The query key "Name" becomes the parameter "name"; the request still goes out without a body. */
  method QueryKeyLowered() returns (params: map<string, Value>, body: Option<map<string, Value>>)
    ensures params == map["name" := StringValue("x")] && body.None?
  {
    var c := new ApiConnector(None, None, CaseFiles);
    var r := c.FindBy(Some([("Name", StringValue("x"))]), "CaseFile", None, None,
                      Response(OK, "[]", None, None));
    var query: Query := [("Name", StringValue("x"))];
    assert QueryOf(FindOptions(Some(query))) == query;
    assert StringUtil.FirstCharacterToLower("Name") == "name";
    assert Visited(map[], query) == Visited(map[], query[..0])["name" := StringValue("x")];
    params := c.parameters;
    body := c.sent[0].body;
  }
}
