/**
 * The objects the connector works on: entities, the request-data dictionary
 * an entity hands over, and the ServerResult recorded for an operation.
 */
module Entities {
  import opened Wrappers
  import opened Http

  /** An entity's process-local token, the key of the result table. */
  type Guid = int

  /** A `Dictionary<string, object>` the connector may fill in place. */
  class Dictionary {
    var items: map<string, Value>

    constructor (items: map<string, Value>)
      ensures this.items == items
    {
      this.items := items;
    }
  }

  /** The content of a dictionary that may be null. */
  function Snapshot(d: Dictionary?): Option<map<string, Value>>
    reads d
  {
    if d == null then None else Some(d.items)
  }

  /** What the resource lookup sees of a parent entity: its type, REST path and id. */
  datatype EntityView = EntityView(kind: string, relativeUrl: string, id: Option<int>)

  /** A client-side entity: its type, REST path, optional server id, local token and payload. */
  class Entity {
    /** The entity's runtime type, used to look up its REST resource. */
    const kind: string
    var relativeUrl: string
    var id: Option<int>
    const internalIdentifier: Guid
    /** What serialising the entity gives; None when it cannot be serialised. */
    var requestData: Option<map<string, Value>>

    constructor (kind: string, relativeUrl: string, id: Option<int>, internalIdentifier: Guid,
                 requestData: Option<map<string, Value>>)
      ensures this.kind == kind && this.relativeUrl == relativeUrl && this.id == id
      ensures this.internalIdentifier == internalIdentifier && this.requestData == requestData
    {
      this.kind := kind;
      this.relativeUrl := relativeUrl;
      this.id := id;
      this.internalIdentifier := internalIdentifier;
      this.requestData := requestData;
    }

    /** An entity is new until the server has given it an id. */
    predicate IsNew(): (b: bool)
      reads this
      ensures b <==> id.None?
    {
      id.None?
    }

    /** A fresh dictionary holding the entity's request data, or null. */
    method GetRequestData() returns (d: Dictionary?)
      ensures d == null <==> requestData.None?
      ensures d != null ==> fresh(d) && d.items == requestData.value
    {
      if requestData.None? {
        d := null;
      } else {
        d := new Dictionary(requestData.value);
      }
    }
  }

  /**
   * The outcome of one operation. `objects` is the extra field of the
   * QueryResult specialisation; it stays None on a plain result.
   */
  class ServerResult {
    var success: bool
    /** `HttpStatusCode`; 0 until a response is recorded. */
    var statusCode: int
    var jsonContent: Option<string>
    var errorMessage: Option<string>
    var objects: Option<seq<Payload>>

    constructor ()
      ensures !success && statusCode == 0 && jsonContent.None? && errorMessage.None? && objects.None?
    {
      success := false;
      statusCode := 0;
      jsonContent := None;
      errorMessage := None;
      objects := None;
    }
  }

  /** The view of a possibly null entity that the resource lookup receives. */
  function ViewOf(e: Entity?): (v: Option<EntityView>)
    reads e
    ensures v.None? <==> e == null
    ensures e != null ==> v.value.kind == e.kind && v.value.relativeUrl == e.relativeUrl && v.value.id == e.id
  {
    if e == null then None else Some(EntityView(e.kind, e.relativeUrl, e.id))
  }

  /** SetLatestEntityServerResult on the table: a null entity changes nothing, otherwise last write wins. */
  function Recorded(table: map<Guid, ServerResult>, entity: Entity?, result: ServerResult): (t: map<Guid, ServerResult>)
    ensures entity == null ==> t == table
    ensures entity != null ==> t.Keys == table.Keys + {entity.internalIdentifier}
    ensures entity != null ==> t[entity.internalIdentifier] == result
    ensures forall g :: g in table && (entity == null || g != entity.internalIdentifier) ==> t[g] == table[g]
  {
    if entity == null then table else table[entity.internalIdentifier := result]
  }

  /** GetLatestEntityServerResult on the table: null for a null entity or an absent key. */
  function Lookup(table: map<Guid, ServerResult>, entity: Entity?): (r: ServerResult?)
    ensures r != null <==> entity != null && entity.internalIdentifier in table
    ensures r != null ==> r == table[entity.internalIdentifier]
  {
    if entity == null || entity.internalIdentifier !in table then null else table[entity.internalIdentifier]
  }

  /** After recording, a lookup for the same token gives the new result and any other lookup is as before. */
  lemma LookupRecorded(table: map<Guid, ServerResult>, entity: Entity?, result: ServerResult, other: Entity?)
    ensures entity != null && other != null && other.internalIdentifier == entity.internalIdentifier
            ==> Lookup(Recorded(table, entity, result), other) == result
    ensures entity == null || other == null || other.internalIdentifier != entity.internalIdentifier
            ==> Lookup(Recorded(table, entity, result), other) == Lookup(table, other)
  {
  }
}
