/**
 * The vector-store administration adapter: connection test and schema
 * existence, creation and deletion.
 */
module Weaviate {
  import opened Wrappers
  import opened PyText
  import opened Json
  import opened Transport
  import opened Envelope

  const ConnectionRequest := Request(GET, "/weaviate/test/connection", map[], None)
  const SchemaExistsRequest := Request(GET, "/weaviate/test/schema/exists", map[], None)
  const CreateSchemaRequest := Request(POST, "/weaviate/test/schema/create", map[], None)
  const DeleteSchemaRequest := Request(DELETE, "/weaviate/test/schema/delete", map[], None)

  /** `test_connection`: connected exactly on 200; the status code is echoed. */
  function TestConnection(o: Outcome): (r: Dict)
    ensures "connected" in r && "message" in r
    ensures r["connected"] == Bool(o.Responded? && o.status == 200)
    ensures o.Responded? ==> "status_code" in r && r["status_code"] == Int(o.status)
    ensures o.Responded? && o.status == 200 ==> r["message"] == Str(o.text)
    ensures o.Responded? && o.status != 200 ==> r["message"] == Str(StatusLabel(o.status))
    ensures !o.Responded? ==> r == map["connected" := Bool(false),
                                       "message" := Str("Connection failed: " + ExceptionText(o)),
                                       "error" := Str(ExceptionText(o))]
  {
    match o
    case Responded(status, text, _) =>
      map["connected" := Bool(status == 200),
          "message" := Str(if status == 200 then text else StatusLabel(status)),
          "status_code" := Int(status)]
    case TimedOut(reason) =>
      map["connected" := Bool(false), "message" := Str("Connection failed: " + reason), "error" := Str(reason)]
    case Failed(reason) =>
      map["connected" := Bool(false), "message" := Str("Connection failed: " + reason), "error" := Str(reason)]
  }

  /** The connection test is the shared executor with a fixed message on 200: it
      connects exactly where the executor succeeds, and a non-200 message is the
      executor's status label. */
  lemma ConnectionFollowsPolicy(o: Outcome)
    ensures var e := Execute(Policy(FixedMessage("connected"), None, map[]), o);
            && TestConnection(o)["connected"] == e["success"]
            && (o.Responded? && o.status != 200 ==> TestConnection(o)["message"] == e["error"])
            && (!o.Responded? ==> TestConnection(o)["error"] == e["error"])
  {
  }

  /** "true" occurs somewhere in the lower-cased text. */
  ghost predicate MentionsTrue(text: string) {
    exists k :: OccursAt(Lower(text), "true", k)
  }

  /** `check_schema_exists`: the schema exists when "true" occurs anywhere in the lower-cased text. */
  function CheckSchemaExists(o: Outcome): (r: Dict)
    ensures Succeeded(r) <==> o.Responded? && o.status == 200
    ensures Succeeded(r) ==>
              && "schema_exists" in r && "raw_response" in r
              && r["raw_response"] == Str(o.text)
              && r["schema_exists"] == Bool(MentionsTrue(o.text))
    ensures o.Responded? && o.status != 200 ==>
              r == map["success" := Bool(false), "error" := Str(StatusLabel(o.status)), "response" := Str(o.text)]
    ensures !o.Responded? ==> r == Crashed(ExceptionText(o))
  {
    match o
    case Responded(status, text, _) =>
      if status == 200 then
        var present := Contains(Lower(text), "true");
        ContainsMeansOccurs(Lower(text), "true");
        assert present == MentionsTrue(text);
        map["success" := Bool(true), "schema_exists" := Bool(present), "raw_response" := Str(text)]
      else
        map["success" := Bool(false), "error" := Str(StatusLabel(status)), "response" := Str(text)]
    case TimedOut(reason) => Crashed(reason)
    case Failed(reason) => Crashed(reason)
  }

  /** `create_schema` and `delete_schema`: success exactly on 200, echoing text and status. */
  function SchemaChange(o: Outcome): (r: Dict)
    ensures Succeeded(r) <==> o.Responded? && o.status == 200
    ensures o.Responded? ==>
              r == map["success" := Bool(o.status == 200), "message" := Str(o.text), "status_code" := Int(o.status)]
    ensures !o.Responded? ==> r == Crashed(ExceptionText(o))
  {
    match o
    case Responded(status, text, _) =>
      map["success" := Bool(status == 200), "message" := Str(text), "status_code" := Int(status)]
    case TimedOut(reason) => Crashed(reason)
    case Failed(reason) => Crashed(reason)
  }

  /** A schema change succeeds exactly where the connection test connects, echoing the
      same status code, and fails with the same exception text. */
  lemma SchemaChangeAgreesWithConnection(o: Outcome)
    ensures Succeeded(SchemaChange(o)) <==> Truthy(TestConnection(o)["connected"])
    ensures o.Responded? ==> SchemaChange(o)["status_code"] == TestConnection(o)["status_code"]
    ensures !o.Responded? ==>
              && SchemaChange(o) == OkOrStatus("schema", o)
              && SchemaChange(o)["error"] == TestConnection(o)["error"]
  {
  }
}
