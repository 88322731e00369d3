/**
 * `create_weaviate_schema`: create the vector-store schema unless the check
 * reports that it already exists.
 */
module SchemaTools {
  import opened Wrappers
  import opened PyText
  import opened Json
  import opened Transport
  import opened Envelope
  import opened Weaviate

  const AlreadyExists: Dict :=
    map["success" := Bool(true), "status" := Str("already_exists"), "message" := Str("Schema already exists")]

  /** Whether the existence check answered that the schema is there. */
  predicate SchemaReported(check: Dict) {
    Succeeded(check) && Truthy(Get(check, "schema_exists"))
  }

  /** The check reports the schema exactly when it answered 200 with "true" somewhere in its text. */
  lemma SchemaReportedMeans(o: Outcome)
    ensures SchemaReported(CheckSchemaExists(o)) <==>
              o.Responded? && o.status == 200 && exists k :: OccursAt(Lower(o.text), "true", k)
  {
    match o
    case Responded(status, text, _) =>
      if status == 200 {
        ContainsMeansOccurs(Lower(text), "true");
        assert CheckSchemaExists(o)["schema_exists"] == Bool(Contains(Lower(text), "true"));
      }
    case _ =>
  }

  /** `create_weaviate_schema`: one check, then a create request only if the schema
      was not reported; the create outcome is returned as the adapter shapes it. */
  function CreateWeaviateSchema(answer: Backend): (r: Run)
    ensures |r.calls| >= 1 && r.calls[0] == SchemaExistsRequest
    ensures SchemaReported(CheckSchemaExists(answer(0, SchemaExistsRequest))) ==>
              r == Run(Done(AlreadyExists), [SchemaExistsRequest])
    ensures !SchemaReported(CheckSchemaExists(answer(0, SchemaExistsRequest))) ==>
              && r.calls == [SchemaExistsRequest, CreateSchemaRequest]
              && r.reply == Done(SchemaChange(answer(1, CreateSchemaRequest)))
  {
    var check := CheckSchemaExists(answer(0, SchemaExistsRequest));
    if SchemaReported(check) then Run(Done(AlreadyExists), [SchemaExistsRequest])
    else Run(Done(SchemaChange(answer(1, CreateSchemaRequest))), [SchemaExistsRequest, CreateSchemaRequest])
  }

  /** The tool always reports success when the schema ends up present: either it was
      already there, or the create request answered 200. */
  lemma SchemaToolSucceeds(answer: Backend)
    ensures var r := CreateWeaviateSchema(answer);
            r.reply.Done? &&
            (Succeeded(r.reply.value) <==>
               SchemaReported(CheckSchemaExists(answer(0, SchemaExistsRequest)))
               || (var o := answer(1, CreateSchemaRequest); o.Responded? && o.status == 200))
  {
  }
}
