/** Output-schema gating of tool results. */
module Validator {
  import opened Common
  import opened Json

  /** What `jsonschema.validate(instance, schema)` does: return, raise `ValidationError`
      with a message, or raise some other exception (a `SchemaError`, say). The validator
      library itself is not modelled. */
  datatype Verdict = Valid | Invalid(message: string) | Failed(error: Exception)

  type SchemaCheck = (Json, Json) -> Verdict

  /** `_validate_output`: `None` when it returns normally, otherwise the exception it raises. */
  function ValidateOutput(output: Json, schema: Json, where: string, check: SchemaCheck): (raised: Option<Exception>)
    ensures !Truthy(schema) ==> raised == None
    ensures Truthy(schema) && check(output, schema).Valid? ==> raised == None
    ensures Truthy(schema) && check(output, schema).Invalid? ==>
      raised == Some(RuntimeError(where + " output failed schema validation: " + check(output, schema).message))
    ensures Truthy(schema) && check(output, schema).Failed? ==> raised == Some(check(output, schema).error)
  {
    if !Truthy(schema) then None
    else
      match check(output, schema)
      case Valid => None
      case Invalid(m) => Some(RuntimeError(where + " output failed schema validation: " + m))
      case Failed(e) => Some(e)
  }

  /** The gate lets an output through exactly when there is no schema or the output satisfies it. */
  lemma ValidateOutputPasses(output: Json, schema: Json, where: string, check: SchemaCheck)
    ensures ValidateOutput(output, schema, where, check).None? <==> !Truthy(schema) || check(output, schema).Valid?
  {
  }

  /** A `RuntimeError` naming the place comes only from a schema violation, and other
      exceptions pass through unchanged. */
  lemma ValidateOutputRaises(output: Json, schema: Json, where: string, check: SchemaCheck, e: Exception)
    requires ValidateOutput(output, schema, where, check) == Some(e)
    ensures Truthy(schema)
    ensures check(output, schema).Invalid? || check(output, schema) == Failed(e)
  {
  }
}
