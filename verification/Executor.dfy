/** The bounded adapters between registered tools and the three sandboxes. */
module Executor {
  import opened Common
  import opened Sandbox

  const SYSTEMS := {"crm", "analytics", "support"}

  function SystemForTool(tool: string): (r: Option<string>)
    ensures r.Some? ==> r.value in SYSTEMS && r.value + "." <= tool
  {
    if tool == "crm.update_field_mapping" then Some("crm")
    else if tool == "analytics.update_field_mapping" then Some("analytics")
    else if tool == "support.update_lookup_field" then Some("support")
    else None
  }

  predicate IsLetter(c: char) {
    'a' <= c <= 'z' || 'A' <= c <= 'Z' || c == '_'
  }

  predicate IsFieldName(s: string) {
    1 <= |s| <= 64 && IsLetter(s[0]) && forall c <- s :: IsLetter(c) || '0' <= c <= '9'
  }

  /** `validate_arguments`: exactly two different field names. */
  function PatchOf(arguments: map<string, string>, key: string): Option<FieldPatchRequest> {
    if arguments.Keys == {"old_field", "new_field"} && IsFieldName(arguments["old_field"])
       && IsFieldName(arguments["new_field"]) && arguments["old_field"] != arguments["new_field"]
    then Some(FieldPatchRequest(arguments["old_field"], arguments["new_field"], key))
    else None
  }

  /** The adapter refuses a result that is not the requested patch. */
  predicate Answers(q: FieldPatchRequest, output: PatchResult) {
    output.before == q.oldField && output.after == q.newField && output.idempotencyKey == q.idempotencyKey
  }
}
