/** What the outside world answers to either backend. An answer is any value of these types;
    a failed or malformed answer is `Threw`. */
module Environment {
  import opened Utf16
  import opened Wrappers
  import opened Json

  /** The result of one agent turn. */
  datatype AgentOutput =
    | InputRequired(need: Option<Json>, session: Option<Json>)
    | AgentFailed(error: Option<Json>)
    | Candidates(refs: seq<Json>, session: Option<Json>)
    | Malformed

  /** `material` carries the documents that the Vercel verifier returns beside the references. */
  datatype Response =
    | Compiled(ref: Json)
    | TurnEnded(output: AgentOutput)
    | DeltaOffered(delta: Json)
    | Merged(ref: Json)
    | Verified(passed: bool, report: Json, provenance: Json, material: Json)
    | AdoptionDone(ref: Json)
    | Threw(message: Text)

  /** `a ?? b`. */
  function OrElse(a: Option<Json>, b: Option<Json>): Option<Json> {
    if a.None? || a.value.Null? then b else a
  }

  /** Temporal's effect-key template throws: there is no first candidate, it is `null`, or its
      digest cannot be made a string. */
  predicate NoEffectKey(candidates: seq<Json>) {
    candidates == [] || candidates[0].Null? ||
    var d := Get(candidates[0], Lit("digest")); d.Some? && NoText(d.value)
  }
}
