/** The call frames of the coordination protocol (crates/mandala-context/src/protocol.rs). */
module Protocol {
  import opened Wrappers

  /** A tool's JSON result; only `null` is told apart from everything else. */
  datatype Json = Null | Text(text: string)

  /** What a dispatch came to. */
  datatype Outcome = Success(value: Json) | Failure(message: string)

  datatype CallFrame = CallFrame(id: nat, tool: string, args: string)

  datatype ResultFrame = ResultFrame(id: nat, ok: bool, result: Option<Json>, error: Option<string>)

  /** The frame the host builds for a settled call. */
  function FrameOf(id: nat, o: Outcome): ResultFrame {
    match o
    case Success(v) => ResultFrame(id, true, Some(v), None)
    case Failure(m) => ResultFrame(id, false, None, Some(m))
  }

  /** A line's trip over the socket: an optional field carrying `null` reads back as absent. */
  function Carried(f: ResultFrame): ResultFrame {
    f.(result := if f.result == Some(Null) then None else f.result)
  }

  /** How the client reads a result frame. */
  function OutcomeOf(f: ResultFrame): Outcome {
    if f.ok then Success(if f.result.Some? then f.result.value else Null)
    else Failure(if f.error.Some? then f.error.value else "call failed")
  }

  /** The client reads back the outcome the host sent, a `null` result included, and two
      frames that read the same for one id were built from the same outcome. */
  lemma OutcomeSurvivesTheWire(id: nat, o: Outcome, f: ResultFrame)
    requires f == Carried(FrameOf(id, o))
    ensures f.id == id && OutcomeOf(f) == o
  {
  }
}
