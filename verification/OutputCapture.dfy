/** The captured output of a command (crates/model/src/command.rs). */
module OutputCapture {

  const MAX_COMMAND_OUTPUT_BYTES := 8 * 1024 * 1024

  /** How much of a stream was captured. */
  datatype Completeness = Complete | Truncated | ReadFailed | Unavailable
}
