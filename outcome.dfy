/** How a pipeline run ends. */
module Outcome {

  /** The exceptions that escape a pipeline and end the run. */
  datatype Failure =
    | ListingUnavailable        // `listFiles` returned null: `Objects.requireNonNull` throws
    | PostFailed(file: string)  // `postForEntity` threw; nothing around it catches
    | NullBody(file: string)    // 2xx response without a body: `write(null)` throws, not an IOException

  datatype RunEnd = Completed | Aborted(failure: Failure)
}
