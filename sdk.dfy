/**
 * Abstract views of the SDK collaborators that the accelerometer core uses but
 * whose code is not part of this model: the float data stream (bc_data_stream),
 * the dice face classifier (bc_dice) and the arctangent of the C math library.
 *
 * Each is given by what the core can observe of it. A stream is the history of
 * values fed to it together with a counter that each feed increments; its median
 * is an uninterpreted function of that history that may fail. The classifier's
 * face is an uninterpreted function of the triples fed to it.
 */
module Sdk {
  import opened Wrappers

  /** A bc_data_stream as the core sees it: a feed counter and the values fed so far. */
  datatype Stream = Stream(counter: nat, samples: seq<real>)

  /** A stream just initialised: nothing fed yet. */
  function EmptyStream(): (s: Stream)
    ensures s.counter == 0 && |s.samples| == 0
  {
    Stream(0, [])
  }

  /** bc_data_stream_feed: the value is appended and the counter goes up by one. */
  function Feed(s: Stream, v: real): (r: Stream)
    ensures r.counter == s.counter + 1
    ensures |r.samples| == |s.samples| + 1
    ensures r.samples[..|s.samples|] == s.samples && r.samples[|s.samples|] == v
  {
    Stream(s.counter + 1, s.samples + [v])
  }

  /** The faces bc_dice reports; the numbering of the sides is the library's. */
  datatype Face = Unknown | Side(number: nat)

  /**
   * What a tick hands to the classifier: the three medians. A median that could
   * not be read leaves the C local uninitialised; here it is None.
   */
  datatype Triple = Triple(x: Option<real>, y: Option<real>, z: Option<real>)

  /**
   * The unseen library functions, as parameters of the model.
   * - median: bc_data_stream_get_median over the values fed so far;
   * - atanOfQuotient(y, x): atan(y / x) in radians, including what the C math
   *   library yields when x is zero;
   * - classify: the face bc_dice reports after the given triples were fed.
   */
  datatype Library = Library(
    median: seq<real> -> Option<real>,
    atanOfQuotient: (real, real) -> real,
    classify: seq<Triple> -> Face)
}
