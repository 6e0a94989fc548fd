/**
 * Pipeline state that several passes choose between: the depth comparison of
 * the depth-stencil state, which depends on whether the build reverses the
 * depth range (the inverted Z-buffer, the default) or not.
 */
module PipelineStates {
  /** The preprocessor macros a build may define. DISABLE_INVERTED_Z_BUFFER is
      the engine's switch; DISSABLE_INVERTED_Z_BUFFER is a misspelling of it
      that one pass tests. */
  datatype Macros = Macros(disableInvertedZBuffer: bool, dissableInvertedZBuffer: bool)

  /** The comparison function of a depth-stencil state. */
  datatype DepthComparison = Less | LessEqual | Greater | GreaterEqual

  /** A comparison that keeps the nearer fragment when depth grows towards
      the viewer, as with the inverted Z-buffer. */
  predicate KeepsLargerDepth(c: DepthComparison)
  {
    c.Greater? || c.GreaterEqual?
  }
}
