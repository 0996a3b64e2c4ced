/**
 * The fixed texts of the warnings the build script prints when the binding
 * generator fails.
 */
module Messages {

  /** Put before the generator's error message. */
  const GenerationFailedLead := "Unable to generate bindings: "

  /** Printed after the error, announcing the fallback to the committed file. */
  const BundledNotice := "Using bundled bindings.rs, " + "which may be out of date"

  /** Neither fixed text holds a line break. */
  lemma FixedTextsOnOneLine()
    ensures '\n' !in GenerationFailedLead
    ensures '\n' !in BundledNotice
  {
  }
}
