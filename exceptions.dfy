/**
 * The exceptions the core raises, as values.  Each constructor stands for
 * one raise site; the comment names the Python exception type and the
 * message fragment the tests match.
 */
module Exceptions {
  import opened Prelude

  datatype Error =
    | NoClassification            // NoClassificationError
    | KeyMissing(key: Hashable)    // KeyError
    | NoLabelsGiven               // ValueError "No classification labels/values given."
    | MoreThanOneDimension        // ValueError "Input vector had more than one dimension"
    | DimensionInconsistent       // ValueError "Input vector violated dimension consistency"
    | NoVectorStored              // ValueError "... no vector stored ..."
    | UnderProduced               // IndexError "... under-produced classifications ..."
    | OverProduced                // IndexError "... over-produced classifications ..."
  {
    predicate IsValueError() {
      NoLabelsGiven? || MoreThanOneDimension? || DimensionInconsistent? || NoVectorStored?
    }

    predicate IsIndexError() {
      UnderProduced? || OverProduced?
    }
  }

  /** The outcome of an operation that returns a value or raises. */
  datatype Result<+T> = Ok(value: T) | Err(error: Error)
}
