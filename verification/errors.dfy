/** Failure-carrying datatypes shared by the inference driver model.

    Every exception the driver raises on purpose, and the numpy error the
    metric can run into, is a constructor of `Error`; operations that can
    raise return a `Result`. */
module Errors {

  datatype Option<+T> = None | Some(value: T)

  /** Why a run stops early. */
  datatype Error =
    | MissingOutputFile                  // ValueError: 'output_file' was not specified
    | MissingInputPattern                // ValueError: 'input_data_pattern' was not specified
    | ClassNotFound(name: string)        // StopIteration from the class lookup; the program's
                                         // carries no name, the model adds it to tell the
                                         // model and transformer lookups apart
    | NoInputFiles(pattern: string)      // IOError: no file matches the glob
    | NoCheckpoint(trainDir: string)     // no checkpoint found in the train directory
    | KthOutOfBounds                     // argpartition asked for more classes than a row has

  datatype Result<+T> = Ok(value: T) | Err(error: Error) {

    predicate IsFailure() {
      Err?
    }

    function PropagateFailure<U>(): Result<U>
      requires Err?
    {
      Err(error)
    }

    function Extract(): T
      requires Ok?
    {
      value
    }
  }
}
