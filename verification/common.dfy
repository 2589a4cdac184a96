/** Small datatypes shared by every component. */
module Common {

  datatype Option<+T> = None | Some(value: T)

  datatype Result<+T, +E> = Ok(value: T) | Err(error: E)

  /** A position in one incarnation of an event stream. */
  datatype Cursor = Cursor(epoch: string, at: nat)

  /** A Run, or a Step addressed by its Run and a nonempty index path. */
  datatype Key = RunKey(run: string) | StepKey(run: string, path: seq<nat>)

  /** The Step or Run directly above a Step. */
  function Above(step: Key): Key {
    if step.RunKey? || |step.path| <= 1 then RunKey(step.run)
    else StepKey(step.run, step.path[..|step.path| - 1])
  }
}
