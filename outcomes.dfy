/** Values that stand for the side effects of the UI handlers: a handler that
    would show a toast or navigate returns the toast or the target instead. */
module Outcomes {

  datatype Option<+T> = None | Some(value: T)

  /** Either the value a handler goes on with, or the validation error it stops at. */
  datatype Result<+T, +E> = Success(value: T) | Failure(error: E)

  /** The two looks a toast can have: the plain one and the red "destructive" one. */
  datatype Variant = Plain | Destructive

  /** A transient notification: what `toast({ variant, title, description })` shows. */
  datatype Toast = Toast(variant: Variant, title: string, description: string)
}
