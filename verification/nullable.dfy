/** Null references. */
module Nullable {

  /** A reference that may be null: C# strings, arrays and object references, and
      `FirstOrDefault` results. */
  datatype Option<+T> = None | Some(value: T)
}
