/** The optional value the model uses for Mongoose's "document or null" results. */
module Wrappers {
  datatype Option<+T> = None | Some(value: T)
}
