/** Small shared vocabulary: optional values and the time line. */
module Basics {
  datatype Option<+T> = None | Some(value: T)

  /** One monotone clock, shared by the program, MySQL, Redis and the vector store. */
  type Time = int
}
