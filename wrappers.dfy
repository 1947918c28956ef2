/** Option: the result of a call into an external service (embedding, chat
    completion, file read) that may fail; None stands for the thrown error. */
module Wrappers {

  datatype Option<+T> = None | Some(value: T)

}
