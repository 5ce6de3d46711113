/** Option and Result types shared by every module of the model, and the
    failure kinds the Python code raises (or lets escape) on its error paths. */
module Wrappers {

  datatype Option<+T> = None | Some(value: T)

  /** Why a call ends in an exception instead of a value. */
  datatype Failure =
    | EmptyResponse          // the provider answered without content (`ValueError` in the helpers)
    | ProviderError          // the provider call itself raised
    | NoneContent            // `.strip()` on a missing content (`AttributeError`)
    | IndexOutOfRange        // a list index past the end (`IndexError`)
    | NotIterable            // `extend(None)` or a join over a `None` (`TypeError`)
    | MissingKey(key: string)        // a dictionary lookup that misses (`KeyError`)
    | MissingArgument(name: string)  // a call that omits a required argument (`TypeError`)
    | MissingCollaborator    // `add_scene_to_vector_db` given a `None` model, index or list
    | BadRange               // `range(..., 0)` (`ValueError`)
    | WrongType              // a string operation on a value of another type (`TypeError`)
    | MissingAttribute(name: string) // an attribute the object never set (`AttributeError`)
    | RetriesExhausted(last: Failure) // the third failed attempt of a retry loop

  datatype Result<+T> = Ok(value: T) | Err(error: Failure)
}
