/** The Java exceptions the core throws, each carrying the message given where it is thrown. */
module Exceptions {

  datatype Exception =
    | IllegalState(message: string)      // java.lang.IllegalStateException
    | IllegalArgument(message: string)   // java.lang.IllegalArgumentException
    | EntityNotFound(message: string)    // jakarta.persistence.EntityNotFoundException
    | NullPointer                        // dereferencing a null reference
}
