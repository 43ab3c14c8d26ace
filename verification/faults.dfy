/** The uncaught Python exceptions that end the assistant's main loop. */
module Faults {

  datatype Fault =
    | TypeError         // a non-string handed to the regular-expression search
    | IndexError        // a search label below minus the log length
    | EmbeddingFailed   // the embedding service call raised
    | GenerationFailed  // the chat-completion service call raised
}
