/** The exceptions the legacy alarm callback and its client throw: Java's
    NullPointerException and the host's two checked exceptions, each known by its message. */
module LegacyExceptions {

  datatype Exception =
    | NullPointerException
    | ConfigurationException(message: string)
    | AlarmCallbackException(message: string)
}
