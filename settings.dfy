/**
 * Configuration values as the core receives them. Looking a key up in a
 * java.util.Properties object and running Integer.parseInt on it are outside
 * the model; what remains is the outcome of that lookup.
 */
module Settings {

  /** The result of reading one numeric configuration key. */
  datatype Setting =
    | Missing             // the key is absent
    | Number(value: int)  // Integer.parseInt accepted the text
    | Malformed           // Integer.parseInt threw NumberFormatException

  /** The IllegalArgumentException messages raised while validating configuration. */
  datatype ConfigError =
    | NotAnInteger(name: string)
    | OutOfRange(name: string)
    | InvalidServerAddress
    | MissingParameter
}
