/**
 * The JSON objects the server and the client exchange, as records. A field
 * that may be missing from the object is an `Option`; JSON text encoding and
 * the one-object-per-read framing are not modelled.
 */
module Wire {
  import opened Wrappers

  /** The `encryption` object of the welcome message: `encrypted` and, when on, `salt`. */
  datatype EncryptionInfo = EncryptionInfo(encrypted: Option<bool>, salt: Option<string>)

  /** Python truthiness of the `encryption` dictionary: true when it has any key. */
  predicate HasKeys(info: EncryptionInfo) {
    info.encrypted.Some? || info.salt.Some?
  }

  /** The `sender` key: missing, JSON `null`, or a name. */
  datatype Sender = NoSender | NullSender | Named(name: string)

  /** One JSON object on the wire: keys `type`, `message`, `sender` and `encryption`. */
  datatype Envelope = Envelope(
    kind: Option<string>,
    message: Option<string>,
    sender: Sender,
    encryption: Option<EncryptionInfo>)

  const ChatType := "chat"
  const SystemType := "system"
  const ErrorType := "error"
}
