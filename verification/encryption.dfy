/**
 * Application-level message encryption: `ChatEncryption` (password, salt and
 * the key derived from them) and `EncryptionManager`, which turns every
 * operation into the identity when encryption is disabled.
 *
 * The cryptography itself (PBKDF2, Fernet, base64 and UTF-8) is foreign code.
 * It is a `Primitives` value of functions; the facts the model relies on
 * about them are the predicate `Lawful`, which lemmas take as a precondition.
 */
module Encryption {
  import opened Wrappers
  import opened Wire

  newtype Byte = x: int | 0 <= x < 256
  type Bytes = seq<Byte>

  /** The foreign capabilities, each possibly failing where the library can raise. */
  datatype Primitives = Primitives(
    deriveKey: (Bytes, Bytes) -> Bytes,     // PBKDF2-HMAC-SHA256(password, salt), then url-safe base64
    seal: (Bytes, Bytes) -> Option<Bytes>,  // Fernet(key).encrypt(data); None when it raises
    open: (Bytes, Bytes) -> Option<Bytes>,  // Fernet(key).decrypt(token); None on a bad token
    b64Encode: Bytes -> string,             // base64.urlsafe_b64encode(...).decode()
    b64Decode: string -> Option<Bytes>,     // base64.urlsafe_b64decode(...); None when it raises
    utf8Encode: string -> Bytes,            // str.encode('utf-8')
    utf8Decode: Bytes -> Option<string>)    // bytes.decode('utf-8'); None when it raises

  /** What the libraries guarantee: each decoder undoes its encoder under the same key. */
  ghost predicate Lawful(p: Primitives) {
    && (forall key, data :: p.seal(key, data).Some? ==> p.open(key, p.seal(key, data).value) == Some(data))
    && (forall data :: p.b64Decode(p.b64Encode(data)) == Some(data))
    && (forall s :: p.utf8Decode(p.utf8Encode(s)) == Some(s))
  }

  /** The fields of one `ChatEncryption` object; its `cipher` is `Fernet(key)`, determined by `key`. */
  datatype Keying = Keying(prims: Primitives, password: Bytes, salt: Bytes, key: Bytes)

  /** The key is the one derived from the password and the salt. */
  ghost predicate Derived(k: Keying) {
    k.key == k.prims.deriveKey(k.password, k.salt)
  }

  /** `ChatEncryption.encrypt_message`: the base64 of the Fernet token, or the text itself if encryption raises. */
  function EncryptMessage(k: Keying, message: string): string {
    match k.prims.seal(k.key, k.prims.utf8Encode(message))
    case None => message
    case Some(token) => k.prims.b64Encode(token)
  }

  /**
   * `ChatEncryption.decrypt_message`: text that is not base64, or whose token
   * does not open under the key, or whose plaintext is not UTF-8, comes back
   * unchanged. `_is_base64` and the decoding call the same library function.
   */
  function DecryptMessage(k: Keying, text: string): string {
    match k.prims.b64Decode(text)
    case None => text
    case Some(token) =>
      match k.prims.open(k.key, token)
      case None => text
      case Some(plain) => k.prims.utf8Decode(plain).GetOr(text)
  }

  /** `ChatEncryption.get_public_info`. */
  function PublicInfo(k: Keying): EncryptionInfo {
    EncryptionInfo(Some(true), Some(k.prims.b64Encode(k.salt)))
  }

  /**
   * The new fields after `ChatEncryption.set_shared_key(salt)`: a salt that
   * is not base64 leaves everything as it was (the exception is swallowed).
   */
  function Rekeyed(k: Keying, salt: string): Keying {
    match k.prims.b64Decode(salt)
    case None => k
    case Some(raw) => k.(salt := raw, key := k.prims.deriveKey(k.password, raw))
  }

  /**
   * The fields `ChatEncryption.__init__` sets: the UTF-8 of a non-empty
   * password, else the random one; the random salt; the key derived from both.
   */
  function Initial(prims: Primitives, password: string, randomPassword: Bytes, randomSalt: Bytes): (k: Keying)
    ensures Derived(k) && k.prims == prims && k.salt == randomSalt
    ensures k.password == if password != "" then prims.utf8Encode(password) else randomPassword
  {
    var pw := if password != "" then prims.utf8Encode(password) else randomPassword;
    Keying(prims, pw, randomSalt, prims.deriveKey(pw, randomSalt))
  }

  class ChatEncryption {
    const prims: Primitives
    const password: Bytes
    var salt: Bytes
    var key: Bytes

    function State(): Keying
      reads this
    {
      Keying(prims, password, salt, key)
    }

    ghost predicate Valid()
      reads this
    {
      Derived(State())
    }

    /**
     * `ChatEncryption.__init__`: the UTF-8 of a non-empty password, else a
     * random one; a random salt. The randomness is given as arguments.
     */
    constructor (prims: Primitives, password: string, randomPassword: Bytes, randomSalt: Bytes)
      ensures Valid()
      ensures State() == Initial(prims, password, randomPassword, randomSalt)
    {
      this.prims := prims;
      this.password := if password != "" then prims.utf8Encode(password) else randomPassword;
      salt := randomSalt;
      key := prims.deriveKey(if password != "" then prims.utf8Encode(password) else randomPassword, randomSalt);
    }

    /** `ChatEncryption.set_shared_key`. */
    method SetSharedKey(salt: string)
      requires Valid()
      modifies this
      ensures Valid()
      ensures State() == Rekeyed(old(State()), salt)
    {
      var raw := prims.b64Decode(salt);
      if raw.Some? {
        this.salt := raw.value;
        key := prims.deriveKey(password, raw.value);
      }
    }
  }

  /**
   * What an `EncryptionManager` encrypts with: `None` when `enable_encryption`
   * is off or there is no `ChatEncryption` object, else that object's fields.
   */
  type View = Option<Keying>

  /** `EncryptionManager.encrypt`. */
  function Encrypt(view: View, message: string): string {
    match view
    case None => message
    case Some(k) => EncryptMessage(k, message)
  }

  /** `EncryptionManager.decrypt`. */
  function Decrypt(view: View, message: string): string {
    match view
    case None => message
    case Some(k) => DecryptMessage(k, message)
  }

  /** `EncryptionManager.get_encryption_info`. */
  function Info(view: View): EncryptionInfo {
    match view
    case None => EncryptionInfo(Some(false), None)
    case Some(k) => PublicInfo(k)
  }

  /** The view after `EncryptionManager.set_shared_key`. */
  function ViewRekeyed(view: View, salt: string): View {
    match view
    case None => None
    case Some(k) => Some(Rekeyed(k, salt))
  }

  class EncryptionManager {
    const enableEncryption: bool
    const encryption: ChatEncryption?

    ghost function Repr(): set<object> {
      if encryption == null then {} else {encryption}
    }

    ghost predicate Valid()
      reads Repr()
    {
      && (enableEncryption ==> encryption != null)
      && (encryption != null ==> encryption.Valid())
    }

    function View(): View
      reads Repr()
    {
      if !enableEncryption || encryption == null then None else Some(encryption.State())
    }

    /** `EncryptionManager.__init__`: a `ChatEncryption` exactly when encryption is enabled. */
    constructor (prims: Primitives, enable: bool, password: string, randomPassword: Bytes, randomSalt: Bytes)
      ensures Valid() && fresh(Repr())
      ensures enableEncryption == enable
      ensures encryption != null <==> enable
      ensures View() == if enable then Some(Initial(prims, password, randomPassword, randomSalt)) else None
    {
      enableEncryption := enable;
      if enable {
        encryption := new ChatEncryption(prims, password, randomPassword, randomSalt);
      } else {
        encryption := null;
      }
    }

    /** `EncryptionManager.set_shared_key`: forwards only when encryption is on. */
    method SetSharedKey(salt: string)
      requires Valid()
      modifies Repr()
      ensures Valid()
      ensures View() == ViewRekeyed(old(View()), salt)
      ensures !enableEncryption ==> encryption == null || encryption.State() == old(encryption.State())
    {
      if enableEncryption && encryption != null {
        encryption.SetSharedKey(salt);
      }
    }
  }

  // ---------------------------------------------------------------- properties

  /** With encryption off, `encrypt` and `decrypt` return their argument. */
  lemma DisabledIsIdentity(message: string)
    ensures Encrypt(None, message) == message
    ensures Decrypt(None, message) == message
  {
  }

  /** With encryption off the public information is exactly `{"encrypted": False}`; on, it is `encrypted: True` with the encoded salt. */
  lemma InfoByMode(view: View)
    ensures view.None? ==> Info(view) == EncryptionInfo(Some(false), None)
    ensures view.Some? ==> Info(view).encrypted == Some(true)
                           && Info(view).salt == Some(view.value.prims.b64Encode(view.value.salt))
  {
  }

  /** The two fallbacks of `decrypt_message`: text that is not base64, or whose token does not open, is returned as it is. */
  lemma DecryptFallsBack(k: Keying, text: string)
    requires k.prims.b64Decode(text).None? || k.prims.open(k.key, k.prims.b64Decode(text).value).None?
    ensures DecryptMessage(k, text) == text
  {
  }

  /** When the cipher raises, `encrypt_message` sends the plaintext. */
  lemma EncryptFallsBack(k: Keying, message: string)
    requires k.prims.seal(k.key, k.prims.utf8Encode(message)).None?
    ensures EncryptMessage(k, message) == message
  {
  }

  /** Decryption either returns its input or the UTF-8 plaintext of a token that opened. */
  lemma DecryptOutcomes(k: Keying, text: string)
    ensures var r := DecryptMessage(k, text);
            r == text
            || (exists token, plain :: k.prims.b64Decode(text) == Some(token)
                                      && k.prims.open(k.key, token) == Some(plain)
                                      && k.prims.utf8Decode(plain) == Some(r))
  {
  }

  /** Round trip: what `encrypt_message` produced, `decrypt_message` with the same key turns back into the message. */
  lemma RoundTrip(k: Keying, message: string)
    requires Lawful(k.prims)
    requires k.prims.seal(k.key, k.prims.utf8Encode(message)).Some?
    ensures DecryptMessage(k, EncryptMessage(k, message)) == message
  {
    var p := k.prims;
    var token := p.seal(k.key, p.utf8Encode(message)).value;
    assert p.b64Decode(p.b64Encode(token)) == Some(token);
    assert p.open(k.key, token) == Some(p.utf8Encode(message));
    assert p.utf8Decode(p.utf8Encode(message)) == Some(message);
  }

  /** The same round trip through `EncryptionManager.encrypt` and `decrypt` on one view. */
  lemma ManagerRoundTrip(view: View, message: string)
    requires view.Some? ==> Lawful(view.value.prims)
    requires view.Some? ==> view.value.prims.seal(view.value.key, view.value.prims.utf8Encode(message)).Some?
    ensures Decrypt(view, Encrypt(view, message)) == message
  {
    if view.Some? {
      RoundTrip(view.value, message);
    }
  }

  /**
   * `set_shared_key` replaces the salt with the decoded argument and derives
   * the key again from the unchanged password; a salt that does not decode
   * changes nothing.
   */
  lemma RekeyedRederives(k: Keying, salt: string)
    ensures Rekeyed(k, salt).password == k.password && Rekeyed(k, salt).prims == k.prims
    ensures Derived(k) ==> Derived(Rekeyed(k, salt))
    ensures k.prims.b64Decode(salt).Some? ==> Rekeyed(k, salt).salt == k.prims.b64Decode(salt).value
    ensures k.prims.b64Decode(salt).None? ==> Rekeyed(k, salt) == k
  {
  }

  /**
   * The key exchange: a client whose password equals the server's adopts the
   * salt the server published and so derives the server's key; a message it
   * encrypts then decrypts on the server side.
   */
  lemma SharedSaltSharesKey(server: Keying, client: Keying, message: string)
    requires Lawful(server.prims) && client.prims == server.prims
    requires Derived(server) && client.password == server.password
    requires server.prims.seal(server.key, server.prims.utf8Encode(message)).Some?
    ensures var adopted := Rekeyed(client, PublicInfo(server).salt.value);
            adopted.salt == server.salt && adopted.key == server.key
            && DecryptMessage(server, EncryptMessage(adopted, message)) == message
  {
    var p := server.prims;
    assert p.b64Decode(p.b64Encode(server.salt)) == Some(server.salt);
    var adopted := Rekeyed(client, PublicInfo(server).salt.value);
    assert adopted.key == server.key;
    assert EncryptMessage(adopted, message) == EncryptMessage(server, message);
    RoundTrip(server, message);
  }
}
