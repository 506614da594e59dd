/**
 * `EnhancedChatClient`: it reads the server's reply to its username, adopts
 * the server's salt, sends typed lines (encrypted when encryption is on) and
 * hands received envelopes to its front end. The socket is a log of what was
 * sent plus two flags; every read is an event the caller supplies, already
 * decoded from JSON.
 */
module Client {
  import opened Wrappers
  import opened Text
  import opened Wire
  import Encryption
  import TerminalUi
  import Server

  // ------------------------------------------------------------ client state

  /** Console lines for received messages when there is no front end: system notices are marked, chat is echoed. */
  datatype Output = Notice(text: string) | Echo(text: string)

  /**
   * The client's own fields: `connected`, `running`, whether a socket was
   * made and whether it was closed, every string sent on it, and the console
   * lines printed for received messages.
   */
  datatype Link = Link(
    connected: bool,
    running: bool,
    hasSocket: bool,
    socketClosed: bool,
    sent: seq<string>,
    printed: seq<Output>)

  // ------------------------------------------------------------ connect

  /** The server's first reply, as `connect` reads it. */
  datatype Reply =
    | SendFailed            // sending the username raised
    | ReadFailed            // the read raised, or its bytes are not UTF-8
    | Empty                 // the read returned nothing
    | NotJson(text: string) // `json.loads` raised a decode error
    | NotObject             // valid JSON that is not an object, so `.get` raises
    | Parsed(env: Envelope)

  /** Refused (closing the socket or not), or accepted with an `encryption` object to set up. */
  datatype Verdict = Refused(closeSocket: bool) | Accepted(setup: Option<EncryptionInfo>)

  /**
   * How `connect` classifies the reply. Every exception lands in its outer
   * handler, which returns False without closing the socket; that includes
   * an `error` or `system` reply without a `message` key.
   */
  function ReadReply(reply: Reply): Verdict {
    match reply
    case SendFailed => Refused(false)
    case ReadFailed => Refused(false)
    case NotObject => Refused(false)
    case Empty => Accepted(None)
    case NotJson(_) => Accepted(None)
    case Parsed(env) =>
      if env.kind == Some(ErrorType) then Refused(env.message.Some?)
      else if env.kind == Some(SystemType) then
        if env.message.None? then Refused(false)
        else if env.encryption.Some? && HasKeys(env.encryption.value) then Accepted(env.encryption)
        else Accepted(None)
      else Accepted(None)
  }

  /** `_setup_encryption`'s decision: the salt to install, if any. */
  function SaltToInstall(info: EncryptionInfo, enabled: bool): Option<string> {
    if info.encrypted == Some(true) && enabled && info.salt.Some? && info.salt.value != "" then info.salt
    else None
  }

  /** The manager's view after `_setup_encryption(info)`. */
  function SetupView(view: Encryption.View, enabled: bool, info: EncryptionInfo): Encryption.View {
    match SaltToInstall(info, enabled)
    case None => view
    case Some(salt) => Encryption.ViewRekeyed(view, salt)
  }

  datatype Handshake = Handshake(link: Link, view: Encryption.View, ok: bool)

  /**
   * `connect`: make a socket; if the server is reachable, become connected;
   * with a non-empty username, send it and read the reply.
   */
  function Connecting(l: Link, view: Encryption.View, enabled: bool, username: string,
                      reachable: bool, reply: Reply): Handshake
  {
    var l1 := l.(hasSocket := true, socketClosed := false);
    if !reachable then Handshake(l1, view, false)
    else
      var l2 := l1.(connected := true);
      if username == "" then Handshake(l2, view, true)
      else if reply.SendFailed? then Handshake(l2, view, false)
      else
        var l3 := l2.(sent := l2.sent + [username]);
        match ReadReply(reply)
        case Refused(close) => Handshake(if close then l3.(socketClosed := true) else l3, view, false)
        case Accepted(setup) => Handshake(l3, if setup.Some? then SetupView(view, enabled, setup.value) else view, true)
  }

  /** An `error` reply with a message makes `connect` close the socket and fail. */
  lemma ErrorReplyRefuses(l: Link, view: Encryption.View, enabled: bool, username: string, env: Envelope)
    requires username != "" && env.kind == Some(ErrorType) && env.message.Some?
    ensures var h := Connecting(l, view, enabled, username, true, Parsed(env));
            !h.ok && h.link.socketClosed && h.view == view && h.link.sent == l.sent + [username]
  {
  }

  /**
   * A `system` reply with a non-empty `encryption` object runs
   * `_setup_encryption` on it; a reply that is not JSON (or empty) still
   * connects, with the key untouched.
   */
  lemma SystemReplyAccepts(l: Link, view: Encryption.View, enabled: bool, username: string, reply: Reply)
    requires username != ""
    ensures reply.Parsed? && reply.env.kind == Some(SystemType) && reply.env.message.Some?
            && reply.env.encryption.Some? && HasKeys(reply.env.encryption.value) ==>
              var h := Connecting(l, view, enabled, username, true, reply);
              h.ok && !h.link.socketClosed && h.view == SetupView(view, enabled, reply.env.encryption.value)
    ensures reply.NotJson? || reply.Empty? ==>
              var h := Connecting(l, view, enabled, username, true, reply);
              h.ok && h.view == view && h.link.connected
    ensures !Connecting(l, view, enabled, username, true, reply).ok ==>
              !ReadReply(reply).Accepted?
  {
  }

  /** The key changes only when the info says `encrypted`, encryption is on here, and the salt is non-empty; then the salt is adopted. */
  lemma SaltInstalledOnlyWhen(view: Encryption.View, enabled: bool, info: EncryptionInfo)
    ensures SetupView(view, enabled, info) != view ==>
              info.encrypted == Some(true) && enabled && info.salt.Some? && info.salt.value != ""
    ensures info.encrypted == Some(true) && enabled && info.salt.Some? && info.salt.value != "" && view.Some? ==>
              SetupView(view, enabled, info) == Some(Encryption.Rekeyed(view.value, info.salt.value))
  {
  }

  /**
   * The two ends agree on the handshake: the server's "name taken" reply is
   * read as a refusal that closes the socket, and its welcome is accepted
   * with its encryption information to set up.
   */
  lemma HandshakeAgrees(name: string, serverView: Encryption.View)
    ensures ReadReply(Parsed(Server.ErrorReply(name))) == Refused(true)
    ensures ReadReply(Parsed(Server.Welcome(name, Encryption.Info(serverView))))
            == Accepted(Some(Encryption.Info(serverView)))
  {
  }

  /** Distinct passwords under one salt derive distinct keys, as PBKDF2 is meant to. */
  ghost predicate InjectiveDerivation(p: Encryption.Primitives) {
    forall pw1, pw2, salt :: pw1 != pw2 ==> p.deriveKey(pw1, salt) != p.deriveKey(pw2, salt)
  }

  /** A token sealed under one key does not open under another, as Fernet's HMAC ensures. */
  ghost predicate Authenticated(p: Encryption.Primitives) {
    forall k1, k2, data :: k1 != k2 && p.seal(k1, data).Some? ==> p.open(k2, p.seal(k1, data).value).None?
  }

  /**
   * The handshake as the program runs it: server and client each build their
   * manager without a password, so each draws its own random one. The client
   * adopts the server's salt, yet (with distinct random passwords) ends with
   * a different key, and the server side gets a client's ciphertext back
   * unchanged when it tries to decrypt it.
   */
  lemma WelcomeKeysDiffer(l: Link, p: Encryption.Primitives, serverRandom: Encryption.Bytes,
                          serverSalt: Encryption.Bytes, clientRandom: Encryption.Bytes,
                          clientSalt: Encryption.Bytes, username: string, name: string, message: string)
    requires username != "" && serverRandom != clientRandom
    requires Encryption.Lawful(p) && InjectiveDerivation(p) && Authenticated(p)
    requires p.b64Encode(serverSalt) != ""
    ensures var server := Encryption.Initial(p, "", serverRandom, serverSalt);
            var h := Connecting(l, Some(Encryption.Initial(p, "", clientRandom, clientSalt)), true, username, true,
                                Parsed(Server.Welcome(name, Encryption.Info(Some(server)))));
            && h.ok && h.view.Some?
            && h.view.value.salt == server.salt
            && h.view.value.key != server.key
            && (p.seal(h.view.value.key, p.utf8Encode(message)).Some? ==>
                  Encryption.DecryptMessage(server, Encryption.Encrypt(h.view, message))
                  == Encryption.Encrypt(h.view, message))
  {
    var server := Encryption.Initial(p, "", serverRandom, serverSalt);
    var client := Encryption.Initial(p, "", clientRandom, clientSalt);
    assert p.b64Decode(p.b64Encode(serverSalt)) == Some(serverSalt);
    var adopted := Encryption.Rekeyed(client, p.b64Encode(serverSalt));
    assert adopted.key == p.deriveKey(clientRandom, serverSalt);
    assert adopted.key != server.key;
    var data := p.utf8Encode(message);
    if p.seal(adopted.key, data).Some? {
      var token := p.seal(adopted.key, data).value;
      assert p.b64Decode(p.b64Encode(token)) == Some(token);
      assert p.open(server.key, token).None?;
    }
  }

  /**
   * The handshake as intended: when both ends build their manager from the
   * same non-empty password, agreed out of band, the client that adopts the
   * server's salt ends with the server's key, so what it encrypts the server
   * can decrypt.
   */
  lemma WelcomeSharesKey(l: Link, p: Encryption.Primitives, password: string,
                         serverRandom: Encryption.Bytes, serverSalt: Encryption.Bytes,
                         clientRandom: Encryption.Bytes, clientSalt: Encryption.Bytes,
                         username: string, name: string, message: string)
    requires username != "" && password != ""
    requires Encryption.Lawful(p)
    requires p.b64Encode(serverSalt) != ""
    ensures var server := Encryption.Initial(p, password, serverRandom, serverSalt);
            var h := Connecting(l, Some(Encryption.Initial(p, password, clientRandom, clientSalt)), true, username, true,
                                Parsed(Server.Welcome(name, Encryption.Info(Some(server)))));
            && h.ok && h.view.Some?
            && h.view.value.key == server.key
            && (p.seal(server.key, p.utf8Encode(message)).Some? ==>
                  Encryption.DecryptMessage(server, Encryption.Encrypt(h.view, message)) == message)
  {
    var server := Encryption.Initial(p, password, serverRandom, serverSalt);
    var client := Encryption.Initial(p, password, clientRandom, clientSalt);
    if p.seal(server.key, p.utf8Encode(message)).Some? {
      Encryption.SharedSaltSharesKey(server, client, message);
    } else {
      assert p.b64Decode(p.b64Encode(serverSalt)) == Some(serverSalt);
    }
  }

  // ------------------------------------------------------------ sending

  /** `_send_message`, the front end's callback: only a non-empty message on a connected client is sent; a failed send disconnects. */
  function Transmitted(view: Encryption.View, l: Link, message: string, sendFails: bool): Link {
    if message != "" && l.connected then
      if sendFails then l.(connected := false) else l.(sent := l.sent + [Encryption.Encrypt(view, message)])
    else l
  }

  lemma SendGate(view: Encryption.View, l: Link, message: string, sendFails: bool)
    ensures var after := Transmitted(view, l, message, sendFails);
            && (after.sent != l.sent <==> message != "" && l.connected && !sendFails)
            && (after.sent != l.sent ==> after.sent == l.sent + [Encryption.Encrypt(view, message)])
            && (after.connected <==> l.connected && (message == "" || !sendFails))
            && after.running == l.running && after.printed == l.printed
  {
  }

  /** The words that end the basic-mode input loop, compared against the whole lower-cased line. */
  predicate IsQuitWord(s: string) {
    s == "/quit" || s == "/exit" || s == "/q"
  }

  /** One event of the basic-mode input loop: a typed line (and whether sending it fails), end of input, or Ctrl+C. */
  datatype Keyed = Entered(line: string, sendFails: bool) | EndOfInput | Interrupted

  /**
   * Both ends strip: with encryption off, the client sends a typed line
   * stripped, and the server's own strip of what arrives changes nothing
   * more, so every other working peer receives the line as it was sent.
   */
  lemma PlainLineArrivesAsSent(cfg: Server.Config, r: Server.Room, c: Server.Conn, name: string,
                               line: string, dead: set<Server.Conn>, d: Server.Conn)
    requires !Blank(line) && d != c && d in r.clients && d !in dead
    ensures var wire := Encryption.Encrypt(None, Strip(line));
            Server.Sent(Server.Relay(cfg, r, c, name, wire, dead), d)
            == Server.Sent(r, d) + [Server.Chat(name, wire)]
  {
    StripCutsBorder(line);
    StripIdempotent(line);
    Server.LineRelayed(cfg, r, c, name, Strip(line), dead, d);
  }

  /**
   * `_send_messages`: runs while running and connected; a quit word, end of
   * input, Ctrl+C or a failed send ends it, and `connected` is cleared on the
   * way out. When the events run out first, the loop is still waiting.
   */
  function Spoken(view: Encryption.View, l: Link, events: seq<Keyed>): Link
    decreases |events|
  {
    if !(l.running && l.connected) || events == [] || !events[0].Entered? then
      if l.running && l.connected && events == [] then l else l.(connected := false)
    else
      var message := Strip(events[0].line);
      if IsQuitWord(Lower(message)) then l.(connected := false)
      else if message == "" then Spoken(view, l, events[1..])
      else if events[0].sendFails then l.(connected := false)
      else Spoken(view, l.(sent := l.sent + [Encryption.Encrypt(view, message)]), events[1..])
  }

  /** A quit word, in any case and with surrounding blanks, ends the loop without sending anything. */
  lemma QuitSendsNothing(view: Encryption.View, l: Link, line: string, fails: bool, rest: seq<Keyed>)
    requires IsQuitWord(Lower(Strip(line)))
    ensures Spoken(view, l, [Entered(line, fails)] + rest) == l.(connected := false)
  {
  }

  /** The quit check compares the whole line: a quit word followed by more text is sent as a chat message. */
  lemma QuitWithArgumentsIsSent(view: Encryption.View, l: Link, rest: seq<Keyed>)
    requires l.running && l.connected
    ensures Spoken(view, l, [Entered("/quit now", false)] + rest)
            == Spoken(view, l.(sent := l.sent + [Encryption.Encrypt(view, "/quit now")]), rest)
  {
    var line := "/quit now";
    assert Strip(line) == line by {
      assert TrimStart(line) == line;
      assert TrimEnd(line) == line;
    }
    assert Lower(line)[5] == ' ';
    assert ([Entered(line, false)] + rest)[1..] == rest;
  }

  /** A string basic mode may send: the encryption of a non-empty line with no surrounding whitespace that is not a quit word. */
  ghost predicate Sayable(view: Encryption.View, s: string) {
    exists m :: m != "" && Unpadded(m) && !IsQuitWord(Lower(m)) && s == Encryption.Encrypt(view, m)
  }

  /** From `l` to `after`, what was sent is only extended, and only with `Sayable` strings. */
  ghost predicate SaysMore(view: Encryption.View, l: Link, after: Link) {
    && |l.sent| <= |after.sent| && after.sent[..|l.sent|] == l.sent
    && forall i :: |l.sent| <= i < |after.sent| ==> Sayable(view, after.sent[i])
  }

  lemma SaysMoreChain(view: Encryption.View, a: Link, b: Link, c: Link)
    requires SaysMore(view, a, b) && SaysMore(view, b, c)
    ensures SaysMore(view, a, c)
  {
    assert c.sent[..|a.sent|] == c.sent[..|b.sent|][..|a.sent|];
    forall i | |a.sent| <= i < |c.sent|
      ensures Sayable(view, c.sent[i])
    {
      if i < |b.sent| {
        assert c.sent[i] == c.sent[..|b.sent|][i];
      }
    }
  }

  /** The line sent for `message`, when it is one. */
  lemma SendingSaysMore(view: Encryption.View, l: Link, line: string)
    requires !IsQuitWord(Lower(Strip(line))) && Strip(line) != ""
    ensures SaysMore(view, l, l.(sent := l.sent + [Encryption.Encrypt(view, Strip(line))]))
  {
    StripCutsBorder(line);
    assert Sayable(view, Encryption.Encrypt(view, Strip(line)));
  }

  /** Basic mode only appends to what was sent, and only `Sayable` strings. */
  lemma {:induction false} SpokenSendsTrimmedLines(view: Encryption.View, l: Link, events: seq<Keyed>)
    ensures SaysMore(view, l, Spoken(view, l, events))
    decreases |events|
  {
    if l.running && l.connected && events != [] && events[0].Entered? {
      var message := Strip(events[0].line);
      if !IsQuitWord(Lower(message)) && message != "" && !events[0].sendFails {
        var l1 := l.(sent := l.sent + [Encryption.Encrypt(view, message)]);
        assert Spoken(view, l, events) == Spoken(view, l1, events[1..]);
        SendingSaysMore(view, l, events[0].line);
        SpokenSendsTrimmedLines(view, l1, events[1..]);
        SaysMoreChain(view, l, l1, Spoken(view, l1, events[1..]));
      } else if message == "" && !IsQuitWord(Lower(message)) {
        SpokenSendsTrimmedLines(view, l, events[1..]);
      } else {
        assert l.sent[..|l.sent|] == l.sent;
      }
    } else {
      assert l.sent[..|l.sent|] == l.sent;
    }
  }

  /** The loop keeps `connected` only while it is still waiting for input, and it never touches `running`. */
  lemma {:induction false} SpokenEnds(view: Encryption.View, l: Link, events: seq<Keyed>)
    ensures Spoken(view, l, events).connected ==> l.running && l.connected
    ensures Spoken(view, l, events).running == l.running
    ensures Spoken(view, l, events).connected && events != [] ==> events[|events| - 1].Entered?
    decreases |events|
  {
    if l.running && l.connected && events != [] && events[0].Entered? {
      var message := Strip(events[0].line);
      if !IsQuitWord(Lower(message)) && message != "" && !events[0].sendFails {
        SpokenEnds(view, l.(sent := l.sent + [Encryption.Encrypt(view, message)]), events[1..]);
      } else if message == "" && !IsQuitWord(Lower(message)) {
        SpokenEnds(view, l, events[1..]);
      }
    }
  }

  // ------------------------------------------------------------ receiving

  /** Which front end the client has: none (console), `TerminalUI`, or `SimpleTerminalUI`. */
  datatype Mode = Console | RichUi | SimpleUi

  /** `message_data.get("sender", "Unknown")`, as `ChatMessage` prints it: JSON `null` shows as "None". */
  function SenderName(s: Sender): string {
    match s
    case NoSender => "Unknown"
    case NullSender => "None"
    case Named(n) => n
  }

  /** What `_listen_for_messages` does with one envelope. */
  datatype Shown =
    | ToUi(m: TerminalUi.ChatMessage) // queued on the `TerminalUI`
    | Printed(o: Output)              // printed to the console
    | Nothing                         // no output for this type
    | Raised                          // the front end lacks the method: the loop ends

  /**
   * The dispatch: a missing `type` is `chat`, a missing `message` is empty,
   * and the message is decrypted. `SimpleTerminalUI` has no
   * `add_system_message` or `add_chat_message`, so those types end the loop.
   */
  function Dispatch(mode: Mode, view: Encryption.View, env: Envelope, now: string): Shown {
    var kind := env.kind.GetOr(ChatType);
    var text := Encryption.Decrypt(view, env.message.GetOr(""));
    if kind == SystemType then
      match mode
      case Console => Printed(Notice(text))
      case RichUi => ToUi(TerminalUi.SystemMessage(text, now))
      case SimpleUi => Raised
    else if kind == ChatType then
      match mode
      case Console => Printed(Echo(text))
      case RichUi => ToUi(TerminalUi.ChatMessage(SenderName(env.sender), text, TerminalUi.ChatKind, now))
      case SimpleUi => Raised
    else Nothing
  }

  lemma DispatchByType(view: Encryption.View, env: Envelope, now: string)
    ensures env.kind.None? ==> Dispatch(RichUi, view, env, now) == Dispatch(RichUi, view, env.(kind := Some(ChatType)), now)
    ensures env.kind == Some(SystemType) ==>
              Dispatch(RichUi, view, env, now).ToUi? && Dispatch(RichUi, view, env, now).m.msgType == TerminalUi.SystemKind
    ensures env.kind == Some(ChatType) && env.sender.NoSender? ==>
              Dispatch(RichUi, view, env, now).ToUi? && Dispatch(RichUi, view, env, now).m.sender == "Unknown"
    ensures env.kind.Some? && env.kind.value != SystemType && env.kind.value != ChatType ==>
              forall mode :: Dispatch(mode, view, env, now) == Nothing
    ensures env.kind.GetOr(ChatType) in {SystemType, ChatType} ==> Dispatch(SimpleUi, view, env, now) == Raised
  {
  }

  /**
   * A chat line relayed by the server reaches the `TerminalUI` under the
   * speaker's name, but what is decrypted is the whole relayed field, label
   * included, not the text the speaker sent.
   */
  lemma RelayedChatShown(view: Encryption.View, name: string, text: string, now: string)
    ensures Dispatch(RichUi, view, Server.Chat(name, text), now)
            == ToUi(TerminalUi.ChatMessage(name, Encryption.Decrypt(view, "[" + name + "]: " + text), TerminalUi.ChatKind, now))
    ensures view.None? ==> Dispatch(RichUi, view, Server.Chat(name, text), now).m.content == "[" + name + "]: " + text
  {
  }

  /** One read of `_listen_for_messages`. */
  datatype Incoming =
    | Received(env: Envelope, now: string) // a JSON object
    | Garbled(text: string)                // not JSON: printed as it is
    | NonObject                            // JSON that is not an object: `.get` raises
    | Hangup                               // the read returned nothing
    | RecvError                            // the read raised

  /** The client's fields together with its `TerminalUI`'s (unused without one). */
  datatype Peer = Peer(link: Link, screen: TerminalUi.Screen)

  function Dropped(p: Peer): Peer {
    p.(link := p.link.(connected := false))
  }

  /**
   * `_listen_for_messages`: runs while running and connected; an empty read,
   * a failed read, a non-object or a missing front-end method ends it, and
   * `connected` is cleared on the way out. When the reads run out first, the
   * loop is still waiting.
   */
  function Listened(mode: Mode, view: Encryption.View, p: Peer, events: seq<Incoming>): Peer
    decreases |events|
  {
    if !(p.link.running && p.link.connected) then Dropped(p)
    else if events == [] then p
    else match events[0]
      case Hangup => Dropped(p)
      case RecvError => Dropped(p)
      case NonObject => Dropped(p)
      case Garbled(text) => Listened(mode, view, p.(link := p.link.(printed := p.link.printed + [Echo(text)])), events[1..])
      case Received(env, now) =>
        match Dispatch(mode, view, env, now)
        case Raised => Dropped(p)
        case Nothing => Listened(mode, view, p, events[1..])
        case Printed(o) => Listened(mode, view, p.(link := p.link.(printed := p.link.printed + [o])), events[1..])
        case ToUi(m) => Listened(mode, view, p.(screen := TerminalUi.Enqueued(p.screen, m)), events[1..])
  }

  /** An empty or failed read among the events ends the loop with `connected` false; listening never sends anything. */
  lemma {:induction false} HangupDisconnects(mode: Mode, view: Encryption.View, p: Peer, events: seq<Incoming>)
    ensures (exists k :: 0 <= k < |events| && (events[k].Hangup? || events[k].RecvError?)) ==>
              !Listened(mode, view, p, events).link.connected
    ensures Listened(mode, view, p, events).link.sent == p.link.sent
    ensures Listened(mode, view, p, events).link.running == p.link.running
    decreases |events|
  {
    if p.link.running && p.link.connected && events != [] {
      var p1 := match events[0]
        case Garbled(text) => p.(link := p.link.(printed := p.link.printed + [Echo(text)]))
        case Received(env, now) =>
          (match Dispatch(mode, view, env, now)
           case Printed(o) => p.(link := p.link.(printed := p.link.printed + [o]))
           case ToUi(m) => p.(screen := TerminalUi.Enqueued(p.screen, m))
           case _ => p)
        case _ => p;
      HangupDisconnects(mode, view, p1, events[1..]);
      if exists k :: 0 <= k < |events| && (events[k].Hangup? || events[k].RecvError?) {
        var k :| 0 <= k < |events| && (events[k].Hangup? || events[k].RecvError?);
        if k > 0 {
          assert events[1..][k - 1] == events[k];
        }
      }
    }
  }

  // ------------------------------------------------------------ get_username

  /**
   * `get_username`: the first typed line that is not blank, stripped. When
   * every line is blank the prompt is still waiting, and the result is `None`.
   */
  method GetUsername(lines: seq<string>) returns (r: Option<string>)
    ensures r.None? <==> forall i :: 0 <= i < |lines| ==> Blank(lines[i])
    ensures r.Some? ==> r.value != "" && Unpadded(r.value)
    ensures r.Some? ==> exists k :: 0 <= k < |lines| && r.value == Strip(lines[k])
                         && forall i :: 0 <= i < k ==> Blank(lines[i])
  {
    var i := 0;
    while i < |lines|
      invariant 0 <= i <= |lines|
      invariant forall j :: 0 <= j < i ==> Blank(lines[j])
    {
      var username := Strip(lines[i]);
      StripCutsBorder(lines[i]);
      if username != "" {
        return Some(username);
      }
      i := i + 1;
    }
    return None;
  }

  // ------------------------------------------------------------ the client

  class EnhancedChatClient {
    const username: string
    const manager: Encryption.EncryptionManager
    const useUi: bool
    var connected: bool
    var running: bool
    var hasSocket: bool
    var socketClosed: bool
    var sent: seq<string>
    var printed: seq<Output>
    var ui: Option<TerminalUi.Display>

    function Model(): Link
      reads this
    {
      Link(connected, running, hasSocket, socketClosed, sent, printed)
    }

    function Mode(): Mode
      reads this
    {
      match ui
      case None => Console
      case Some(Rich(_)) => RichUi
      case Some(Simple(_)) => SimpleUi
    }

    ghost function UiRepr(): set<object>
      reads this
    {
      match ui
      case None => {}
      case Some(Rich(t)) => {t}
      case Some(Simple(t)) => {t}
    }

    function ScreenOf(): TerminalUi.Screen
      reads this, UiRepr()
    {
      match ui
      case Some(Rich(t)) => t.Model()
      case _ => TerminalUi.Screen([], [], false, false, false, [])
    }

    function Current(): Peer
      reads this, UiRepr()
    {
      Peer(Model(), ScreenOf())
    }

    ghost predicate Valid()
      reads this, manager.Repr()
    {
      manager.Valid()
    }

    /** `EnhancedChatClient.__init__`; the manager's random password and salt are arguments. */
    constructor (prims: Encryption.Primitives, username: string, enableEncryption: bool, useUi: bool,
                 randomPassword: Encryption.Bytes, randomSalt: Encryption.Bytes)
      ensures Valid() && fresh(manager.Repr())
      ensures this.username == username && this.useUi == useUi
      ensures manager.enableEncryption == enableEncryption
      ensures Model() == Link(false, false, false, false, [], []) && ui.None?
    {
      this.username := username;
      this.useUi := useUi;
      manager := new Encryption.EncryptionManager(prims, enableEncryption, "", randomPassword, randomSalt);
      connected := false;
      running := false;
      hasSocket := false;
      socketClosed := false;
      sent := [];
      printed := [];
      ui := None;
    }

    method SetupEncryption(info: EncryptionInfo)
      requires Valid()
      modifies manager.Repr()
      ensures Valid()
      ensures manager.View() == SetupView(old(manager.View()), manager.enableEncryption, info)
    {
      if info.encrypted == Some(true) && manager.enableEncryption {
        var salt := info.salt;
        if salt.Some? && salt.value != "" {
          manager.SetSharedKey(salt.value);
        }
      }
    }

    /** `connect`, with whether the server is reachable and its reply as arguments. */
    method Connect(reachable: bool, reply: Reply) returns (ok: bool)
      requires Valid()
      modifies this, manager.Repr()
      ensures Valid() && ui == old(ui)
      ensures Handshake(Model(), manager.View(), ok)
              == Connecting(old(Model()), old(manager.View()), manager.enableEncryption, username, reachable, reply)
    {
      hasSocket := true;
      socketClosed := false;
      if !reachable {
        return false;
      }
      connected := true;
      if username == "" {
        return true;
      }
      if reply.SendFailed? {
        return false;
      }
      sent := sent + [username];
      var verdict := ReadReply(reply);
      match verdict
      case Refused(close) =>
        if close {
          socketClosed := true;
        }
        ok := false;
      case Accepted(setup) =>
        if setup.Some? {
          SetupEncryption(setup.value);
        }
        ok := true;
    }

    /** `start` up to the point where the threads take over: connect, then set up the front end. */
    method Start(reachable: bool, reply: Reply, coloursAvailable: bool) returns (started: bool)
      requires Valid() && ui.None?
      modifies this, manager.Repr()
      ensures Valid()
      ensures started == Connecting(old(Model()), old(manager.View()), manager.enableEncryption, username, reachable, reply).ok
      ensures started ==> running && (useUi <==> ui.Some?)
      ensures !started ==> ui.None?
      ensures ui.Some? ==> Mode() == (if coloursAvailable then RichUi else SimpleUi) && fresh(UiRepr())
      ensures Mode() == RichUi ==> ScreenOf() == TerminalUi.Screen([], [], true, true, true, [])
    {
      started := Connect(reachable, reply);
      if !started {
        return;
      }
      running := true;
      if useUi {
        var d := TerminalUi.CreateUi(username, true, coloursAvailable);
        match d {
          case Rich(t) =>
            t.SetInputCallback();
            t.Open();
          case Simple(t) =>
            t.SetInputCallback();
            t.Open();
        }
        ui := Some(d);
      }
    }

    /** `_send_message`, with whether the socket send fails as an argument. */
    method SendMessage(message: string, sendFails: bool)
      modifies this
      ensures Model() == Transmitted(manager.View(), old(Model()), message, sendFails)
      ensures ui == old(ui)
    {
      if message != "" && connected {
        var encrypted := Encryption.Encrypt(manager.View(), message);
        if sendFails {
          connected := false;
        } else {
          sent := sent + [encrypted];
        }
      }
    }

    /** `_send_messages`; `ended` tells whether the loop finished rather than waiting for more input. */
    method SendMessages(events: seq<Keyed>) returns (ended: bool)
      modifies this
      ensures Model() == Spoken(manager.View(), old(Model()), events)
      ensures ui == old(ui)
      ensures ended <==> !connected
    {
      var view := manager.View();
      var i := 0;
      var broke := false;
      while i < |events| && running && connected && !broke
        invariant 0 <= i <= |events|
        invariant ui == old(ui)
        invariant Spoken(view, old(Model()), events) == Spoken(view, Model(), events[i..])
        invariant broke ==> running && connected && i < |events|
                            && Spoken(view, Model(), events[i..]) == Model().(connected := false)
        decreases |events| - i, if broke then 0 else 1
      {
        match events[i]
        case Entered(line, fails) =>
          var message := Strip(line);
          if IsQuitWord(Lower(message)) {
            broke := true;
          } else if message != "" {
            if fails {
              broke := true;
            } else {
              sent := sent + [Encryption.Encrypt(view, message)];
              i := i + 1;
            }
          } else {
            i := i + 1;
          }
        case EndOfInput =>
          broke := true;
        case Interrupted =>
          broke := true;
      }
      ended := broke || !running || !connected;
      if ended {
        connected := false;
      }
    }

    /** `_listen_for_messages`; `ended` tells whether the loop finished rather than waiting for more reads. */
    method ListenForMessages(events: seq<Incoming>) returns (ended: bool)
      modifies this, UiRepr()
      ensures ui == old(ui)
      ensures Current() == Listened(Mode(), manager.View(), old(Current()), events)
      ensures ended <==> !connected
    {
      var view := manager.View();
      var mode := Mode();
      var i := 0;
      var broke := false;
      while i < |events| && running && connected && !broke
        invariant 0 <= i <= |events|
        invariant ui == old(ui) && Mode() == mode
        invariant Listened(mode, view, old(Current()), events) == Listened(mode, view, Current(), events[i..])
        invariant broke ==> running && connected && i < |events|
                            && Listened(mode, view, Current(), events[i..]) == Dropped(Current())
        decreases |events| - i, if broke then 0 else 1
      {
        match events[i]
        case Garbled(text) =>
          printed := printed + [Echo(text)];
          i := i + 1;
        case Received(env, now) =>
          var shown := Dispatch(mode, view, env, now);
          match shown {
            case Raised =>
              broke := true;
            case Nothing =>
              i := i + 1;
            case Printed(o) =>
              printed := printed + [o];
              i := i + 1;
            case ToUi(m) =>
              var t := ui.value.rich;
              t.AddMessage(m);
              i := i + 1;
          }
        case NonObject =>
          broke := true;
        case Hangup =>
          broke := true;
        case RecvError =>
          broke := true;
      }
      ended := broke || !running || !connected;
      if ended {
        connected := false;
      }
    }

    /** `stop`: both flags cleared, the front end stopped, the socket closed if there is one. */
    method Stop()
      modifies this, UiRepr()
      ensures ui == old(ui)
      ensures Model() == old(Model()).(running := false, connected := false,
                                       socketClosed := old(socketClosed) || old(hasSocket))
      ensures Mode() == RichUi ==> ScreenOf() == TerminalUi.Stopped(old(ScreenOf()))
      ensures ui.Some? && ui.value.Simple? ==> !ui.value.simple.running && !ui.value.simple.connected
    {
      running := false;
      connected := false;
      match ui {
        case Some(Rich(t)) => t.Stop();
        case Some(Simple(t)) => t.Stop();
        case None =>
      }
      if hasSocket {
        socketClosed := true;
      }
    }
  }
}
