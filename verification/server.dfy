/**
 * The relay server (`ChatServer`): its registry of named connections, the
 * registration handshake, the relay loop, broadcast with eviction of the
 * connections whose send fails, teardown and stop.
 *
 * Connections are numbers. What the server writes to a connection is kept in
 * that connection's outbox; which sends raise is decided by an oracle, the
 * set `dead` of connections whose socket is broken. Operations run one after
 * another; the threads of the original are not modelled.
 */
module Server {
  import opened Wrappers
  import opened Text
  import opened Wire
  import Encryption

  type Conn = nat

  /** One `message_history` entry (its `time.time()` stamp is not modelled). */
  datatype HistoryEntry = HistoryEntry(sender: string, decrypted: string, encrypted: string)

  /** One `recv` result of the relay loop: text (empty when the peer closed), or a socket error. */
  datatype Recv = Data(text: string) | Failure

  /** How registration went. */
  datatype Handshake =
    | NoName                 // the first read was empty: nothing registered, nothing closed
    | Rejected(name: string) // the name was taken
    | Broken(name: string)   // registered, but the welcome could not be sent
    | Welcomed(name: string) // registered and welcomed

  /** The server's mutable fields, plus what it has written to and closed on each connection. */
  datatype Room = Room(
    clients: map<Conn, string>,
    running: bool,
    history: seq<HistoryEntry>,
    outbox: map<Conn, seq<Envelope>>,
    closed: set<Conn>)

  /** What never changes after construction: the encryption view and `auto_clear_history`. */
  datatype Config = Config(crypto: Encryption.View, autoClear: bool)

  datatype Admission = Admission(room: Room, outcome: Handshake)

  // ------------------------------------------------------------ the invariant

  /** No two registered connections carry the same name. */
  ghost predicate NamesUnique(clients: map<Conn, string>) {
    forall a, b :: a in clients && b in clients && a != b ==> clients[a] != clients[b]
  }

  /** Names are unique and no registered connection has been closed. */
  ghost predicate Consistent(r: Room) {
    NamesUnique(r.clients) && r.clients.Keys !! r.closed
  }

  // -------------------------------------------------------------- envelopes

  function Mailbox(outbox: map<Conn, seq<Envelope>>, c: Conn): seq<Envelope> {
    if c in outbox then outbox[c] else []
  }

  /** Everything the server has written to `c`. */
  function Sent(r: Room, c: Conn): seq<Envelope> {
    Mailbox(r.outbox, c)
  }

  /** Append `env` to the outbox of every connection in `to`. */
  function Deliver(outbox: map<Conn, seq<Envelope>>, to: set<Conn>, env: Envelope): map<Conn, seq<Envelope>> {
    map c | c in outbox.Keys + to :: if c in to then Mailbox(outbox, c) + [env] else outbox[c]
  }

  lemma DeliverOneMore(outbox: map<Conn, seq<Envelope>>, to: set<Conn>, c: Conn, env: Envelope)
    requires c !in to
    ensures Deliver(outbox, to + {c}, env) == Deliver(outbox, to, env)[c := Mailbox(outbox, c) + [env]]
  {
  }

  /** Removing connections from the registry and closing them keeps the invariant. */
  lemma EvictionKeepsConsistent(r: Room, gone: set<Conn>)
    requires Consistent(r)
    ensures Consistent(r.(clients := r.clients - gone, closed := r.closed + gone))
  {
  }

  /** The error reply to a taken name. */
  function ErrorReply(name: string): Envelope {
    Envelope(Some(ErrorType), Some("Username '" + name + "' is already taken. Please choose another."), NoSender, None)
  }

  /** The welcome reply, carrying the encryption information. */
  function Welcome(name: string, info: EncryptionInfo): Envelope {
    Envelope(Some(SystemType), Some("Welcome to the chat, " + name + "! Type your messages below."), NoSender, Some(info))
  }

  /** Python's `f"{sender}"`: `None` prints as "None". */
  function SenderText(sender: Option<string>): string {
    sender.GetOr("None")
  }

  /** The `message` field of a broadcast: labelled with the sender for chat, `[SYSTEM]` for every other type. */
  function FormatMessage(message: string, msgType: string, sender: Option<string>): string {
    if msgType == ChatType then "[" + SenderText(sender) + "]: " + message else "[SYSTEM]: " + message
  }

  /** The object `broadcast_message` sends: `sender` is always present, `null` when absent. */
  function BroadcastEnvelope(message: string, msgType: string, sender: Option<string>): Envelope {
    Envelope(Some(msgType), Some(FormatMessage(message, msgType, sender)),
             if sender.Some? then Named(sender.value) else NullSender, None)
  }

  function Joined(name: string): Envelope {
    BroadcastEnvelope(name + " joined the chat!", SystemType, None)
  }

  function Left(name: string): Envelope {
    BroadcastEnvelope(name + " left the chat!", SystemType, None)
  }

  function Chat(name: string, line: string): Envelope {
    BroadcastEnvelope(line, ChatType, Some(name))
  }

  // ------------------------------------------------------ the specification

  /** The registered connections other than the excluded one (`exclude_socket=None` excludes nobody). */
  function Recipients(clients: map<Conn, string>, exclude: Option<Conn>): set<Conn> {
    set c | c in clients && exclude != Some(c)
  }

  /**
   * `broadcast_message`: every recipient whose socket works gets the
   * envelope; every recipient whose send raised is removed and closed
   * afterwards. Nobody else is touched.
   */
  function Broadcast(r: Room, message: string, msgType: string, sender: Option<string>,
                     exclude: Option<Conn>, dead: set<Conn>): Room
  {
    var targets := Recipients(r.clients, exclude);
    r.(clients := r.clients - (targets * dead),
       outbox := Deliver(r.outbox, targets - dead, BroadcastEnvelope(message, msgType, sender)),
       closed := r.closed + targets * dead)
  }

  /** `_add_to_history`: appends only when `auto_clear_history` is set. */
  function Recorded(cfg: Config, r: Room, sender: string, decrypted: string, encrypted: string): Room {
    if cfg.autoClear then r.(history := r.history + [HistoryEntry(sender, decrypted, encrypted)]) else r
  }

  /** `_check_and_clear_if_empty` (the history part of `_clear_all_traces`). */
  function ClearedIfEmpty(cfg: Config, r: Room): Room {
    if |r.clients| == 0 && cfg.autoClear then r.(history := []) else r
  }

  /**
   * Registration, the first part of `handle_client`. The name is the received
   * text stripped; only an empty read is refused, so a whitespace-only name
   * registers as "".
   */
  function Admit(cfg: Config, r: Room, c: Conn, nameData: string, dead: set<Conn>): Admission {
    if nameData == "" then Admission(r, NoName)
    else
      var name := Strip(nameData);
      if name in r.clients.Values then
        // a failed send of the error reply skips the close
        if c in dead then Admission(r, Rejected(name))
        else Admission(r.(outbox := r.outbox[c := Sent(r, c) + [ErrorReply(name)]], closed := r.closed + {c}),
                       Rejected(name))
      else
        var r1 := r.(clients := r.clients[c := name]);
        if c in dead then Admission(r1, Broken(name))
        else
          var r2 := r1.(outbox := r1.outbox[c := Sent(r1, c) + [Welcome(name, Encryption.Info(cfg.crypto))]]);
          Admission(Broadcast(r2, name + " joined the chat!", SystemType, None, Some(c), dead), Welcomed(name))
  }

  /**
   * One pass of the relay loop with text received from `c`: a blank line is
   * dropped; otherwise the stripped text (not its decryption) is broadcast as
   * chat from `name` to everybody but `c`.
   */
  function Relay(cfg: Config, r: Room, c: Conn, name: string, data: string, dead: set<Conn>): Room {
    var message := Strip(data);
    if message == "" then r
    else
      var r1 := Recorded(cfg, r, name, Encryption.Decrypt(cfg.crypto, message), message);
      Broadcast(r1, message, ChatType, Some(name), Some(c), dead)
  }

  /** The relay loop: it runs while the server runs and ends at an empty read, a socket error or the end of the input. */
  function Converse(cfg: Config, r: Room, c: Conn, name: string, events: seq<Recv>, dead: set<Conn>): Room
    decreases |events|
  {
    if !r.running || events == [] || events[0].Failure? || events[0].text == "" then r
    else Converse(cfg, Relay(cfg, r, c, name, events[0].text, dead), c, name, events[1..], dead)
  }

  /**
   * The `finally` block of `handle_client`: only a connection still registered
   * is removed, closed and announced as gone; an empty name is removed
   * silently and does not trigger the history check.
   */
  function Depart(cfg: Config, r: Room, c: Conn, dead: set<Conn>): Room {
    if c !in r.clients then r
    else
      var name := r.clients[c];
      var r1 := r.(clients := r.clients - {c}, closed := r.closed + {c});
      if name == "" then r1
      else ClearedIfEmpty(cfg, Broadcast(r1, name + " left the chat!", SystemType, None, None, dead))
  }

  /** `handle_client` for one connection: register, relay what it sends, tear down. */
  function Serve(cfg: Config, r: Room, c: Conn, nameData: string, events: seq<Recv>, dead: set<Conn>): Room {
    var a := Admit(cfg, r, c, nameData, dead);
    var r1 := if a.outcome.Welcomed? then Converse(cfg, a.room, c, a.outcome.name, events, dead) else a.room;
    Depart(cfg, r1, c, dead)
  }

  /** `stop`: not running, history cleared when auto-clear is on, every client closed and forgotten. */
  function Shutdown(cfg: Config, r: Room): Room {
    r.(running := false,
       history := if cfg.autoClear then [] else r.history,
       closed := r.closed + r.clients.Keys,
       clients := map[])
  }

  // ------------------------------------------------------------- the server

  class ChatServer {
    const manager: Encryption.EncryptionManager
    const autoClearHistory: bool
    var clients: map<Conn, string>
    var running: bool
    var messageHistory: seq<HistoryEntry>
    var outbox: map<Conn, seq<Envelope>>
    var closed: set<Conn>

    function Model(): Room
      reads this
    {
      Room(clients, running, messageHistory, outbox, closed)
    }

    function Cfg(): Config
      reads manager.Repr()
    {
      Config(manager.View(), autoClearHistory)
    }

    ghost predicate Valid()
      reads this, manager.Repr()
    {
      Consistent(Model()) && manager.Valid()
    }

    /** `ChatServer.__init__`: the manager's random password and salt are arguments. */
    constructor (prims: Encryption.Primitives, enableEncryption: bool, autoClearHistory: bool,
                 randomPassword: Encryption.Bytes, randomSalt: Encryption.Bytes)
      ensures Valid() && fresh(manager.Repr())
      ensures Model() == Room(map[], false, [], map[], {})
      ensures this.autoClearHistory == autoClearHistory
      ensures manager.enableEncryption == enableEncryption
    {
      manager := new Encryption.EncryptionManager(prims, enableEncryption, "", randomPassword, randomSalt);
      this.autoClearHistory := autoClearHistory;
      clients := map[];
      running := false;
      messageHistory := [];
      outbox := map[];
      closed := {};
    }

    /** The `running = True` of `start` (the accept loop is not modelled). */
    method Start()
      requires Valid()
      modifies this
      ensures Valid()
      ensures Model() == old(Model()).(running := true)
    {
      running := true;
    }

    method BroadcastMessage(message: string, msgType: string, sender: Option<string>,
                            exclude: Option<Conn>, dead: set<Conn>)
      requires Valid()
      modifies this
      ensures Valid()
      ensures Model() == Broadcast(old(Model()), message, msgType, sender, exclude, dead)
    {
      var env := BroadcastEnvelope(message, msgType, sender);
      var disconnected := SendToEach(env, exclude, dead);
      EvictAll(disconnected);
      EvictionKeepsConsistent(old(Model()), disconnected);
    }

    /** The first loop of `broadcast_message`: send to each recipient, collecting those whose send raises. */
    method SendToEach(env: Envelope, exclude: Option<Conn>, dead: set<Conn>) returns (disconnected: set<Conn>)
      modifies this`outbox
      ensures disconnected == Recipients(clients, exclude) * dead
      ensures outbox == Deliver(old(outbox), Recipients(clients, exclude) - dead, env)
    {
      ghost var targets := Recipients(clients, exclude);
      disconnected := {};
      var pending := clients.Keys;
      while pending != {}
        invariant pending <= clients.Keys
        invariant disconnected == (targets - pending) * dead
        invariant outbox == Deliver(old(outbox), (targets - pending) - dead, env)
        decreases pending
      {
        var c :| c in pending;
        ghost var done := (targets - pending) - dead;
        if exclude != Some(c) {
          if c in dead {
            disconnected := disconnected + {c};
          } else {
            assert Mailbox(outbox, c) == Mailbox(old(outbox), c);
            DeliverOneMore(old(outbox), done, c, env);
            outbox := outbox[c := Mailbox(outbox, c) + [env]];
            assert (targets - (pending - {c})) - dead == done + {c};
          }
        } else {
          assert (targets - (pending - {c})) - dead == done;
        }
        pending := pending - {c};
      }
      assert targets - pending == targets;
    }

    /** The second loop of `broadcast_message`: drop and close every connection whose send failed. */
    method EvictAll(disconnected: set<Conn>)
      modifies this`clients, this`closed
      ensures clients == old(clients) - disconnected
      ensures closed == old(closed) + (disconnected * old(clients).Keys)
    {
      var evicting := disconnected;
      while evicting != {}
        invariant evicting <= disconnected
        invariant clients == old(clients) - (disconnected - evicting)
        invariant closed == old(closed) + ((disconnected - evicting) * old(clients).Keys)
        decreases evicting
      {
        var c :| c in evicting;
        if c in clients {
          clients := clients - {c};
          closed := closed + {c};
        }
        evicting := evicting - {c};
      }
    }

    method AddToHistory(sender: string, decrypted: string, encrypted: string)
      requires Valid()
      modifies this
      ensures Valid()
      ensures Model() == Recorded(Cfg(), old(Model()), sender, decrypted, encrypted)
    {
      if autoClearHistory {
        messageHistory := messageHistory + [HistoryEntry(sender, decrypted, encrypted)];
      }
    }

    /** The history part of `_clear_all_traces` (the rest prints). */
    method ClearAllTraces()
      requires Valid()
      modifies this
      ensures Valid()
      ensures Model() == old(Model()).(history := [])
    {
      messageHistory := [];
    }

    method CheckAndClearIfEmpty()
      requires Valid()
      modifies this
      ensures Valid()
      ensures Model() == ClearedIfEmpty(Cfg(), old(Model()))
    {
      if |clients| == 0 && autoClearHistory {
        ClearAllTraces();
      }
    }

    /**
     * `handle_client` for the fresh connection `c`: `nameData` is its first
     * read, `events` the reads that follow (after the last one the peer
     * closes), and `dead` the connections whose sends raise meanwhile.
     */
    method HandleClient(c: Conn, nameData: string, events: seq<Recv>, dead: set<Conn>)
      requires Valid() && c !in clients && c !in closed
      modifies this
      ensures Valid()
      ensures Model() == Serve(Cfg(), old(Model()), c, nameData, events, dead)
    {
      var username := "";
      var welcomed := false;
      if nameData != "" {
        username := Strip(nameData);
        if username in clients.Values {
          if c !in dead {
            outbox := outbox[c := Mailbox(outbox, c) + [ErrorReply(username)]];
            closed := closed + {c};
          }
        } else {
          clients := clients[c := username];
          if c !in dead {
            outbox := outbox[c := Mailbox(outbox, c) + [Welcome(username, Encryption.Info(manager.View()))]];
            BroadcastMessage(username + " joined the chat!", SystemType, None, Some(c), dead);
            welcomed := true;
          }
        }
      }
      assert welcomed ==> Admit(Cfg(), old(Model()), c, nameData, dead) == Admission(Model(), Welcomed(username));
      assert !welcomed ==> Admit(Cfg(), old(Model()), c, nameData, dead).room == Model();
      if welcomed {
        ghost var start := Model();
        var i := 0;
        while running
          invariant 0 <= i <= |events|
          invariant Valid()
          invariant Converse(Cfg(), start, c, username, events, dead)
                 == Converse(Cfg(), Model(), c, username, events[i..], dead)
          decreases |events| - i
        {
          if i == |events| {
            break;
          }
          if events[i].Failure? || events[i].text == "" {
            break;
          }
          ReceiveLine(c, username, events[i].text, dead);
          i := i + 1;
        }
      }
      if c in clients {
        var name := clients[c];
        clients := clients - {c};
        closed := closed + {c};
        if name != "" {
          BroadcastMessage(name + " left the chat!", SystemType, None, None, dead);
          CheckAndClearIfEmpty();
        }
      }
    }

    /** One non-terminal read of the relay loop. */
    method ReceiveLine(c: Conn, username: string, data: string, dead: set<Conn>)
      requires Valid()
      modifies this
      ensures Valid()
      ensures Model() == Relay(Cfg(), old(Model()), c, username, data, dead)
    {
      var message := Strip(data);
      if message != "" {
        var decrypted := Encryption.Decrypt(manager.View(), message);
        AddToHistory(username, decrypted, message);
        BroadcastMessage(message, ChatType, Some(username), Some(c), dead);
      }
    }

    method Stop()
      requires Valid()
      modifies this
      ensures Valid()
      ensures Model() == Shutdown(Cfg(), old(Model()))
    {
      running := false;
      if autoClearHistory {
        ClearAllTraces();
      }
      closed := closed + clients.Keys;
      clients := map[];
    }
  }

  // ------------------------------------------------------------- properties

  /** A name some registered client already holds is refused: the registry is unchanged and the requester alone gets the error. */
  lemma TakenNameRejected(cfg: Config, r: Room, c: Conn, nameData: string, dead: set<Conn>)
    requires nameData != "" && Strip(nameData) in r.clients.Values
    ensures var a := Admit(cfg, r, c, nameData, dead);
            && a.outcome == Rejected(Strip(nameData))
            && a.room.clients == r.clients
            && (c !in dead ==> Sent(a.room, c) == Sent(r, c) + [ErrorReply(Strip(nameData))] && c in a.room.closed)
            && (c in dead ==> a.room == r)
            && forall d :: d != c ==> Sent(a.room, d) == Sent(r, d)
  {
  }

  /** An empty first read registers nothing, sends nothing and leaves the socket open. */
  lemma EmptyNameDataIgnored(cfg: Config, r: Room, c: Conn, events: seq<Recv>, dead: set<Conn>)
    requires c !in r.clients
    ensures Serve(cfg, r, c, "", events, dead) == r
  {
  }

  /**
   * Registration keeps names pairwise distinct and no registered socket
   * closed; a newly registered connection carries exactly the stripped text
   * it sent.
   */
  lemma AdmitKeepsConsistent(cfg: Config, r: Room, c: Conn, nameData: string, dead: set<Conn>)
    requires Consistent(r) && c !in r.clients && c !in r.closed
    ensures var a := Admit(cfg, r, c, nameData, dead);
            && Consistent(a.room)
            && (a.outcome.Welcomed? || a.outcome.Broken? ==>
                  a.outcome.name == Strip(nameData) && c in a.room.clients && a.room.clients[c] == Strip(nameData))
            && (!a.outcome.Welcomed? && !a.outcome.Broken? ==> a.room.clients == r.clients)
  {
    var name := Strip(nameData);
    if nameData != "" && name !in r.clients.Values {
      var r1 := r.(clients := r.clients[c := name]);
      assert NamesUnique(r1.clients) by {
        forall a, b | a in r1.clients && b in r1.clients && a != b
          ensures r1.clients[a] != r1.clients[b]
        {
          if a == c { assert r.clients[b] in r.clients.Values; }
          else if b == c { assert r.clients[a] in r.clients.Values; }
        }
      }
      if c !in dead {
        var r2 := r1.(outbox := r1.outbox[c := Sent(r1, c) + [Welcome(name, Encryption.Info(cfg.crypto))]]);
        var t := Recipients(r2.clients, Some(c));
        EvictionKeepsConsistent(r2, t * dead);
      }
    }
  }

  /**
   * Delivery: every registered connection other than the excluded one whose
   * socket works gets exactly one more envelope; everybody else, the excluded
   * connection included, gets nothing.
   */
  lemma BroadcastDelivers(r: Room, message: string, msgType: string, sender: Option<string>,
                          exclude: Option<Conn>, dead: set<Conn>, d: Conn)
    ensures var after := Broadcast(r, message, msgType, sender, exclude, dead);
            Sent(after, d) == if d in r.clients && exclude != Some(d) && d !in dead
                              then Sent(r, d) + [BroadcastEnvelope(message, msgType, sender)]
                              else Sent(r, d)
  {
  }

  /**
   * Eviction: afterwards exactly the recipients whose send failed are gone
   * (and closed); every other entry is still there with its name. One failure
   * does not stop delivery to the others (see BroadcastDelivers).
   */
  lemma BroadcastEvicts(r: Room, message: string, msgType: string, sender: Option<string>,
                        exclude: Option<Conn>, dead: set<Conn>)
    requires Consistent(r)
    ensures var after := Broadcast(r, message, msgType, sender, exclude, dead);
            && Consistent(after)
            && (forall d :: d in after.clients <==> d in r.clients && (exclude == Some(d) || d !in dead))
            && (forall d :: d in after.clients ==> after.clients[d] == r.clients[d])
            && (forall d :: d in r.clients && exclude != Some(d) && d in dead ==> d in after.closed)
            && after.running == r.running && after.history == r.history
  {
    EvictionKeepsConsistent(r, Recipients(r.clients, exclude) * dead);
  }

  /** The `message` field: `[<sender>]: <text>` for chat, `[SYSTEM]: <text>` for every other type; the type and sender are passed through. */
  lemma BroadcastMessageField(message: string, msgType: string, sender: Option<string>)
    ensures var e := BroadcastEnvelope(message, msgType, sender);
            && e.kind == Some(msgType)
            && (msgType == ChatType ==> e.message == Some("[" + SenderText(sender) + "]: " + message))
            && (msgType != ChatType ==> e.message == Some("[SYSTEM]: " + message))
            && (sender.None? ==> e.sender == NullSender)
            && (sender.Some? ==> e.sender == Named(sender.value))
  {
  }

  /** A blank or whitespace-only line is not broadcast and changes nothing. */
  lemma BlankLineDropped(cfg: Config, r: Room, c: Conn, name: string, data: string, dead: set<Conn>)
    requires Blank(data)
    ensures Relay(cfg, r, c, name, data, dead) == r
  {
    StripCutsBorder(data);
  }

  /**
   * A line with a visible character is broadcast as chat from the registered
   * name, carrying the stripped text as received (not its decryption), to
   * everybody but the speaker.
   */
  lemma LineRelayed(cfg: Config, r: Room, c: Conn, name: string, data: string, dead: set<Conn>, d: Conn)
    requires !Blank(data)
    ensures var after := Relay(cfg, r, c, name, data, dead);
            && Strip(data) != ""
            && Sent(after, c) == Sent(r, c)
            && (d != c && d in r.clients && d !in dead ==>
                  Sent(after, d) == Sent(r, d) + [Chat(name, Strip(data))]
                  && Chat(name, Strip(data)).message == Some("[" + name + "]: " + Strip(data)))
  {
    StripCutsBorder(data);
  }

  /** Adding to the history happens only with `auto_clear_history`. */
  lemma HistoryOnlyWithAutoClear(cfg: Config, r: Room, sender: string, decrypted: string, encrypted: string)
    ensures var after := Recorded(cfg, r, sender, decrypted, encrypted);
            && after.clients == r.clients && after.outbox == r.outbox
            && (cfg.autoClear <==> after.history == r.history + [HistoryEntry(sender, decrypted, encrypted)])
            && (!cfg.autoClear ==> after == r)
  {
  }

  /** Teardown of a connection no longer registered (already evicted) does nothing: no removal, no notice. */
  lemma DepartAbsentIsNoop(cfg: Config, r: Room, c: Conn, dead: set<Conn>)
    requires c !in r.clients
    ensures Depart(cfg, r, c, dead) == r
  {
  }

  /** Teardown is idempotent. */
  lemma DepartIdempotent(cfg: Config, r: Room, c: Conn, dead: set<Conn>)
    ensures c !in Depart(cfg, r, c, dead).clients
    ensures Depart(cfg, Depart(cfg, r, c, dead), c, dead) == Depart(cfg, r, c, dead)
  {
  }

  /**
   * Teardown of a registered, named connection closes it and sends the
   * "left" notice to exactly the other registered clients whose sockets
   * work; the departing connection gets nothing.
   */
  lemma DepartNotifiesRemaining(cfg: Config, r: Room, c: Conn, dead: set<Conn>, d: Conn)
    requires c in r.clients && r.clients[c] != ""
    ensures var after := Depart(cfg, r, c, dead);
            && c !in after.clients && c in after.closed
            && Sent(after, c) == Sent(r, c)
            && Sent(after, d) == if d != c && d in r.clients && d !in dead
                                 then Sent(r, d) + [Left(r.clients[c])]
                                 else Sent(r, d)
  {
  }

  /** When a named client's departure leaves the room empty and auto-clear is on, the history is empty. */
  lemma EmptyRoomForgetsHistory(cfg: Config, r: Room, c: Conn, dead: set<Conn>)
    requires cfg.autoClear && c in r.clients && r.clients[c] != ""
    requires Depart(cfg, r, c, dead).clients == map[]
    ensures Depart(cfg, r, c, dead).history == []
  {
  }

  /** After `stop` the registry is empty, the server is not running, every client was closed and, with auto-clear, the history is gone. */
  lemma ShutdownEmpties(cfg: Config, r: Room)
    ensures var after := Shutdown(cfg, r);
            && after.clients == map[] && !after.running
            && r.clients.Keys <= after.closed
            && (cfg.autoClear ==> after.history == [])
            && Consistent(after)
  {
  }

  /** What one read contributes to the conversation: its stripped text, unless that is empty. */
  function Line(text: string): seq<string> {
    if Strip(text) == "" then [] else [Strip(text)]
  }

  /** The lines the relay loop broadcasts: stripped non-blank reads, up to the first empty read or error. */
  function Relayed(events: seq<Recv>): seq<string>
    decreases |events|
  {
    if events == [] || events[0].Failure? || events[0].text == "" then []
    else Line(events[0].text) + Relayed(events[1..])
  }

  function Chats(name: string, lines: seq<string>): seq<Envelope> {
    seq(|lines|, i requires 0 <= i < |lines| => Chat(name, lines[i]))
  }

  lemma ChatsAppend(name: string, a: seq<string>, b: seq<string>)
    ensures Chats(name, a + b) == Chats(name, a) + Chats(name, b)
  {
  }

  /**
   * From `r` to `after` the invariant holds, the server still runs, the
   * speaker `c` is still registered under its name and heard nothing, and
   * the bystander `d` is still registered and heard exactly `heard`.
   */
  ghost predicate Overheard(r: Room, after: Room, c: Conn, d: Conn, heard: seq<Envelope>) {
    && c in r.clients
    && Consistent(after) && after.running
    && c in after.clients && after.clients[c] == r.clients[c]
    && d in after.clients
    && Sent(after, c) == Sent(r, c)
    && Sent(after, d) == Sent(r, d) + heard
  }

  lemma OverheardChain(r: Room, r1: Room, r2: Room, c: Conn, d: Conn, a: seq<Envelope>, b: seq<Envelope>)
    requires Overheard(r, r1, c, d, a) && Overheard(r1, r2, c, d, b)
    ensures Overheard(r, r2, c, d, a + b)
  {
    assert Sent(r, d) + a + b == Sent(r, d) + (a + b);
  }

  /** One pass of the relay loop, as the speaker and one working bystander see it. */
  lemma RelayStep(cfg: Config, r: Room, c: Conn, name: string, text: string, dead: set<Conn>, d: Conn)
    requires Consistent(r) && r.running && c in r.clients
    requires d != c && d in r.clients && d !in dead
    ensures Overheard(r, Relay(cfg, r, c, name, text, dead), c, d, Chats(name, Line(text)))
  {
    if Strip(text) != "" {
      var r0 := Recorded(cfg, r, name, Encryption.Decrypt(cfg.crypto, Strip(text)), Strip(text));
      BroadcastEvicts(r0, Strip(text), ChatType, Some(name), Some(c), dead);
      BroadcastDelivers(r0, Strip(text), ChatType, Some(name), Some(c), dead, d);
      BroadcastDelivers(r0, Strip(text), ChatType, Some(name), Some(c), dead, c);
      assert Chats(name, Line(text)) == [Chat(name, Strip(text))];
    } else {
      assert Chats(name, Line(text)) == [];
    }
  }

  /** The relay loop, unfolded once for a read it relays. */
  lemma ConverseUnfold(cfg: Config, r: Room, c: Conn, name: string, events: seq<Recv>, dead: set<Conn>)
    requires r.running && events != [] && events[0].Data? && events[0].text != ""
    ensures Converse(cfg, r, c, name, events, dead)
            == Converse(cfg, Relay(cfg, r, c, name, events[0].text, dead), c, name, events[1..], dead)
    ensures Relayed(events) == Line(events[0].text) + Relayed(events[1..])
  {
  }

  /**
   * Over the relay loop, a registered client other than the speaker whose
   * socket works hears each relayed line once, in order; the speaker stays
   * registered, hears nothing, and the invariant holds throughout.
   */
  lemma {:induction false} ConverseTranscript(cfg: Config, r: Room, c: Conn, name: string,
                                              events: seq<Recv>, dead: set<Conn>, d: Conn)
    requires Consistent(r) && r.running && c in r.clients
    requires d != c && d in r.clients && d !in dead
    ensures Overheard(r, Converse(cfg, r, c, name, events, dead), c, d, Chats(name, Relayed(events)))
    decreases |events|
  {
    if !(events == [] || events[0].Failure? || events[0].text == "") {
      var text := events[0].text;
      var r1 := Relay(cfg, r, c, name, text, dead);
      ConverseUnfold(cfg, r, c, name, events, dead);
      RelayStep(cfg, r, c, name, text, dead, d);
      ConverseTranscript(cfg, r1, c, name, events[1..], dead, d);
      OverheardChain(r, r1, Converse(cfg, r1, c, name, events[1..], dead), c, d,
                     Chats(name, Line(text)), Chats(name, Relayed(events[1..])));
      ChatsAppend(name, Line(text), Relayed(events[1..]));
    } else {
      assert Relayed(events) == [];
      assert Chats(name, []) == [];
      assert Sent(r, d) + [] == Sent(r, d);
    }
  }

  /**
   * The whole life of a connection as one bystander sees it: a client that
   * registered before, whose socket works, receives the "joined" notice, every
   * relayed line as chat from the newcomer, and (for a non-empty name) the
   * "left" notice; the newcomer receives only its welcome.
   */
  lemma BystanderTranscript(cfg: Config, r: Room, c: Conn, nameData: string,
                            events: seq<Recv>, dead: set<Conn>, d: Conn)
    requires Consistent(r) && r.running && c !in r.clients && c !in r.closed && c !in dead
    requires d in r.clients && d !in dead
    requires nameData != "" && Strip(nameData) !in r.clients.Values
    ensures var name := Strip(nameData);
            var after := Serve(cfg, r, c, nameData, events, dead);
            && Sent(after, d) == Sent(r, d) + [Joined(name)] + Chats(name, Relayed(events))
                                 + (if name != "" then [Left(name)] else [])
            && Sent(after, c) == Sent(r, c) + [Welcome(name, Encryption.Info(cfg.crypto))]
            && c !in after.clients && c in after.closed
  {
    var name := Strip(nameData);
    var a := Admit(cfg, r, c, nameData, dead);
    AdmitKeepsConsistent(cfg, r, c, nameData, dead);
    assert d != c;
    var r1 := r.(clients := r.clients[c := name]);
    var r2 := r1.(outbox := r1.outbox[c := Sent(r1, c) + [Welcome(name, Encryption.Info(cfg.crypto))]]);
    BroadcastEvicts(r2, name + " joined the chat!", SystemType, None, Some(c), dead);
    assert a.room == Broadcast(r2, name + " joined the chat!", SystemType, None, Some(c), dead);
    assert Sent(a.room, d) == Sent(r, d) + [Joined(name)];
    ConverseTranscript(cfg, a.room, c, name, events, dead, d);
    var r3 := Converse(cfg, a.room, c, name, events, dead);
    if name != "" {
      DepartNotifiesRemaining(cfg, r3, c, dead, d);
    }
  }

  /** Every handled connection leaves the invariant intact and ends unregistered. */
  lemma ServeKeepsConsistent(cfg: Config, r: Room, c: Conn, nameData: string, events: seq<Recv>, dead: set<Conn>)
    requires Consistent(r) && c !in r.clients && c !in r.closed
    ensures Consistent(Serve(cfg, r, c, nameData, events, dead))
    ensures c !in Serve(cfg, r, c, nameData, events, dead).clients
  {
    var a := Admit(cfg, r, c, nameData, dead);
    AdmitKeepsConsistent(cfg, r, c, nameData, dead);
    var r1 := a.room;
    if a.outcome.Welcomed? {
      ConverseConsistent(cfg, r1, c, a.outcome.name, events, dead);
      r1 := Converse(cfg, a.room, c, a.outcome.name, events, dead);
    }
    if c in r1.clients {
      var name := r1.clients[c];
      var r2 := r1.(clients := r1.clients - {c}, closed := r1.closed + {c});
      EvictionKeepsConsistent(r1, {c});
      if name != "" {
        BroadcastEvicts(r2, name + " left the chat!", SystemType, None, None, dead);
      }
    }
  }

  lemma {:induction false} ConverseConsistent(cfg: Config, r: Room, c: Conn, name: string, events: seq<Recv>, dead: set<Conn>)
    requires Consistent(r)
    ensures Consistent(Converse(cfg, r, c, name, events, dead))
    decreases |events|
  {
    if !(!r.running || events == [] || events[0].Failure? || events[0].text == "") {
      var text := events[0].text;
      if Strip(text) != "" {
        var r0 := Recorded(cfg, r, name, Encryption.Decrypt(cfg.crypto, Strip(text)), Strip(text));
        BroadcastEvicts(r0, Strip(text), ChatType, Some(name), Some(c), dead);
      }
      ConverseConsistent(cfg, Relay(cfg, r, c, name, text, dead), c, name, events[1..], dead);
    }
  }

  /**
   * Two parties: with only `b` connected, `a` joins under a name `b` does not
   * hold and sends one line; `b` receives the join notice, that line as chat
   * from `a`'s name and the leave notice, while `a` receives only its welcome.
   */
  lemma TwoPartyChat(cfg: Config, r: Room, dead: set<Conn>, a: Conn, b: Conn, nameA: string, line: string)
    requires Consistent(r) && r.running && r.clients.Keys == {b} && a != b
    requires a !in r.closed && a !in dead && b !in dead
    requires nameA != "" && Strip(nameA) == nameA && nameA != r.clients[b]
    requires line != "" && Strip(line) == line
    ensures var after := Serve(cfg, r, a, nameA, [Data(line)], dead);
            && Sent(after, b) == Sent(r, b) + [Joined(nameA), Chat(nameA, line), Left(nameA)]
            && Sent(after, a) == Sent(r, a) + [Welcome(nameA, Encryption.Info(cfg.crypto))]
  {
    assert nameA !in r.clients.Values;
    assert Relayed([Data(line)]) == [line] by {
      assert Line(line) == [line];
      assert [Data(line)][1..] == [];
    }
    BystanderTranscript(cfg, r, a, nameA, [Data(line)], dead, b);
    assert Chats(nameA, [line]) == [Chat(nameA, line)];
    assert Sent(r, b) + [Joined(nameA)] + [Chat(nameA, line)] + [Left(nameA)]
        == Sent(r, b) + [Joined(nameA), Chat(nameA, line), Left(nameA)];
  }
}
