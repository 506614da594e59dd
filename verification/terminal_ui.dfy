/**
 * The terminal front ends of the chat client: the coloured `TerminalUI`, the
 * plain `SimpleTerminalUI`, the `ChatMessage` they display and `create_ui`.
 * Printing, colours, screen clearing and the display thread are not modelled;
 * what is kept is the state the front ends update: the bounded message
 * history, the display queue, the `running`/`connected` flags and the strings
 * handed to the input callback.
 */
module TerminalUi {
  import opened Text

  /** A message for display; `timestamp` is the `%H:%M:%S` text taken when it was made. */
  datatype ChatMessage = ChatMessage(sender: string, content: string, msgType: string, timestamp: string)

  const SystemKind := "system"
  const ErrorKind := "error"
  const ChatKind := "chat"

  /** The bracketed tag `__str__` puts before the content. */
  function Label(m: ChatMessage): string {
    if m.msgType == SystemKind then "[SYSTEM]"
    else if m.msgType == ErrorKind then "[ERROR]"
    else "[" + m.sender + "]"
  }

  /** `ChatMessage.__str__` with the colour codes left out. */
  function Render(m: ChatMessage): string {
    "[" + m.timestamp + "] " + Label(m) + " " + m.content
  }

  /**
   * System and error messages are tagged by their type alone; any other
   * type shows its sender between brackets, so two such messages with
   * different senders never share a tag.
   */
  lemma LabelByType(m: ChatMessage, other: string)
    ensures m.msgType == SystemKind || m.msgType == ErrorKind ==> Label(m.(sender := other)) == Label(m)
    ensures m.msgType != SystemKind && m.msgType != ErrorKind ==>
              |Label(m)| == |m.sender| + 2 && Label(m)[1..|Label(m)| - 1] == m.sender
    ensures m.msgType != SystemKind && m.msgType != ErrorKind && other != m.sender ==>
              Label(m.(sender := other)) != Label(m)
    ensures Render(m)[|Render(m)| - |m.content|..] == m.content
  {
    if m.msgType != SystemKind && m.msgType != ErrorKind && other != m.sender {
      var l := Label(m.(sender := other));
      assert l[1..|l| - 1] == other;
    }
  }

  // ------------------------------------------------------------ history cap

  const MaxMessages := 100

  /** `messages[-100:]` when there are more than 100. */
  function Recent(s: seq<ChatMessage>): seq<ChatMessage> {
    if |s| > MaxMessages then s[|s| - MaxMessages..] else s
  }

  /** The cap keeps at most 100 messages: the latest ones, in arrival order. */
  lemma RecentKeepsLatest(s: seq<ChatMessage>)
    ensures |Recent(s)| == if |s| < MaxMessages then |s| else MaxMessages
    ensures Recent(s) == s[|s| - |Recent(s)|..]
  {
  }

  /** Trimming before appending loses nothing that trimming afterwards would keep. */
  lemma RecentAbsorbs(a: seq<ChatMessage>, b: seq<ChatMessage>)
    ensures Recent(Recent(a) + b) == Recent(a + b)
  {
    if |a| > MaxMessages {
      var k := |a| - MaxMessages;
      assert a + b == a[..k] + (Recent(a) + b);
      if |Recent(a) + b| > MaxMessages {
        assert (a + b)[|a + b| - MaxMessages..] == (Recent(a) + b)[|Recent(a) + b| - MaxMessages..];
      }
    }
  }

  // ------------------------------------------------------------ the screen

  /**
   * What a `TerminalUI` holds: the displayed history, the display queue, its
   * two flags, whether an input callback is set, and every string handed to
   * that callback so far.
   */
  datatype Screen = Screen(
    messages: seq<ChatMessage>,
    queue: seq<ChatMessage>,
    running: bool,
    connected: bool,
    hasCallback: bool,
    forwarded: seq<string>)

  /** `_display_message`: append, then keep the latest 100. */
  function Displayed(s: Screen, m: ChatMessage): Screen {
    s.(messages := Recent(s.messages + [m]))
  }

  /** The display thread showing `ms` one after another. */
  function DisplayedAll(s: Screen, ms: seq<ChatMessage>): Screen
    decreases |ms|
  {
    if ms == [] then s else DisplayedAll(Displayed(s, ms[0]), ms[1..])
  }

  /** However many messages are displayed, the history is the latest 100 of all of them, in arrival order. */
  lemma {:induction false} HistoryIsLatestDisplayed(s: Screen, ms: seq<ChatMessage>)
    requires |s.messages| <= MaxMessages
    ensures DisplayedAll(s, ms).messages == Recent(s.messages + ms)
    ensures DisplayedAll(s, ms).(messages := s.messages) == s
    decreases |ms|
  {
    if ms == [] {
      assert s.messages + ms == s.messages;
    } else {
      var s1 := Displayed(s, ms[0]);
      HistoryIsLatestDisplayed(s1, ms[1..]);
      RecentAbsorbs(s.messages + [ms[0]], ms[1..]);
      assert s.messages + [ms[0]] + ms[1..] == s.messages + ms;
    }
  }

  /** `add_message`: queued only while the UI runs. */
  function Enqueued(s: Screen, m: ChatMessage): Screen {
    if s.running then s.(queue := s.queue + [m]) else s
  }

  function Stopped(s: Screen): Screen {
    s.(running := false, connected := false)
  }

  /** The history part of `_clear_chat` and `clear_all_traces`. */
  function Cleared(s: Screen): Screen {
    s.(messages := [])
  }

  /** Hand a string to the input callback, if one is set. */
  function Forward(s: Screen, text: string): Screen {
    if s.hasCallback then s.(forwarded := s.forwarded + [text]) else s
  }

  const LostConnection := "Lost connection to server"
  const UsersText := "User list feature coming soon!"
  const HelpText :=
    "Available commands:\n  /help      - Show this help\n  /clear     - Clear chat history\n" +
    "  /clear-all - Clear all traces completely\n  /users     - Show connected users\n" +
    "  /quit      - Disconnect and exit"

  function SystemMessage(content: string, now: string): ChatMessage {
    ChatMessage("SYSTEM", content, SystemKind, now)
  }

  function ErrorMessage(content: string, now: string): ChatMessage {
    ChatMessage("SYSTEM", content, ErrorKind, now)
  }

  /** `set_connection_status`. */
  function StatusSet(s: Screen, connected: bool, now: string): Screen {
    var s1 := s.(connected := connected);
    if connected then s1 else Enqueued(s1, ErrorMessage(LostConnection, now))
  }

  /** Only a running UI queues messages, one per call; once stopped, nothing more is queued. */
  lemma EnqueueOnlyWhileRunning(s: Screen, m: ChatMessage)
    ensures Enqueued(s, m).queue == if s.running then s.queue + [m] else s.queue
    ensures Enqueued(s, m).(queue := s.queue) == s
    ensures Enqueued(Stopped(s), m) == Stopped(s)
  {
  }

  /** Losing the connection clears `connected` and, on a running UI, queues one error message saying so. */
  lemma ConnectionStatus(s: Screen, now: string)
    ensures var after := StatusSet(s, false, now);
            && !after.connected && after.running == s.running
            && after.queue == s.queue + (if s.running then [ErrorMessage(LostConnection, now)] else [])
            && after.messages == s.messages && after.forwarded == s.forwarded
    ensures StatusSet(s, true, now) == s.(connected := true)
    ensures Label(ErrorMessage(LostConnection, now)) == "[ERROR]"
  {
  }

  // ------------------------------------------------------------ commands

  datatype Command = Help | ClearChat | ClearAll | Users | Quit | Other

  /**
   * The first whitespace-separated word, lower-cased, picks the command;
   * `/clear-all` is known to `TerminalUI` only (`withClearAll`).
   */
  function Classify(command: string, withClearAll: bool): Command {
    var cmd := Lower(FirstToken(command));
    if cmd == "/help" then Help
    else if cmd == "/clear" then ClearChat
    else if withClearAll && cmd == "/clear-all" then ClearAll
    else if cmd == "/users" then Users
    else if cmd == "/quit" || cmd == "/exit" || cmd == "/q" then Quit
    else Other
  }

  /** `TerminalUI._handle_command`. */
  function Commanded(s: Screen, command: string, now: string): Screen {
    match Classify(command, true)
    case Help => Enqueued(s, SystemMessage(HelpText, now))
    case ClearChat => Cleared(s)
    case ClearAll => Cleared(s)
    case Users => Enqueued(s, SystemMessage(UsersText, now))
    case Quit => Stopped(s)
    case Other => Forward(s, command)
  }

  /** Arguments after the command word do not change the command. */
  lemma CommandIgnoresArguments(word: string, rest: string, withClearAll: bool)
    requires word != [] && forall i :: 0 <= i < |word| ==> !IsSpace(word[i])
    requires rest == [] || IsSpace(rest[0])
    ensures Classify(word + rest, withClearAll) == Classify(word, withClearAll)
  {
    FirstTokenOfJoin(word, rest);
    FirstTokenOfJoin(word, []);
    assert word + [] == word;
  }

  /** Commands are recognised whatever the case of their letters. */
  lemma CommandIgnoresCase(command: string, withClearAll: bool)
    ensures Classify(Lower(command), withClearAll) == Classify(command, withClearAll)
  {
    LowerFirstToken(command);
    LowerIdempotent(FirstToken(command));
  }

  /** `/quit`, `/exit` and `/q` stop the UI: both flags end false and nothing is forwarded. */
  lemma QuitStops(s: Screen, command: string, now: string)
    requires Classify(command, true) == Quit
    ensures var after := Commanded(s, command, now);
            !after.running && !after.connected && after.forwarded == s.forwarded && after.messages == s.messages
  {
  }

  /** An unknown command goes to the callback exactly as typed, when a callback is set, and changes nothing else. */
  lemma UnknownForwarded(s: Screen, command: string, now: string)
    requires Classify(command, true) == Other
    ensures var after := Commanded(s, command, now);
            && after.forwarded == (if s.hasCallback then s.forwarded + [command] else s.forwarded)
            && after.(forwarded := s.forwarded) == s
  {
  }

  /** `/clear` and `/clear-all` empty the history and nothing else. */
  lemma ClearEmptiesHistory(s: Screen, command: string, now: string)
    requires Classify(command, true) in {ClearChat, ClearAll}
    ensures Commanded(s, command, now).messages == []
    ensures Commanded(s, command, now).(messages := s.messages) == s
  {
  }

  /** No command reaches the callback except an unknown one. */
  lemma OnlyUnknownForwarded(s: Screen, command: string, now: string)
    ensures Commanded(s, command, now).forwarded != s.forwarded ==>
              Classify(command, true) == Other && Commanded(s, command, now).forwarded == s.forwarded + [command]
  {
  }

  // ------------------------------------------------------------ routing

  /** One line of `_input_loop`: strip it; ignore it when blank; a leading `/` makes it a command; otherwise it goes to the callback. */
  function Routed(s: Screen, line: string, now: string): Screen {
    var input := Strip(line);
    if input == [] then s
    else if input[0] == '/' then Commanded(s, input, now)
    else Forward(s, input)
  }

  lemma RoutedCases(s: Screen, line: string, now: string)
    ensures Blank(line) ==> Routed(s, line, now) == s
    ensures !Blank(line) && IsSlashed(Strip(line)) ==> Routed(s, line, now) == Commanded(s, Strip(line), now)
    ensures !Blank(line) && !IsSlashed(Strip(line)) ==>
              Routed(s, line, now) == (if s.hasCallback then s.(forwarded := s.forwarded + [Strip(line)]) else s)
  {
    StripCutsBorder(line);
  }

  /** What the user does while `_input_loop` waits in `input()`; a status change is another thread's `set_connection_status`. */
  datatype Input = Typed(line: string, now: string) | EndOfInput | Interrupted | StatusChanged(connected: bool, now: string)

  /**
   * `_input_loop` over a finite run of inputs: it runs while the UI is running
   * and connected, stops on end of input or Ctrl+C, and calls `stop` on the way
   * out. When the inputs run out first, the loop is still waiting.
   */
  function Session(s: Screen, events: seq<Input>): Screen
    decreases |events|
  {
    if !(s.running && s.connected) then Stopped(s)
    else if events == [] then s
    else match events[0]
      case Typed(line, now) => Session(Routed(s, line, now), events[1..])
      case StatusChanged(connected, now) => Session(StatusSet(s, connected, now), events[1..])
      case EndOfInput => Stopped(s)
      case Interrupted => Stopped(s)
  }

  /** Every string the session hands to the callback is non-empty and carries no surrounding whitespace. */
  predicate AllTrimmed(texts: seq<string>) {
    forall i :: 0 <= i < |texts| ==> texts[i] != [] && Unpadded(texts[i])
  }

  lemma RoutedForwardsTrimmed(s: Screen, line: string, now: string)
    ensures var after := Routed(s, line, now);
            && |s.forwarded| <= |after.forwarded|
            && after.forwarded[..|s.forwarded|] == s.forwarded
            && AllTrimmed(after.forwarded[|s.forwarded|..])
  {
    StripCutsBorder(line);
    var after := Routed(s, line, now);
    if after.forwarded != s.forwarded {
      assert after.forwarded == s.forwarded + [Strip(line)];
      assert after.forwarded[|s.forwarded|..] == [Strip(line)];
    }
  }

  lemma {:induction false} SessionForwardsTrimmed(s: Screen, events: seq<Input>)
    ensures var after := Session(s, events);
            && |s.forwarded| <= |after.forwarded|
            && after.forwarded[..|s.forwarded|] == s.forwarded
            && AllTrimmed(after.forwarded[|s.forwarded|..])
    decreases |events|
  {
    if s.running && s.connected && events != [] {
      var s1 := match events[0]
        case Typed(line, now) => Routed(s, line, now)
        case StatusChanged(connected, now) => StatusSet(s, connected, now)
        case _ => s;
      if events[0].Typed? {
        RoutedForwardsTrimmed(s, events[0].line, events[0].now);
      }
      if events[0].Typed? || events[0].StatusChanged? {
        SessionForwardsTrimmed(s1, events[1..]);
        var after := Session(s1, events[1..]);
        assert after.forwarded[|s.forwarded|..] == s1.forwarded[|s.forwarded|..] + after.forwarded[|s1.forwarded|..];
      }
    }
  }

  /** A session either still waits for input with the UI up, or has ended with both flags false. */
  lemma {:induction false} SessionEnds(s: Screen, events: seq<Input>)
    ensures var after := Session(s, events);
            (after.running && after.connected) || (!after.running && !after.connected)
    ensures var after := Session(s, events);
            after.running ==> events == [] || events[|events| - 1].Typed? || events[|events| - 1].StatusChanged?
    decreases |events|
  {
    if s.running && s.connected && events != [] {
      match events[0]
      case Typed(line, now) => SessionEnds(Routed(s, line, now), events[1..]);
      case StatusChanged(connected, now) => SessionEnds(StatusSet(s, connected, now), events[1..]);
      case EndOfInput =>
      case Interrupted =>
    }
  }

  /** A quit command typed while the UI is up ends the session; nothing typed afterwards is forwarded. */
  lemma QuitEndsSession(s: Screen, line: string, now: string, rest: seq<Input>)
    requires s.running && s.connected
    requires !Blank(line) && IsSlashed(Strip(line)) && Classify(Strip(line), true) == Quit
    ensures Session(s, [Typed(line, now)] + rest) == Stopped(s)
  {
    RoutedCases(s, line, now);
    assert ([Typed(line, now)] + rest)[1..] == rest;
  }

  // ------------------------------------------------------------ TerminalUI

  class TerminalUI {
    const username: string
    var messages: seq<ChatMessage>
    var queue: seq<ChatMessage>
    var running: bool
    var connected: bool
    var hasCallback: bool
    var forwarded: seq<string>

    function Model(): Screen
      reads this
    {
      Screen(messages, queue, running, connected, hasCallback, forwarded)
    }

    constructor (username: string)
      ensures this.username == username
      ensures Model() == Screen([], [], false, false, false, [])
    {
      this.username := username;
      messages := [];
      queue := [];
      running := false;
      connected := false;
      hasCallback := false;
      forwarded := [];
    }

    /** The flag part of `start` (screen output, the display thread and the input loop are separate). */
    method Open()
      modifies this
      ensures Model() == old(Model()).(running := true, connected := true)
    {
      running := true;
      connected := true;
    }

    method SetInputCallback()
      modifies this
      ensures Model() == old(Model()).(hasCallback := true)
    {
      hasCallback := true;
    }

    method DisplayMessage(m: ChatMessage)
      modifies this
      ensures Model() == Displayed(old(Model()), m)
      ensures |messages| <= MaxMessages
    {
      messages := messages + [m];
      if |messages| > MaxMessages {
        messages := messages[|messages| - MaxMessages..];
      }
    }

    method AddMessage(m: ChatMessage)
      modifies this
      ensures Model() == Enqueued(old(Model()), m)
    {
      if running {
        queue := queue + [m];
      }
    }

    method AddSystemMessage(content: string, now: string)
      modifies this
      ensures Model() == Enqueued(old(Model()), SystemMessage(content, now))
    {
      AddMessage(SystemMessage(content, now));
    }

    method AddErrorMessage(content: string, now: string)
      modifies this
      ensures Model() == Enqueued(old(Model()), ErrorMessage(content, now))
    {
      AddMessage(ErrorMessage(content, now));
    }

    method AddChatMessage(sender: string, content: string, now: string)
      modifies this
      ensures Model() == Enqueued(old(Model()), ChatMessage(sender, content, ChatKind, now))
    {
      AddMessage(ChatMessage(sender, content, ChatKind, now));
    }

    method SetConnectionStatus(status: bool, now: string)
      modifies this
      ensures Model() == StatusSet(old(Model()), status, now)
    {
      connected := status;
      if !status {
        AddErrorMessage(LostConnection, now);
      }
    }

    method Stop()
      modifies this
      ensures Model() == Stopped(old(Model()))
    {
      running := false;
      connected := false;
    }

    method ClearChat()
      modifies this
      ensures Model() == Cleared(old(Model()))
    {
      messages := [];
    }

    method ClearAllTraces()
      modifies this
      ensures Model() == Cleared(old(Model()))
    {
      messages := [];
    }

    /** The caller passes a command with a visible character, so it has a first word. */
    method HandleCommand(command: string, now: string)
      requires !Blank(command)
      modifies this
      ensures Model() == Commanded(old(Model()), command, now)
    {
      var cmd := Lower(FirstToken(command));
      if cmd == "/help" {
        AddMessage(SystemMessage(HelpText, now));
      } else if cmd == "/clear" {
        ClearChat();
      } else if cmd == "/clear-all" {
        ClearAllTraces();
      } else if cmd == "/users" {
        AddMessage(SystemMessage(UsersText, now));
      } else if cmd == "/quit" || cmd == "/exit" || cmd == "/q" {
        Stop();
      } else if hasCallback {
        forwarded := forwarded + [command];
      }
    }

    method Route(line: string, now: string)
      modifies this
      ensures Model() == Routed(old(Model()), line, now)
    {
      var input := Strip(line);
      if input != [] {
        if input[0] == '/' {
          StripCutsBorder(line);
          HandleCommand(input, now);
        } else if hasCallback {
          forwarded := forwarded + [input];
        }
      }
    }

    /**
     * `_input_loop`; `ended` tells whether the loop finished (and called
     * `stop`) rather than still waiting for input when `events` ran out.
     */
    method InputLoop(events: seq<Input>) returns (ended: bool)
      modifies this
      ensures Model() == Session(old(Model()), events)
      ensures ended <==> !running
    {
      var i := 0;
      var broke := false;
      while i < |events| && running && connected && !broke
        invariant 0 <= i <= |events|
        invariant Session(old(Model()), events) == Session(Model(), events[i..])
        invariant broke ==> running && connected && i < |events| && (events[i].EndOfInput? || events[i].Interrupted?)
        decreases |events| - i, if broke then 0 else 1
      {
        match events[i]
        case Typed(line, now) =>
          Route(line, now);
          i := i + 1;
        case StatusChanged(status, now) =>
          SetConnectionStatus(status, now);
          i := i + 1;
        case EndOfInput =>
          broke := true;
        case Interrupted =>
          broke := true;
      }
      ended := broke || !running || !connected;
      if ended {
        Stop();
      }
    }
  }

  // ------------------------------------------------------------ SimpleTerminalUI

  /** What a `SimpleTerminalUI` holds once printing is left out. */
  datatype Plain = Plain(running: bool, connected: bool, hasCallback: bool, forwarded: seq<string>)

  /** `SimpleTerminalUI._handle_command`: help, clear and users only print; there is no `/clear-all`. */
  function PlainCommanded(p: Plain, command: string): Plain {
    match Classify(command, false)
    case Quit => p.(running := false, connected := false)
    case Other => if p.hasCallback then p.(forwarded := p.forwarded + [command]) else p
    case _ => p
  }

  /** In the plain UI, `/clear-all` is an unknown command and is handed to the callback, which sends it as chat. */
  lemma PlainForwardsClearAll(p: Plain, rest: string)
    requires p.hasCallback
    requires rest == [] || IsSpace(rest[0])
    ensures PlainCommanded(p, "/clear-all" + rest).forwarded == p.forwarded + ["/clear-all" + rest]
    ensures PlainCommanded(p, "/clear-all" + rest).running == p.running
  {
    CommandIgnoresArguments("/clear-all", rest, false);
    assert Lower(FirstToken("/clear-all")) == "/clear-all" by {
      FirstTokenOfJoin("/clear-all", []);
      assert "/clear-all" + [] == "/clear-all";
    }
  }

  /** Both front ends agree on every command except `/clear-all`: they stop on the same words and forward the same unknown commands. */
  lemma FrontEndsAgree(s: Screen, command: string, now: string)
    requires Classify(command, true) != ClearAll
    ensures var p := PlainCommanded(Plain(s.running, s.connected, s.hasCallback, s.forwarded), command);
            var t := Commanded(s, command, now);
            p.running == t.running && p.connected == t.connected && p.forwarded == t.forwarded
  {
  }

  class SimpleTerminalUI {
    const username: string
    var running: bool
    var connected: bool
    var hasCallback: bool
    var forwarded: seq<string>

    function Model(): Plain
      reads this
    {
      Plain(running, connected, hasCallback, forwarded)
    }

    constructor (username: string)
      ensures this.username == username
      ensures Model() == Plain(false, false, false, [])
    {
      this.username := username;
      running := false;
      connected := false;
      hasCallback := false;
      forwarded := [];
    }

    method Open()
      modifies this
      ensures Model() == old(Model()).(running := true, connected := true)
    {
      running := true;
      connected := true;
    }

    method SetInputCallback()
      modifies this
      ensures Model() == old(Model()).(hasCallback := true)
    {
      hasCallback := true;
    }

    method HandleCommand(command: string)
      requires !Blank(command)
      modifies this
      ensures Model() == PlainCommanded(old(Model()), command)
    {
      var cmd := Lower(FirstToken(command));
      if cmd == "/help" || cmd == "/clear" || cmd == "/users" {
      } else if cmd == "/quit" || cmd == "/exit" || cmd == "/q" {
        Stop();
      } else if hasCallback {
        forwarded := forwarded + [command];
      }
    }

    method Stop()
      modifies this
      ensures Model() == old(Model()).(running := false, connected := false)
    {
      running := false;
      connected := false;
    }
  }

  // ------------------------------------------------------------ create_ui

  /** The front end a client holds. */
  datatype Display = Rich(rich: TerminalUI) | Simple(simple: SimpleTerminalUI)

  /** `create_ui`: the coloured UI only when colours are wanted and available. */
  method CreateUi(username: string, useColors: bool, coloursAvailable: bool) returns (d: Display)
    ensures d.Rich? <==> useColors && coloursAvailable
    ensures d.Rich? ==> fresh(d.rich) && d.rich.username == username && d.rich.Model() == Screen([], [], false, false, false, [])
    ensures d.Simple? ==> fresh(d.simple) && d.simple.username == username && d.simple.Model() == Plain(false, false, false, [])
  {
    if useColors && coloursAvailable {
      var ui := new TerminalUI(username);
      d := Rich(ui);
    } else {
      var ui := new SimpleTerminalUI(username);
      d := Simple(ui);
    }
  }
}
