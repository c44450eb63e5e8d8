/**
 * The chat widget's controller: the conversation, the busy flag, the input
 * box, the one-shot send of a seeded message, and the appearance settings
 * with their draft copy. Each handler is one atomic step on the state; the
 * awaited request is split into `Submit` (before the request) and
 * `Complete` (when it settles).
 */
module Widget {
  import opened Wrappers
  import opened Text
  import Session

  datatype Role = User | Assistant

  /** One entry of the conversation. */
  datatype Turn = Turn(role: Role, content: string)

  const GreetingText := "Hello! I'm the PWC Davao AI Assistant. How can I help you today?"
  const Greeting := Turn(Assistant, GreetingText)
  const NoReplyText := "Sorry, I could not process that."
  const TransportFailureText := "Sorry, something went wrong. Please try again."

  /** How the awaited `fetch('/api/chat', ...)` and `response.json()` settle. */
  datatype Delivery =
    | Reply(reply: Option<string>) // a JSON body arrived, whatever its status; `None` if it has no string `reply`
    | TransportFailure             // the request could not complete, or the body was not JSON

  /** The content of the assistant turn added for a delivery (`data.reply || fallback`, or the catch branch). */
  function AssistantContent(d: Delivery): (c: string)
    ensures c != ""
    ensures d.Reply? && d.reply.Some? && d.reply.value != "" ==> c == d.reply.value
    ensures d.Reply? && (d.reply.None? || d.reply.value == "") ==> c == NoReplyText
    ensures d.TransportFailure? ==> c == TransportFailureText
  {
    match d
    case Reply(Some(text)) => if text != "" then text else NoReplyText
    case Reply(None) => NoReplyText
    case TransportFailure => TransportFailureText
  }

  /** The contents of the user turns, in order. */
  function UserContents(ms: seq<Turn>): (contents: seq<string>) {
    if ms == [] then []
    else UserContents(ms[..|ms| - 1]) + (if ms[|ms| - 1].role == User then [ms[|ms| - 1].content] else [])
  }

  /** Neighbouring turns belong to different roles. */
  predicate Alternates(ms: seq<Turn>) {
    forall i :: 0 < i < |ms| ==> ms[i].role != ms[i - 1].role
  }

  /**
   * The shape every conversation keeps: the greeting first, then user and
   * assistant turns alternating; a request is outstanding exactly when the
   * last turn is a user turn; the requests sent are the contents of the user
   * turns, in order, none with whitespace at either end; no turn is empty.
   */
  predicate WellFormed(ms: seq<Turn>, sent: seq<string>, loading: bool) {
    |ms| >= 1 && ms[0] == Greeting && Alternates(ms)
    && (forall i :: 0 <= i < |ms| ==> ms[i].content != "")
    && (loading <==> ms[|ms| - 1].role == User)
    && sent == UserContents(ms)
    && (forall k :: 0 <= k < |sent| ==> IsTrimmed(sent[k]))
  }

  /** Accepting a trimmed, non-empty message while idle keeps the shape and makes it pending. */
  lemma SubmitKeepsWellFormed(ms: seq<Turn>, sent: seq<string>, text: string)
    requires WellFormed(ms, sent, false)
    requires text != "" && IsTrimmed(text)
    ensures WellFormed(ms + [Turn(User, text)], sent + [text], true)
  {
  }

  /** Adding a non-empty assistant turn while a request is pending keeps the shape and makes it idle. */
  lemma CompleteKeepsWellFormed(ms: seq<Turn>, sent: seq<string>, content: string)
    requires WellFormed(ms, sent, true)
    requires content != ""
    ensures WellFormed(ms + [Turn(Assistant, content)], sent, false)
  {
  }

  /** The number of turns of one role. */
  function CountRole(ms: seq<Turn>, role: Role): (n: nat) {
    if ms == [] then 0 else CountRole(ms[..|ms| - 1], role) + (if ms[|ms| - 1].role == role then 1 else 0)
  }

  /** In an alternating conversation opened by the assistant, assistant turns lead user turns by one until a user turn ends it. */
  lemma {:induction false} AlternatingCounts(ms: seq<Turn>)
    requires |ms| >= 1 && ms[0].role == Assistant && Alternates(ms)
    ensures CountRole(ms, User) == |UserContents(ms)|
    ensures CountRole(ms, Assistant) == CountRole(ms, User) + (if ms[|ms| - 1].role == Assistant then 1 else 0)
  {
    var p := ms[..|ms| - 1];
    if |ms| == 1 {
      assert p == [];
    } else {
      assert p[0] == ms[0];
      assert Alternates(p) by {
        forall i | 0 < i < |p| ensures p[i].role != p[i - 1].role {
          assert p[i] == ms[i] && p[i - 1] == ms[i - 1];
        }
      }
      AlternatingCounts(p);
      assert ms[|ms| - 1].role != ms[|ms| - 2].role;
    }
  }

  /**
   * One request per user turn, one assistant turn per settled request:
   * there are as many user turns as requests sent, and as many assistant
   * turns besides the greeting as requests that have settled.
   */
  lemma TurnCounts(ms: seq<Turn>, sent: seq<string>, loading: bool)
    requires WellFormed(ms, sent, loading)
    ensures CountRole(ms, User) == |sent|
    ensures CountRole(ms, Assistant) == 1 + |sent| - (if loading then 1 else 0)
  {
    AlternatingCounts(ms);
  }

  /** While a request is outstanding, the last turn is the user turn carrying the last request sent. */
  lemma PendingRequestIsLastTurn(ms: seq<Turn>, sent: seq<string>)
    requires WellFormed(ms, sent, true)
    ensures |sent| >= 1 && ms[|ms| - 1] == Turn(User, sent[|sent| - 1])
  {
  }

  /** The five display values of the two roles. */
  datatype Appearance = Appearance(botName: string, botSubtitle: string, userName: string, botIcon: string, userIcon: string)

  const DefaultAppearance := Appearance("YXA", "Always here to help", "You", "\U{1F916}", "\U{1F464}")

  /** The inputs of the settings form, one per display value. */
  datatype SettingField = BotName | BotSubtitle | UserName | BotIcon | UserIcon

  /** The value shown for one field. */
  function Get(a: Appearance, field: SettingField): (value: string) {
    match field
    case BotName => a.botName
    case BotSubtitle => a.botSubtitle
    case UserName => a.userName
    case BotIcon => a.botIcon
    case UserIcon => a.userIcon
  }

  /** `a` with the value of one field replaced and the other four kept. */
  function WithField(a: Appearance, field: SettingField, value: string): (b: Appearance)
    ensures Get(b, field) == value
    ensures forall other :: other != field ==> Get(b, other) == Get(a, other)
  {
    match field
    case BotName => a.(botName := value)
    case BotSubtitle => a.(botSubtitle := value)
    case UserName => a.(userName := value)
    case BotIcon => a.(botIcon := value)
    case UserIcon => a.(userIcon := value)
  }

  /** The state of one mounted `ChatComponent`. */
  class ChatWidget {
    var messages: seq<Turn>
    var input: string
    var isLoading: bool
    var showSettings: bool

    // live display values
    var botName: string
    var botSubtitle: string
    var userName: string
    var botIcon: string
    var userIcon: string

    // draft copies edited in the settings form
    var tempBotName: string
    var tempBotSubtitle: string
    var tempUserName: string
    var tempBotIcon: string
    var tempUserIcon: string

    /** Whether the seeded message has been taken (never reset while mounted). */
    var hasProcessedInitialMessage: bool

    /** The `message` of every POST request sent so far, in order. */
    ghost var sent: seq<string>

    ghost predicate Valid()
      reads this
    {
      WellFormed(messages, sent, isLoading)
    }

    function Live(): Appearance
      reads this
    {
      Appearance(botName, botSubtitle, userName, botIcon, userIcon)
    }

    function Draft(): Appearance
      reads this
    {
      Appearance(tempBotName, tempBotSubtitle, tempUserName, tempBotIcon, tempUserIcon)
    }

    /** A fresh widget: only the greeting, idle, empty input, settings closed and at their defaults. */
    constructor ()
      ensures Valid()
      ensures messages == [Greeting] && !isLoading && input == "" && !showSettings
      ensures Live() == DefaultAppearance && Draft() == DefaultAppearance
      ensures !hasProcessedInitialMessage && sent == []
    {
      messages := [Greeting];
      input := "";
      isLoading := false;
      showSettings := false;
      botName, botSubtitle, userName, botIcon, userIcon := "YXA", "Always here to help", "You", "\U{1F916}", "\U{1F464}";
      tempBotName, tempBotSubtitle, tempUserName, tempBotIcon, tempUserIcon := botName, botSubtitle, userName, botIcon, userIcon;
      hasProcessedInitialMessage := false;
      sent := [];
    }

    /** Typing in the input box. */
    method TypeInput(value: string)
      modifies this`input
      ensures input == value
    {
      input := value;
    }

    /**
     * The first half of `handleSendMessage`: blank text, or any text while a
     * request is outstanding, changes nothing; otherwise the trimmed text is
     * appended as a user turn, the widget turns busy and the trimmed text is
     * sent as the request's `message`.
     */
    method Submit(text: string) returns (request: Option<string>)
      requires Valid()
      modifies this`messages, this`isLoading, this`sent
      ensures Valid()
      ensures request.Some? <==> !IsBlank(text) && !old(isLoading)
      ensures request.Some? ==> request.value == Trim(text) && isLoading
                                && messages == old(messages) + [Turn(User, Trim(text))]
                                && sent == old(sent) + [Trim(text)]
      ensures request.None? ==> messages == old(messages) && isLoading == old(isLoading) && sent == old(sent)
    {
      var userMessage := Trim(text);
      if userMessage == [] || isLoading {
        return None;
      }
      SubmitKeepsWellFormed(messages, sent, userMessage);
      messages := messages + [Turn(User, userMessage)];
      isLoading := true;
      sent := sent + [userMessage];
      request := Some(userMessage);
    }

    /**
     * The second half of `handleSendMessage`: the outstanding request has
     * settled; exactly one assistant turn is appended and the widget is idle.
     */
    method Complete(delivery: Delivery)
      requires Valid() && isLoading
      modifies this`messages, this`isLoading
      ensures Valid()
      ensures messages == old(messages) + [Turn(Assistant, AssistantContent(delivery))]
      ensures !isLoading
    {
      CompleteKeepsWellFormed(messages, sent, AssistantContent(delivery));
      messages := messages + [Turn(Assistant, AssistantContent(delivery))];
      isLoading := false;
    }

    /** `handleSend`: a non-blank input is submitted and the box cleared; a blank one is left as it is. */
    method Send() returns (request: Option<string>)
      requires Valid()
      modifies this`messages, this`isLoading, this`sent, this`input
      ensures Valid()
      ensures input == if IsBlank(old(input)) then old(input) else ""
      ensures request.Some? <==> !IsBlank(old(input)) && !old(isLoading)
      ensures request.Some? ==> request.value == Trim(old(input)) && isLoading
                                && messages == old(messages) + [Turn(User, Trim(old(input)))]
      ensures request.None? ==> messages == old(messages) && isLoading == old(isLoading) && sent == old(sent)
    {
      if Trim(input) != [] {
        request := Submit(input);
        input := "";
      } else {
        request := None;
      }
    }

    /** `handleKeyPress`: Enter without Shift sends; any other key changes nothing. */
    method KeyPress(key: string, shift: bool) returns (request: Option<string>)
      requires Valid()
      modifies this`messages, this`isLoading, this`sent, this`input
      ensures Valid()
      ensures !(key == "Enter" && !shift) ==>
                request.None? && messages == old(messages) && input == old(input)
                && isLoading == old(isLoading) && sent == old(sent)
      ensures key == "Enter" && !shift ==> input == if IsBlank(old(input)) then old(input) else ""
      ensures request.Some? <==> key == "Enter" && !shift && !IsBlank(old(input)) && !old(isLoading)
      ensures request.Some? ==> request.value == Trim(old(input)) && isLoading
                                && messages == old(messages) + [Turn(User, Trim(old(input)))]
      ensures request.None? ==> messages == old(messages) && isLoading == old(isLoading) && sent == old(sent)
    {
      if key == "Enter" && !shift {
        request := Send();
      } else {
        request := None;
      }
    }

    /**
     * The effect on the `initialMessage` prop: a non-empty seeded message is
     * taken at most once per mount. Taking it sets the one-shot flag, passes
     * the message to `handleSendMessage` and clears the session's seeded
     * message; afterwards (or for an empty message) nothing changes.
     */
    method InitialMessageEffect(initialMessage: string, session: Session.ChatSession) returns (request: Option<string>)
      requires Valid()
      modifies this`messages, this`isLoading, this`sent, this`hasProcessedInitialMessage, session`initialMessage
      ensures Valid()
      ensures old(hasProcessedInitialMessage) ==> hasProcessedInitialMessage
      ensures request.Some? ==> !old(hasProcessedInitialMessage)
      ensures initialMessage != "" && !old(hasProcessedInitialMessage) ==>
                hasProcessedInitialMessage && session.initialMessage == ""
                && (request.Some? <==> !IsBlank(initialMessage) && !old(isLoading))
                && (request.Some? ==> request.value == Trim(initialMessage)
                                      && messages == old(messages) + [Turn(User, Trim(initialMessage))])
                && (request.None? ==> messages == old(messages) && isLoading == old(isLoading))
      ensures !(initialMessage != "" && !old(hasProcessedInitialMessage)) ==>
                request.None? && messages == old(messages) && isLoading == old(isLoading) && sent == old(sent)
                && hasProcessedInitialMessage == old(hasProcessedInitialMessage)
                && session.initialMessage == old(session.initialMessage)
    {
      if initialMessage != "" && !hasProcessedInitialMessage {
        hasProcessedInitialMessage := true;
        request := Submit(initialMessage);
        session.SetInitialMessage("");
      } else {
        request := None;
      }
    }

    /** The settings button: opens the form. */
    method OpenSettings()
      modifies this`showSettings
      ensures showSettings
    {
      showSettings := true;
    }

    /** Editing one input of the settings form changes that draft value only. */
    method EditDraft(field: SettingField, value: string)
      modifies this`tempBotName, this`tempBotSubtitle, this`tempUserName, this`tempBotIcon, this`tempUserIcon
      ensures Draft() == WithField(old(Draft()), field, value)
    {
      match field
      case BotName => tempBotName := value;
      case BotSubtitle => tempBotSubtitle := value;
      case UserName => tempUserName := value;
      case BotIcon => tempBotIcon := value;
      case UserIcon => tempUserIcon := value;
    }

    /** `handleSaveSettings`: all five live values take their drafts together; the form closes. */
    method SaveSettings()
      modifies this`botName, this`botSubtitle, this`userName, this`botIcon, this`userIcon, this`showSettings
      ensures Live() == old(Draft()) && Draft() == old(Draft())
      ensures !showSettings
    {
      botName := tempBotName;
      botSubtitle := tempBotSubtitle;
      userName := tempUserName;
      botIcon := tempBotIcon;
      userIcon := tempUserIcon;
      showSettings := false;
    }

    /** `handleCancelSettings`: the drafts are reset to the live values, which stay as they were; the form closes. */
    method CancelSettings()
      modifies this`tempBotName, this`tempBotSubtitle, this`tempUserName, this`tempBotIcon, this`tempUserIcon, this`showSettings
      ensures Draft() == old(Live()) && Live() == old(Live())
      ensures !showSettings
    {
      tempBotName := botName;
      tempBotSubtitle := botSubtitle;
      tempUserName := userName;
      tempBotIcon := botIcon;
      tempUserIcon := userIcon;
      showSettings := false;
    }
  }
}
