/** The watch side of the relay (ios/app/watchos/extension/InCallController.swift): the
    commands it sends, the room label it shows, and the controller's UI state. */
module WatchExtension {
  import opened Wire

  /** The context the phone publishes, as the watch extension reads it. Its Swift definition
      is not part of this model; the fields are the ones the controller uses. */
  datatype JitsiMeetContext = JitsiMeetContext(
    conferenceURL: string,
    joinConferenceURL: Option<string>,
    conferenceTimestamp: Option<int>,
    micMuted: Option<bool>,
    sessionID: Option<int>)

  /** The message `sendMessage` hands to the session: every key of `message`, with
      `sessionID` set to the context's identifier. */
  function WithSession(message: Message, sessionID: int): (data: Message)
    ensures data.Keys == message.Keys + {"sessionID"}
    ensures data["sessionID"] == JNum(sessionID)
    ensures forall k :: k in message && k != "sessionID" ==> k in data && data[k] == message[k]
  {
    message["sessionID" := JNum(sessionID)]
  }

  /** The `forEach` of `sendMessage` that copies the message into `data`, then the stamp.
      The dictionary's iteration order is unspecified, so the next key is chosen freely. */
  method CopyWithSession(message: Message, sessionID: int) returns (data: Message)
    ensures data == WithSession(message, sessionID)
  {
    data := map[];
    var pending := message.Keys;
    while pending != {}
      invariant pending <= message.Keys
      invariant data == map k | k in message.Keys - pending :: message[k]
      decreases pending
    {
      var k :| k in pending;
      data := data[k := message[k]];
      pending := pending - {k};
    }
    assert data == message;
    data := data["sessionID" := JNum(sessionID)];
  }

  /** The commands carry no session id of their own; `sendMessage` adds it. */
  function HangupCommand(): (m: Message)
    ensures Get(m, "command") == JStr("hangup") && "sessionID" !in m
  {
    map["command" := JStr("hangup")]
  }

  function MuteCommand(muted: bool): (m: Message)
    ensures Get(m, "command") == JStr("setMuted") && "sessionID" !in m
    ensures Get(m, "muted") == JStr("true") <==> muted
  {
    map["command" := JStr("setMuted"), "muted" := JStr(if muted then "true" else "false")]
  }

  function JoinCommand(url: string): (m: Message)
    ensures Get(m, "command") == JStr("joinConference") && "sessionID" !in m
    ensures Get(m, "data") == JStr(url)
  {
    map["command" := JStr("joinConference"), "data" := JStr(url)]
  }

  /** `components(separatedBy: "/")`: the pieces between separators, at least one. */
  function Components(s: string): (parts: seq<string>)
    ensures |parts| >= 1
    ensures forall i :: 0 <= i < |parts| ==> '/' !in parts[i]
  {
    if s == [] then [""]
    else
      var rest := Components(s[1..]);
      if s[0] == '/' then [""] + rest else [[s[0]] + rest[0]] + rest[1..]
  }

  /** The inverse of `Components`: the pieces glued back with the separator. */
  function JoinWith(parts: seq<string>, sep: char): string {
    if parts == [] then ""
    else if |parts| == 1 then parts[0]
    else parts[0] + [sep] + JoinWith(parts[1..], sep)
  }

  /** Splitting on `/` and joining back gives the string back. */
  lemma {:induction false} JoinComponents(s: string)
    ensures JoinWith(Components(s), '/') == s
  {
    if s != [] {
      var rest := Components(s[1..]);
      JoinComponents(s[1..]);
      if s[0] == '/' {
        assert Components(s) == [""] + rest;
        assert JoinWith([""] + rest, '/') == "" + ['/'] + JoinWith(rest, '/');
      } else {
        var parts := [[s[0]] + rest[0]] + rest[1..];
        assert Components(s) == parts;
        if |rest| == 1 {
          assert JoinWith(parts, '/') == [s[0]] + rest[0];
        } else {
          assert parts[1..] == rest[1..];
          assert JoinWith(rest, '/') == rest[0] + ['/'] + JoinWith(rest[1..], '/');
          assert JoinWith(parts, '/') == [s[0]] + rest[0] + ['/'] + JoinWith(rest[1..], '/');
        }
      }
    }
  }

  /** `.last` of the components, which always exists. */
  function LastComponent(s: string): (last: string)
    ensures '/' !in last
  {
    var parts := Components(s);
    parts[|parts| - 1]
  }

  /** One step of `Components` seen from its last piece. */
  lemma LastComponentStep(s: string)
    requires s != []
    ensures var rest := Components(s[1..]);
      if s[0] == '/' || |rest| > 1 then LastComponent(s) == LastComponent(s[1..])
      else LastComponent(s) == [s[0]] + rest[0] && rest[0] == LastComponent(s[1..])
  {
  }

  /** The last component is the text after the last `/`: a suffix with no `/` in it that is
      the whole string or follows a `/`. */
  lemma {:induction false} LastComponentIsSuffix(s: string)
    ensures |LastComponent(s)| <= |s|
    ensures s[|s| - |LastComponent(s)|..] == LastComponent(s)
    ensures '/' !in LastComponent(s)
    ensures |LastComponent(s)| < |s| ==> s[|s| - |LastComponent(s)| - 1] == '/'
  {
    if s != [] {
      var tail := s[1..];
      var rest := Components(tail);
      LastComponentIsSuffix(tail);
      LastComponentStep(s);
      var last := LastComponent(tail);
      if s[0] == '/' {
      } else if |rest| == 1 {
        JoinComponents(tail);
        assert last == tail;
        assert LastComponent(s) == s;
      } else {
        JoinComponents(tail);
        assert JoinWith(rest, '/') == rest[0] + ['/'] + JoinWith(rest[1..], '/');
        assert tail[|rest[0]|] == '/';
        assert last != tail;
      }
    }
  }

  /** A string with no `/` is a single component. */
  lemma {:induction false} ComponentsOfPlain(s: string)
    requires '/' !in s
    ensures Components(s) == [s]
  {
    if s != [] {
      ComponentsOfPlain(s[1..]);
      assert [s[0]] + s[1..] == s;
    }
  }

  /** Whatever comes before the last `/`, the last component is what follows it. */
  lemma {:induction false} LastComponentAfterSlash(prefix: string, name: string)
    requires '/' !in name
    ensures |Components(prefix + "/" + name)| >= 2
    ensures LastComponent(prefix + "/" + name) == name
  {
    var s := prefix + "/" + name;
    if prefix == [] {
      ComponentsOfPlain(name);
      assert s[1..] == name;
    } else {
      LastComponentAfterSlash(prefix[1..], name);
      assert s[1..] == prefix[1..] + "/" + name;
    }
  }

  /** The text of the room label: the last path segment, blank for the `NULL` sentinel. */
  function RoomLabel(conferenceURL: string): (text: string)
    ensures text != "NULL" && '/' !in text
    ensures text == "" || text == LastComponent(conferenceURL)
    ensures LastComponent(conferenceURL) != "NULL" ==> text == LastComponent(conferenceURL)
  {
    var newRoomName := LastComponent(conferenceURL);
    if newRoomName != "NULL" then newRoomName else ""
  }

  /** The room of a conference URL is shown, the sentinel shows nothing. */
  lemma RoomLabelExamples()
    ensures RoomLabel("https://x/room1") == "room1"
    ensures RoomLabel("NULL") == ""
  {
    assert "https://x/room1" == "https://x" + "/" + "room1";
    LastComponentAfterSlash("https://x", "room1");
    ComponentsOfPlain("NULL");
  }

  /** Euclidean division of a natural number: a non-negative quotient and remainder below `b`. */
  lemma DivBounds(n: nat, b: int)
    requires b > 0
    ensures n / b >= 0 && 0 <= n - (n / b) * b < b
  {
  }

  /** Swift's `Int64 /`, which truncates towards zero. */
  function TruncDiv(a: int, b: int): (q: int)
    requires b > 0
    // the quotient rounds towards zero: the remainder has the sign of `a` and is below `b`
    ensures a >= 0 ==> q >= 0 && 0 <= a - q * b < b
    ensures a < 0 ==> q <= 0 && -b < a - q * b <= 0
  {
    if a >= 0 then
      DivBounds(a, b);
      a / b
    else
      DivBounds(-a, b);
      assert (-((-a) / b)) * b == -(((-a) / b) * b);
      -((-a) / b)
  }

  /** The URL `updateUI` labels: the one to join when there is one. */
  function EffectiveUrl(newContext: JitsiMeetContext): string {
    match newContext.joinConferenceURL
    case Some(url) => url
    case None => newContext.conferenceURL
  }

  class InCallController {
    // `ExtensionDelegate.currentJitsiMeetContext`, kept up to date by the extension delegate
    var currentContext: JitsiMeetContext
    // `WCSession.isSupported()`
    var sessionSupported: bool
    // the messages handed to `WCSession.default.sendMessage`
    var sent: seq<Message>
    // the interface objects: label text, timer state and date (in seconds since 1970),
    // and whether the mute-on image is shown (None until first set)
    var roomLabel: string
    var timerRunning: bool
    var timerDate: int
    var mutedButton: Option<bool>

    constructor(currentContext: JitsiMeetContext, sessionSupported: bool)
      ensures this.currentContext == currentContext && this.sessionSupported == sessionSupported
      ensures sent == [] && roomLabel == "" && !timerRunning && timerDate == 0 && mutedButton == None
    {
      this.currentContext := currentContext;
      this.sessionSupported := sessionSupported;
      sent := [];
      roomLabel := "";
      timerRunning := false;
      timerDate := 0;
      mutedButton := None;
    }

    /** What one `sendMessage(message)` sends: nothing without session support or without a
        known session identifier. */
    function Outgoing(message: Message): (out: seq<Message>)
      reads this
      ensures |out| <= 1
      ensures |out| == 1 <==> sessionSupported && currentContext.sessionID.Some?
      ensures |out| == 1 ==> out[0] == WithSession(message, currentContext.sessionID.value)
    {
      if sessionSupported && currentContext.sessionID.Some? then
        [WithSession(message, currentContext.sessionID.value)]
      else []
    }

    method SendMessage(message: Message)
      modifies this`sent
      ensures sent == old(sent) + Outgoing(message)
    {
      if sessionSupported {
        match currentContext.sessionID {
          case Some(sessionID) =>
            var data := CopyWithSession(message, sessionID);
            sent := sent + [data];
          case None =>
        }
      }
    }

    method HangupClicked()
      modifies this`sent
      ensures sent == old(sent) + Outgoing(HangupCommand())
    {
      SendMessage(HangupCommand());
    }

    /** Sends the flipped mute state and shows it at once; the context is left as it was. */
    method MuteClicked()
      modifies this`sent, this`mutedButton
      ensures currentContext.micMuted.None? ==> sent == old(sent) && mutedButton == old(mutedButton)
      ensures currentContext.micMuted.Some? ==>
        sent == old(sent) + Outgoing(MuteCommand(!currentContext.micMuted.value)) &&
        mutedButton == Some(!currentContext.micMuted.value)
    {
      match currentContext.micMuted {
        case Some(m) =>
          var micMuted := m;
          micMuted := !micMuted;
          SendMessage(MuteCommand(micMuted));
          UpdateMutedButton(micMuted);
        case None =>
      }
    }

    method UpdateUI(newContext: JitsiMeetContext)
      modifies this`sent, this`roomLabel, this`timerRunning, this`timerDate, this`mutedButton
      ensures newContext.joinConferenceURL.None? ==> sent == old(sent)
      ensures newContext.joinConferenceURL.Some? ==>
        sent == old(sent) + Outgoing(JoinCommand(newContext.joinConferenceURL.value))
      ensures roomLabel == RoomLabel(EffectiveUrl(newContext))
      ensures newContext.conferenceTimestamp.None? ==>
        timerRunning == old(timerRunning) && timerDate == old(timerDate)
      ensures newContext.conferenceTimestamp.Some? ==>
        timerRunning == (newContext.conferenceTimestamp.value != 0)
      ensures newContext.conferenceTimestamp.Some? && newContext.conferenceTimestamp.value != 0 ==>
        timerDate == TruncDiv(newContext.conferenceTimestamp.value, 1000)
      ensures newContext.conferenceTimestamp.Some? && newContext.conferenceTimestamp.value == 0 ==>
        timerDate == old(timerDate)
      ensures newContext.micMuted.None? ==> mutedButton == old(mutedButton)
      ensures newContext.micMuted.Some? ==> mutedButton == newContext.micMuted
    {
      var conferenceURL := newContext.conferenceURL;
      match newContext.joinConferenceURL {
        case Some(joinConferenceURL) =>
          SendMessage(JoinCommand(joinConferenceURL));
          conferenceURL := joinConferenceURL;
        case None =>
      }
      roomLabel := RoomLabel(conferenceURL);
      match newContext.conferenceTimestamp {
        case Some(newTimestamp) => RestartTimer(newTimestamp);
        case None =>
      }
      match newContext.micMuted {
        case Some(newMuted) => UpdateMutedButton(newMuted);
        case None =>
      }
    }

    method RestartTimer(conferenceTimestamp: int)
      modifies this`timerRunning, this`timerDate
      ensures timerRunning == (conferenceTimestamp != 0)
      ensures conferenceTimestamp != 0 ==> timerDate == TruncDiv(conferenceTimestamp, 1000)
      ensures conferenceTimestamp == 0 ==> timerDate == old(timerDate)
    {
      if conferenceTimestamp != 0 {
        timerDate := TruncDiv(conferenceTimestamp, 1000);
        timerRunning := true;
      } else {
        timerRunning := false;
      }
    }

    method UpdateMutedButton(isMuted: bool)
      modifies this`mutedButton
      ensures mutedButton == Some(isMuted)
    {
      mutedButton := Some(isMuted);
    }

    /** `awake(withContext:)`: renders the context it is given when it is a context. */
    method Awake(context: Option<JitsiMeetContext>)
      modifies this`sent, this`roomLabel, this`timerRunning, this`timerDate, this`mutedButton
      ensures context.None? ==>
        sent == old(sent) && roomLabel == old(roomLabel) && timerRunning == old(timerRunning) &&
        timerDate == old(timerDate) && mutedButton == old(mutedButton)
      ensures context.Some? ==> roomLabel == RoomLabel(EffectiveUrl(context.value))
      ensures context.Some? && context.value.joinConferenceURL.None? ==> sent == old(sent)
      ensures context.Some? && context.value.joinConferenceURL.Some? ==>
        sent == old(sent) + Outgoing(JoinCommand(context.value.joinConferenceURL.value))
      ensures context.Some? && context.value.micMuted.Some? ==> mutedButton == context.value.micMuted
      ensures context.Some? && context.value.micMuted.None? ==> mutedButton == old(mutedButton)
      ensures context.Some? && context.value.conferenceTimestamp.None? ==>
        timerRunning == old(timerRunning) && timerDate == old(timerDate)
      ensures context.Some? && context.value.conferenceTimestamp.Some? ==>
        timerRunning == (context.value.conferenceTimestamp.value != 0)
      ensures context.Some? && context.value.conferenceTimestamp.Some? && context.value.conferenceTimestamp.value != 0 ==>
        timerDate == TruncDiv(context.value.conferenceTimestamp.value, 1000)
      ensures context.Some? && context.value.conferenceTimestamp.Some? && context.value.conferenceTimestamp.value == 0 ==>
        timerDate == old(timerDate)
    {
      match context {
        case Some(data) => UpdateUI(data);
        case None =>
      }
    }
  }
}
