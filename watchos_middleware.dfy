/** The phone side of the watch relay (react/features/mobile/watchos/middleware.js): the URL
    selector, the session fence and command switch of the message handler, the state
    listeners, and the middleware. */
module WatchOsMiddleware {
  import opened Wire
  import opened WatchOsActions
  import opened WatchOsState

  /** The sentinel sent when no conference is active. */
  const NULL_URL := "NULL"

  /** An invite URL the selector passes through: ready, non-empty, not ending in `/`. */
  predicate UsableUrl(inviteUrlReady: bool, inviteUrl: string) {
    inviteUrlReady && inviteUrl != "" && inviteUrl[|inviteUrl| - 1] != '/'
  }

  /** `_getCurrentConferenceUrl`: `inviteUrl` stands for `toURLString(getInviteURL(state))`. */
  function GetCurrentConferenceUrl(inviteUrlReady: bool, inviteUrl: string): (r: string)
    ensures UsableUrl(inviteUrlReady, inviteUrl) ==> r == inviteUrl
    ensures !UsableUrl(inviteUrlReady, inviteUrl) ==> r == NULL_URL
    ensures r != "" && r[|r| - 1] != '/'
  {
    var currentUrl := if inviteUrlReady then inviteUrl else "";
    var currentUrl' := if currentUrl != "" && currentUrl[|currentUrl| - 1] == '/' then "" else currentUrl;
    if currentUrl' != "" then currentUrl' else NULL_URL
  }

  /** What the relay dispatches to the store. */
  datatype StoreAction =
    | WatchOs(action: WatchAction)
    | AppNavigate(uri: JsValue)
    | SetAudioMuted(muted: bool, ensureTrack: bool)

  /** The actions the middleware looks at; every other action type is `OtherAction`. */
  datatype MiddlewareAction = AppWillMount | ConferenceJoined | OtherAction(actionType: string)

  /** The fence: the message carries a truthy session id strictly equal to the stored one. */
  predicate IsCurrentSession(message: Message, currentSessionID: JsValue) {
    Truthy(Get(message, "sessionID")) && Get(message, "sessionID") == currentSessionID
  }

  predicate IsCommand(message: Message, name: string) {
    Get(message, "command") == JStr(name)
  }

  /** The message handler after its error check: at most one dispatch per message. */
  function CommandDispatch(currentSessionID: JsValue, currentUrl: string, message: Message): (r: Option<StoreAction>)
    // a stale, missing or falsy session id never reaches the switch
    ensures r.Some? ==> IsCurrentSession(message, currentSessionID)
    // the switch has no default: only the three commands dispatch anything
    ensures r.Some? ==> IsCommand(message, "joinConference") || IsCommand(message, "setMuted") || IsCommand(message, "hangup")
    ensures IsCurrentSession(message, currentSessionID) && IsCommand(message, "joinConference") ==>
      (r.Some? <==> Get(message, "data") != JStr(currentUrl)) &&
      (r.Some? ==> r.value == AppNavigate(Get(message, "data")))
    ensures IsCurrentSession(message, currentSessionID) && IsCommand(message, "setMuted") ==>
      r == Some(SetAudioMuted(Get(message, "muted") == JStr("true"), true))
    ensures IsCurrentSession(message, currentSessionID) && IsCommand(message, "hangup") ==>
      (r.Some? <==> currentUrl != NULL_URL) && (r.Some? ==> r.value == AppNavigate(JUndefined))
  {
    var sessionID := Get(message, "sessionID");
    if !Truthy(sessionID) || sessionID != currentSessionID then None
    else
      var command := Get(message, "command");
      if command == JStr("joinConference") then
        var newConferenceURL := Get(message, "data");
        if JStr(currentUrl) != newConferenceURL then Some(AppNavigate(newConferenceURL)) else None
      else if command == JStr("setMuted") then
        Some(SetAudioMuted(Get(message, "muted") == JStr("true"), true))
      else if command == JStr("hangup") then
        if currentUrl != NULL_URL then Some(AppNavigate(JUndefined)) else None
      else None
  }

  /** ASCII case mapping of `String.prototype.toLowerCase`. */
  function LowerChar(c: char): char {
    if 'A' <= c <= 'Z' then (c as int + 32) as char else c
  }

  function ToLowerCase(s: string): (r: string)
    ensures |r| == |s|
    ensures forall i :: 0 <= i < |s| ==> r[i] == LowerChar(s[i])
  {
    if s == [] then [] else [LowerChar(s[0])] + ToLowerCase(s[1..])
  }

  /** The watch-state value that triggers a context publish. */
  predicate IsActivated(watchState: string) {
    ToLowerCase(watchState) == "activated"
  }

  /** `activated` matches in any letter case, and only words of that spelling match. */
  lemma ActivatedIgnoringCase(watchState: string)
    ensures IsActivated(watchState) <==>
      |watchState| == 9 && forall i :: 0 <= i < 9 ==> LowerChar(watchState[i]) == "activated"[i]
  {
    var lower := ToLowerCase(watchState);
    if |watchState| == 9 && forall i :: 0 <= i < 9 ==> LowerChar(watchState[i]) == "activated"[i] {
      assert forall i :: 0 <= i < 9 ==> lower[i] == "activated"[i];
      assert lower == "activated";
    }
  }

  /** Upper-case spellings match too; a shorter word does not. */
  lemma ActivatedExamples()
    ensures IsActivated("ACTIVATED")
    ensures !IsActivated("active")
  {
    var w := "ACTIVATED";
    assert forall i :: 0 <= i < 9 ==> LowerChar(w[i]) == "activated"[i];
    ActivatedIgnoringCase(w);
    ActivatedIgnoringCase("active");
  }

  /** The store, reduced to what the relay reads and writes, plus logs of what it dispatched
      and of the contexts it handed to the transport. */
  class PhoneRelay {
    // `features/base/connection`: whether the invite URL is ready, and its string form
    var inviteUrlReady: bool
    var inviteUrl: string
    // `features/mobile/watchos`: the context published to the watch
    var context: WatchContext
    // the watch callbacks are registered (APP_WILL_MOUNT was seen)
    var subscribed: bool
    var dispatched: seq<StoreAction>
    var published: seq<WatchContext>

    constructor(inviteUrlReady: bool, inviteUrl: string)
      ensures this.inviteUrlReady == inviteUrlReady && this.inviteUrl == inviteUrl
      ensures context == EmptyContext && !subscribed
      ensures dispatched == [] && published == []
    {
      this.inviteUrlReady := inviteUrlReady;
      this.inviteUrl := inviteUrl;
      context := EmptyContext;
      subscribed := false;
      dispatched := [];
      published := [];
    }

    function CurrentConferenceUrl(): string
      reads this
    {
      GetCurrentConferenceUrl(inviteUrlReady, inviteUrl)
    }

    /** `dispatch` of one of the feature's own actions: logged and stored in the slice. */
    method DispatchWatchAction(a: WatchAction)
      modifies this`context, this`dispatched
      ensures context == ApplyWatchAction(old(context), a)
      ensures dispatched == old(dispatched) + [WatchOs(a)]
    {
      dispatched := dispatched + [WatchOs(a)];
      context := ApplyWatchAction(context, a);
    }

    /** `_updateApplicationContext`: hands the whole slice to the transport. A transport
        failure is caught and logged by `_updateApplicationContext`, so the attempt is all that is recorded. */
    method UpdateApplicationContext()
      modifies this`published
      ensures published == old(published) + [context]
    {
      published := published + [context];
    }

    /** The recent-list listener. */
    method RecentListListener(recentList: array<RecentEntry>)
      modifies this`context, this`dispatched, this`published
      ensures context == old(context).(recentURLs := Some(NewestFirst(old(recentList[..]), MAX_RECENT_URLS)))
      ensures context.sessionID == old(context.sessionID)
      ensures dispatched == old(dispatched) + [WatchOs(SetRecentUrlsAction(NewestFirst(old(recentList[..]), MAX_RECENT_URLS)))]
      ensures published == old(published) + [context]
    {
      ghost var list := NewestFirst(recentList[..], MAX_RECENT_URLS);
      var action := SetRecentUrls(recentList);
      assert action == SetRecentUrlsAction(list);
      DispatchWatchAction(action);
      assert context == old(context).(recentURLs := Some(list));
      UpdateApplicationContext();
    }

    /** The microphone listener: `isAudioMuted` is the selected `audio.muted`. */
    method MicMutedListener(isAudioMuted: bool)
      modifies this`context, this`dispatched, this`published
      ensures context == old(context).(micMuted := Some(isAudioMuted))
      ensures context.sessionID == old(context.sessionID)
      ensures dispatched == old(dispatched) + [WatchOs(SetMicMutedAction(isAudioMuted))]
      ensures published == old(published) + [context]
    {
      DispatchWatchAction(SetMicMuted(isAudioMuted));
      UpdateApplicationContext();
    }

    /** The conference-URL listener. It is given the selected `_getCurrentConferenceUrl`
        value, read here from the store; `now` is the clock reading that becomes the new
        session identifier. */
    method ConferenceUrlListener(now: int)
      modifies this`context, this`dispatched, this`published
      ensures context == old(context).(conferenceURL := Some(CurrentConferenceUrl()), sessionID := Some(now))
      ensures dispatched == old(dispatched) + [WatchOs(SetConferenceUrlAction(CurrentConferenceUrl(), now))]
      ensures published == old(published) + [context]
      // the URL published to the watch is "NULL" or a non-empty URL not ending in `/`
      ensures context.conferenceURL.Some? && context.conferenceURL.value != "" &&
        context.conferenceURL.value[|context.conferenceURL.value| - 1] != '/'
    {
      var currentUrl := CurrentConferenceUrl();
      DispatchWatchAction(SetConferenceURL(currentUrl, now));
      UpdateApplicationContext();
    }

    /** A change of the connection state: the invite URL becomes `url`, ready or not. The
        state-listener registry runs the URL listener when the selected value changes; the
        registry is not part of this model, and this method takes that rule as given. */
    method InviteUrlChanged(ready: bool, url: string, now: int)
      modifies this`inviteUrlReady, this`inviteUrl, this`context, this`dispatched, this`published
      ensures inviteUrlReady == ready && inviteUrl == url
      ensures CurrentConferenceUrl() == old(CurrentConferenceUrl()) ==>
        context == old(context) && dispatched == old(dispatched) && published == old(published)
      ensures CurrentConferenceUrl() != old(CurrentConferenceUrl()) ==>
        context == old(context).(conferenceURL := Some(CurrentConferenceUrl()), sessionID := Some(now)) &&
        dispatched == old(dispatched) + [WatchOs(SetConferenceUrlAction(CurrentConferenceUrl(), now))] &&
        published == old(published) + [context]
    {
      var previous := CurrentConferenceUrl();
      inviteUrlReady := ready;
      inviteUrl := url;
      if CurrentConferenceUrl() != previous {
        ConferenceUrlListener(now);
      }
    }

    /** The middleware: APP_WILL_MOUNT registers the watch callbacks (`OnWatchState` and
        `OnMessage`), CONFERENCE_JOINED stamps the join time and publishes; every action is
        passed on to `next` unchanged. */
    method Middleware(action: MiddlewareAction, now: int) returns (forwarded: MiddlewareAction)
      modifies this`subscribed, this`context, this`dispatched, this`published
      ensures forwarded == action
      ensures action.AppWillMount? ==>
        subscribed && context == old(context) && dispatched == old(dispatched) && published == old(published)
      ensures action.ConferenceJoined? ==>
        subscribed == old(subscribed) &&
        context == old(context).(conferenceTimestamp := Some(now)) &&
        dispatched == old(dispatched) + [WatchOs(SetConferenceTimestampAction(now))] &&
        published == old(published) + [context]
      ensures action.OtherAction? ==>
        subscribed == old(subscribed) && context == old(context) &&
        dispatched == old(dispatched) && published == old(published)
    {
      match action {
        case AppWillMount =>
          subscribed := true;
        case ConferenceJoined =>
          DispatchWatchAction(SetConferenceTimestamp(now));
          UpdateApplicationContext();
        case OtherAction(_) =>
      }
      forwarded := action;
    }

    /** The `subscribeToWatchState` callback. */
    method OnWatchState(error: bool, watchState: string)
      requires subscribed
      modifies this`published
      ensures published == old(published) + (if !error && IsActivated(watchState) then [context] else [])
    {
      if error {
        return;
      }
      if ToLowerCase(watchState) == "activated" {
        UpdateApplicationContext();
      }
    }

    /** The `subscribeToMessages` callback. */
    method OnMessage(error: bool, message: Message)
      requires subscribed
      modifies this`dispatched
      ensures error ==> dispatched == old(dispatched)
      ensures !error ==>
        dispatched == old(dispatched) + OptionToSeq(CommandDispatch(SessionValue(context.sessionID), CurrentConferenceUrl(), message))
      ensures !IsCurrentSession(message, SessionValue(context.sessionID)) ==> dispatched == old(dispatched)
    {
      if error {
        return;
      }
      var effect := CommandDispatch(SessionValue(context.sessionID), CurrentConferenceUrl(), message);
      match effect {
        case None =>
        case Some(a) => dispatched := dispatched + [a];
      }
    }
  }

  /** After a rejoin stores a session minted at `now`, a command that still carries the
      previous session identifier dispatches nothing, whatever the command. */
  lemma StaleCommandAfterRejoin(ctx: WatchContext, newUrl: string, now: int, currentUrl: string, message: Message)
    requires ctx.sessionID.Some? && now != ctx.sessionID.value
    requires Get(message, "sessionID") == JNum(ctx.sessionID.value)
    ensures CommandDispatch(SessionValue(ApplyWatchAction(ctx, SetConferenceURL(newUrl, now)).sessionID), currentUrl, message) == None
  {
  }

  /** The fence relies on the clock: a rejoin within the same millisecond mints the session id
      already stored, and a hangup from the earlier conference still navigates away. */
  lemma SameInstantRejoinKeepsStaleCommand(ctx: WatchContext, newUrl: string, now: int, currentUrl: string, message: Message)
    requires ctx.sessionID == Some(now) && now != 0
    requires Get(message, "sessionID") == JNum(now) && IsCommand(message, "hangup")
    requires currentUrl != NULL_URL
    ensures CommandDispatch(SessionValue(ApplyWatchAction(ctx, SetConferenceURL(newUrl, now)).sessionID), currentUrl, message)
      == Some(AppNavigate(JUndefined))
  {
  }

  /** A `joinConference` without `data` reads `undefined`, which differs from every URL string:
      it navigates away from the current conference, like a hangup would. */
  lemma JoinWithoutDataNavigatesAway(currentSessionID: JsValue, currentUrl: string, message: Message)
    requires IsCurrentSession(message, currentSessionID) && IsCommand(message, "joinConference")
    requires "data" !in message
    ensures CommandDispatch(currentSessionID, currentUrl, message) == Some(AppNavigate(JUndefined))
  {
  }

  /** Over any run of actions, the session is the one minted by the last URL action (`k`),
      or the starting one when no URL action occurs (`k == -1`): mute, timestamp and
      recent-list updates never touch it. */
  lemma {:induction false} SessionOnlyChangesWithUrl(ctx: WatchContext, actions: seq<WatchAction>, k: int)
    requires -1 <= k < |actions|
    requires k >= 0 ==> actions[k].SetConferenceUrlAction?
    requires forall i :: k < i < |actions| ==> !actions[i].SetConferenceUrlAction?
    ensures ApplyWatchActions(ctx, actions).sessionID ==
      if k < 0 then ctx.sessionID else Some(actions[k].sessionID)
    decreases |actions|
  {
    if actions != [] && k < |actions| - 1 {
      var init := actions[..|actions| - 1];
      assert forall i :: k < i < |init| ==> init[i] == actions[i];
      SessionOnlyChangesWithUrl(ctx, init, k);
    }
  }
}
