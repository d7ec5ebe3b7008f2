/** The two sides together: commands built by the watch controller, as the phone's message
    handler treats them. */
module RelayScenario {
  import opened Wire
  import opened WatchOsActions
  import opened WatchOsState
  import opened WatchOsMiddleware
  import opened WatchExtension

  /** A hangup stamped with the current session leaves a running conference, and does
      nothing when there is none. */
  lemma HangupRoundTrip(sessionID: int, currentUrl: string)
    requires sessionID != 0
    ensures CommandDispatch(JNum(sessionID), currentUrl, WithSession(HangupCommand(), sessionID)) ==
      (if currentUrl != NULL_URL then Some(AppNavigate(JUndefined)) else None)
  {
  }

  /** A mute tap with last known state `lastKnown` sets the phone's microphone to the
      opposite state. */
  lemma MuteRoundTrip(sessionID: int, lastKnown: bool, currentUrl: string)
    requires sessionID != 0
    ensures CommandDispatch(JNum(sessionID), currentUrl, WithSession(MuteCommand(!lastKnown), sessionID)) ==
      Some(SetAudioMuted(!lastKnown, true))
  {
  }

  /** The watch echoes a join URL back; it navigates only when it is not already the
      current conference. */
  lemma JoinEcho(sessionID: int, joinUrl: string, currentUrl: string)
    requires sessionID != 0
    ensures CommandDispatch(JNum(sessionID), currentUrl, WithSession(JoinCommand(joinUrl), sessionID)) ==
      (if joinUrl == currentUrl then None else Some(AppNavigate(JStr(joinUrl))))
  {
  }

  /** The phone rejoined and minted session `now`; whatever the watch sends under the session
      it was given before is dropped. */
  lemma StaleCommandDropped(ctx: WatchContext, oldSession: int, newUrl: string, now: int,
                            currentUrl: string, command: Message)
    requires ctx.sessionID == Some(oldSession) && now != oldSession
    ensures CommandDispatch(SessionValue(ApplyWatchAction(ctx, SetConferenceURL(newUrl, now)).sessionID),
                            currentUrl, WithSession(command, oldSession)) == None
  {
    StaleCommandAfterRejoin(ctx, newUrl, now, currentUrl, WithSession(command, oldSession));
  }

  /** The rejoin played on the relay itself: the invite URL changes to another usable URL,
      which mints the session `now`; a hangup the watch stamped with the previous session
      then arrives and dispatches nothing. */
  method RejoinDropsStaleHangup(relay: PhoneRelay, url: string, now: int)
    requires relay.subscribed
    requires relay.context.sessionID.Some? && now != relay.context.sessionID.value
    requires UsableUrl(true, url) && url != relay.CurrentConferenceUrl()
    modifies relay
    ensures relay.context.sessionID == Some(now)
    ensures relay.dispatched == old(relay.dispatched) + [WatchOs(SetConferenceUrlAction(url, now))]
  {
    var oldSession := relay.context.sessionID.value;
    relay.InviteUrlChanged(true, url, now);
    relay.OnMessage(false, WithSession(HangupCommand(), oldSession));
  }
}
