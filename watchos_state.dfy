/** The `features/mobile/watchos` state slice: the context published to the watch.
    Its reducer is not part of this model; `ApplyWatchAction` assumes the plain reading of the
    action creators, that each action stores its payload under the key of the same name. */
module WatchOsState {
  import opened Wire
  import opened WatchOsActions

  datatype WatchContext = WatchContext(
    conferenceURL: Option<string>,
    sessionID: Option<int>,
    micMuted: Option<bool>,
    conferenceTimestamp: Option<int>,
    recentURLs: Option<seq<RecentEntry>>)

  const EmptyContext := WatchContext(None, None, None, None, None)

  function ApplyWatchAction(ctx: WatchContext, a: WatchAction): (r: WatchContext)
    // only a URL action moves the conference URL and the session, and it moves both
    ensures a.SetConferenceUrlAction? ==>
      r.conferenceURL == Some(a.conferenceURL) && r.sessionID == Some(a.sessionID)
    ensures !a.SetConferenceUrlAction? ==>
      r.conferenceURL == ctx.conferenceURL && r.sessionID == ctx.sessionID
    ensures a.SetMicMutedAction? ==> r.micMuted == Some(a.micMuted)
    ensures !a.SetMicMutedAction? ==> r.micMuted == ctx.micMuted
    ensures a.SetConferenceTimestampAction? ==> r.conferenceTimestamp == Some(a.conferenceTimestamp)
    ensures !a.SetConferenceTimestampAction? ==> r.conferenceTimestamp == ctx.conferenceTimestamp
    ensures a.SetRecentUrlsAction? ==> r.recentURLs == Some(a.recentURLs)
    ensures !a.SetRecentUrlsAction? ==> r.recentURLs == ctx.recentURLs
  {
    match a
    case SetConferenceTimestampAction(t) => ctx.(conferenceTimestamp := Some(t))
    case SetConferenceUrlAction(url, sid) => ctx.(conferenceURL := Some(url), sessionID := Some(sid))
    case SetMicMutedAction(m) => ctx.(micMuted := Some(m))
    case SetRecentUrlsAction(list) => ctx.(recentURLs := Some(list))
  }

  /** The slice after a run of actions, applied in order. */
  function ApplyWatchActions(ctx: WatchContext, actions: seq<WatchAction>): WatchContext
    decreases |actions|
  {
    if actions == [] then ctx
    else ApplyWatchAction(ApplyWatchActions(ctx, actions[..|actions| - 1]), actions[|actions| - 1])
  }

  /** The session identifier as the message handler reads it: undefined before any session. */
  function SessionValue(sessionID: Option<int>): JsValue {
    match sessionID
    case None => JUndefined
    case Some(n) => JNum(n)
  }
}
