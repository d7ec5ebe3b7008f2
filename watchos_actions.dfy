/** The action creators of the watchOS feature (react/features/mobile/watchos/actions.js). */
module WatchOsActions {
  import opened Wire

  /** An entry of the recent-meetings list; the relay forwards entries without looking inside. */
  type RecentEntry = JsValue

  /** How many recent meetings are sent to the watch. The constant lives in constants.js,
      which is not part of this model; the lemmas below hold for every value of at least one. */
  const MAX_RECENT_URLS: nat := 10

  /** The actions of the feature; each constructor stands for one action type. */
  datatype WatchAction =
    | SetConferenceTimestampAction(conferenceTimestamp: int)
    | SetConferenceUrlAction(conferenceURL: string, sessionID: int)
    | SetMicMutedAction(micMuted: bool)
    | SetRecentUrlsAction(recentURLs: seq<RecentEntry>)

  /** The timestamp of the conference join, carried unchanged. */
  function SetConferenceTimestamp(conferenceTimestamp: int): (a: WatchAction)
    ensures a.SetConferenceTimestampAction? && a.conferenceTimestamp == conferenceTimestamp
  {
    SetConferenceTimestampAction(conferenceTimestamp)
  }

  /** A conference URL change, stamped with a new session identifier read from the clock
      (`now` stands for `new Date().getTime()`). */
  function SetConferenceURL(conferenceURL: string, now: int): (a: WatchAction)
    ensures a.SetConferenceUrlAction?
    ensures a.conferenceURL == conferenceURL && a.sessionID == now
  {
    SetConferenceUrlAction(conferenceURL, now)
  }

  /** The microphone state, carried unchanged. */
  function SetMicMuted(micMuted: bool): (a: WatchAction)
    ensures a.SetMicMutedAction? && a.micMuted == micMuted
  {
    SetMicMutedAction(micMuted)
  }

  /** `Array.prototype.slice(start)` with a single argument: a negative start counts from
      the end and is clamped at 0, a start past the end gives the empty array. */
  function SliceFrom<T>(s: seq<T>, start: int): (r: seq<T>)
    // a tail of the sequence, as long as the negative start asks for, clamped to the whole
    ensures |r| <= |s| && r == s[|s| - |r|..]
    ensures start < 0 ==> |r| == Min(|s|, -start)
    ensures start >= 0 ==> |r| == if start >= |s| then 0 else |s| - start
  {
    var k := if start < 0 then (if |s| + start < 0 then 0 else |s| + start)
             else (if start > |s| then |s| else start);
    s[k..]
  }

  function Reversed<T>(s: seq<T>): seq<T> {
    if s == [] then [] else [s[|s| - 1]] + Reversed(s[..|s| - 1])
  }

  /** What `setRecentUrls` sends: the last `max` entries, newest first. */
  function NewestFirst<T>(list: seq<T>, max: nat): (r: seq<T>)
    ensures |r| <= |list|
    ensures max >= 1 ==> |r| <= max
  {
    ReversedLength(SliceFrom(list, -(max as int)));
    Reversed(SliceFrom(list, -(max as int)))
  }

  function Min(a: int, b: int): int { if a < b then a else b }

  lemma {:induction false} ReversedAt<T>(s: seq<T>, i: nat)
    requires i < |s|
    ensures |Reversed(s)| == |s|
    ensures Reversed(s)[i] == s[|s| - 1 - i]
  {
    if i == 0 {
      ReversedLength(s);
    } else {
      ReversedAt(s[..|s| - 1], i - 1);
    }
  }

  lemma {:induction false} ReversedLength<T>(s: seq<T>)
    ensures |Reversed(s)| == |s|
  {
    if s != [] {
      ReversedLength(s[..|s| - 1]);
    }
  }

  /** The list sent to the watch holds min(|list|, max) entries. */
  lemma NewestFirstLength<T>(list: seq<T>, max: nat)
    requires max >= 1
    ensures |NewestFirst(list, max)| == Min(|list|, max)
  {
    ReversedLength(SliceFrom(list, -(max as int)));
  }

  /** Entry i of the list sent to the watch is entry |list|-1-i of the input: the newest first. */
  lemma NewestFirstAt<T>(list: seq<T>, max: nat, i: nat)
    requires max >= 1
    requires i < Min(|list|, max)
    ensures |NewestFirst(list, max)| == Min(|list|, max)
    ensures NewestFirst(list, max)[i] == list[|list| - 1 - i]
  {
    var tail := SliceFrom(list, -(max as int));
    ReversedAt(tail, i);
  }

  /** With a bound of 0, `slice(-0)` is `slice(0)`: nothing is trimmed. */
  lemma NewestFirstZeroKeepsAll<T>(list: seq<T>)
    ensures NewestFirst(list, 0) == Reversed(list)
  {
    assert SliceFrom(list, 0) == list;
  }

  /** `list.slice(-max)`: a fresh array holding the last `max` entries. */
  method SliceLast(list: array<RecentEntry>, max: nat) returns (copy: array<RecentEntry>)
    requires max >= 1
    ensures fresh(copy)
    ensures copy[..] == SliceFrom(list[..], -(max as int))
  {
    var n := list.Length;
    var start := if n < max then 0 else n - max;
    copy := new RecentEntry[n - start];
    var j := 0;
    while j < n - start
      invariant 0 <= j <= n - start
      invariant copy[..j] == list[start..start + j]
    {
      copy[j] := list[start + j];
      j := j + 1;
    }
  }

  /** `Array.prototype.reverse`: swaps from both ends towards the middle. */
  method ReverseInPlace(a: array<RecentEntry>)
    modifies a
    ensures a[..] == Reversed(old(a[..]))
  {
    var m := a.Length;
    var i := 0;
    while i < m / 2
      invariant 0 <= i <= m / 2
      invariant forall k :: 0 <= k < i ==> a[k] == old(a[m - 1 - k])
      invariant forall k :: 0 <= k < i ==> a[m - 1 - k] == old(a[k])
      invariant forall k :: i <= k < m - i ==> a[k] == old(a[k])
    {
      a[i], a[m - 1 - i] := a[m - 1 - i], a[i];
      i := i + 1;
    }
    ghost var was := old(a[..]);
    ReversedLength(was);
    forall k | 0 <= k < m
      ensures a[k] == Reversed(was)[k]
    {
      ReversedAt(was, k);
    }
  }

  /** `setRecentUrls`: copy the tail with `slice`, reverse the copy in place, wrap it in an
      action. The input array is only read (there is no modifies clause). */
  method SetRecentUrls(recentURLs: array<RecentEntry>) returns (action: WatchAction)
    ensures action == SetRecentUrlsAction(NewestFirst(recentURLs[..], MAX_RECENT_URLS))
  {
    var reversedList := SliceLast(recentURLs, MAX_RECENT_URLS);
    ReverseInPlace(reversedList);
    action := SetRecentUrlsAction(reversedList[..]);
  }
}
