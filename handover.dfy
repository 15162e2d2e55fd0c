/** The decisions the YouTube TOP takes each cycle, as functions of the
    values they look at: the role assignment of the two controllers, when a
    swap is allowed, when the handover controller is ready, what status the
    device settles in, and how the start time is converted. */
module Handover {
  import opened TopStatus
  import opened StreamControl

  /** Which controller holds the active role and which the handover role. */
  datatype Roles<C> = Roles(active: C, handover: C)

  /** The two controllers are distinct and each holds exactly one role. */
  predicate RolesValid<C(==)>(r: Roles<C>, first: C, second: C)
  {
    first != second &&
    ((r.active == first && r.handover == second) || (r.active == second && r.handover == first))
  }

  /** swapControllers: the active role goes to the second controller when
      the first held it, and to the first otherwise; the other role goes to
      the other one. From any assignment the result is valid, and from a
      valid one it exchanges the roles. */
  function SwapRoles<C(==)>(r: Roles<C>, first: C, second: C): (s: Roles<C>)
    ensures first != second ==> RolesValid(s, first, second)
    ensures RolesValid(r, first, second) ==> s.active == r.handover && s.handover == r.active
  {
    if r.active == first then Roles(second, first) else Roles(first, second)
  }

  /** Two swaps restore a valid assignment. */
  lemma SwapTwiceRestores<C>(r: Roles<C>, first: C, second: C)
    requires RolesValid(r, first, second)
    ensures SwapRoles(SwapRoles(r, first, second), first, second) == r
  {
  }

  /** The swap permission as written: seamless mode, or a cue outside it.
      It amounts to "seamless mode or a cue". */
  function CanSwitch(seamlessModeOn: bool, switchCue: bool): (r: bool)
    ensures r == (seamlessModeOn || switchCue)
  {
    seamlessModeOn || (!seamlessModeOn && switchCue)
  }

  /** Whether the reported format follows the handover video when it becomes
      ready, as written: outside seamless mode, or in it with a cue. Since
      seamless mode forces the cue down, it amounts to "outside seamless mode". */
  function FormatFollowsHandover(seamlessModeOn: bool, switchCue: bool): (r: bool)
    ensures r == (!seamlessModeOn || switchCue)
    ensures (seamlessModeOn ==> !switchCue) ==> r == !seamlessModeOn
  {
    !seamlessModeOn || (seamlessModeOn && switchCue)
  }

  /** A load is needed when the desired URL is neither controller's. */
  predicate NeedLoad(url: string, activeStatus: StreamStatus, handoverStatus: StreamStatus)
  {
    url != activeStatus.videoUrl && url != handoverStatus.videoUrl
  }

  /** Whether a running device (re)starts the handover to `url`, as written.
      Once a load is needed the URL differs from the handover controller's,
      so the condition always holds then. */
  function RestartsHandover(hs: HandoverStatus, url: string, handoverUrl: string): (r: bool)
    ensures url != handoverUrl ==> r
    ensures !r ==> hs == Initiated && url == handoverUrl
  {
    hs != Initiated || (hs == Initiated && url != handoverUrl)
  }

  /** Once a load is needed, a running device always (re)starts the handover. */
  lemma LoadRestartsHandover(hs: HandoverStatus, url: string, activeStatus: StreamStatus, handoverStatus: StreamStatus)
    requires NeedLoad(url, activeStatus, handoverStatus)
    ensures RestartsHandover(hs, url, handoverStatus.videoUrl)
  {
  }

  /** The handover controller is ready to take over: a handover was
      initiated, its video info is known and its buffer is at least 90% full. */
  predicate BecomesReady(hs: HandoverStatus, handoverStatus: StreamStatus)
  {
    handoverStatus.isVideoInfoReady && hs == Initiated && handoverStatus.videoInfo.bufferLevel >= 90.0
  }

  /** The status ordinary playback settles in: ReadyToRun when paused,
      Running otherwise, but ReadyToRun again when the active stream has
      ended. It is never None, and it is Running exactly when the device is
      not paused and the stream has not ended. */
  function PlaybackStatus(isPaused: bool, state: PlayerState): (r: Status)
    ensures r != None
    ensures r == Running <==> !isPaused && state != Ended
  {
    var s := if isPaused then ReadyToRun else Running;
    if s == Running && state == Ended then ReadyToRun else s
  }

  /** A device that would run, whose stream ended, restarts it when looping:
      exactly an unpaused, ended, looping one, and it then settles in
      ReadyToRun. */
  function LoopRestart(isPaused: bool, state: PlayerState, isLooping: bool): (r: bool)
    ensures r <==> !isPaused && state == Ended && isLooping
    ensures r ==> PlaybackStatus(isPaused, state) == ReadyToRun
  {
    (if isPaused then ReadyToRun else Running) == Running && state == Ended && isLooping
  }

  /** The (int) conversion of a float: truncation toward zero. */
  function Truncate(x: real): (r: int)
    ensures 0.0 <= x ==> 0 <= r && r as real <= x < r as real + 1.0
    ensures x < 0.0 ==> r <= 0 && r as real - 1.0 < x <= r as real
  {
    if x >= 0.0 then x.Floor else -((-x).Floor)
  }

  /** The start time in milliseconds: the seconds are truncated to a whole
      number first and only then multiplied, so the result is always a whole
      number of seconds and never further from zero than the exact value. */
  function StartTimeMs(sec: real): (ms: int)
    ensures ms % 1000 == 0
    ensures 0.0 <= sec ==> 0 <= ms && ms as real <= sec * 1000.0 < ms as real + 1000.0
    ensures sec < 0.0 ==> ms <= 0 && ms as real - 1000.0 < sec * 1000.0 <= ms as real
  {
    Truncate(sec) * 1000
  }

  /** A start time of 1.5 s becomes 1000 ms, not 1500 ms. */
  lemma StartTimeDropsFraction()
    ensures StartTimeMs(1.5) == 1000 && Truncate(1.5 * 1000.0) == 1500
  {
  }
}
