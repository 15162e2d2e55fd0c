/** The YouTube TOP: the per-cycle coordinator that keeps two stream
    controllers, "main" and "spare", one in the active role (shown) and one in
    the handover role (pre-buffering the next video), and steps the device
    status and the handover status once per host cycle.

    The host calls GetGeneralInfo, GetOutputFormat and Execute once per
    cycle, in that order; the backend calls OnFrameRendering whenever a
    controller has decoded a frame and publishes controller statuses with
    StreamController.Publish. */
module YouTube {
  import opened TouchInputs
  import opened PlaybackParameters
  import opened StreamControl
  import opened TopStatus
  import opened Handover

  /** The output format reported to the host. */
  datatype OutputFormat = OutputFormat(width: int, height: int, aspectX: real, aspectY: real)

  /** The host's per-cycle flags. */
  datatype GeneralInfo = GeneralInfo(cookEveryFrame: bool, clearBuffers: bool)

  /** One frame handed to the renderer. */
  datatype Frame = Frame(width: nat, height: nat, pixels: seq<bv8>)

  /** The format of a video. */
  function FormatOf(info: VideoInfo): OutputFormat
  {
    OutputFormat(info.width, info.height, info.width as real, info.height as real)
  }

  /** `n` zero bytes. */
  function Zeros(n: nat): (z: seq<bv8>)
    ensures |z| == n && forall i | 0 <= i < n :: z[i] == 0
  {
    seq(n, _ => 0)
  }

  /** The frame the renderer receives for a video of the given format. */
  function FrameOf(info: VideoInfo, pixels: seq<bv8>): Frame
  {
    Frame(info.width, info.height, pixels)
  }

  /** The commands a cycle's one-shot seek and speed parameters produce. */
  function SeekCommands(p: Parameters): seq<Command>
  {
    if p.isNewSeekValue then [Command.Seek(p.lastSeekPosition)] else []
  }

  function SpeedCommands(p: Parameters): seq<Command>
  {
    if p.isNewPlaybackSpeed then [Command.SetPlaybackSpeed(p.lastPlaybackSpeed)] else []
  }


  /** The part of the operator's state a branch of execute starts from: the
      two statuses, the roles, the two snapshots as last read, the status the
      handover controller last published, each role's command log so far, and
      the frame bookkeeping. */
  datatype Snapshot = Snapshot(
    status: Status, handoverStatus: HandoverStatus,
    active: StreamController, handover: StreamController,
    activeSnapshot: StreamStatus, handoverSnapshot: StreamStatus, handoverStream: StreamStatus,
    activeCommands: seq<Command>, handoverCommands: seq<Command>,
    isFrameUpdated: bool, frameData: seq<bv8>, rendered: seq<Frame>)

  class YouTubeTop {
    const first: StreamController
    const second: StreamController
    var active: StreamController
    var handover: StreamController
    /** The controllers' snapshots as last read, once per cycle and on every swap. */
    var activeControllerStatus: StreamStatus
    var handoverControllerStatus: StreamStatus
    var status: Status
    var handoverStatus: HandoverStatus
    var parameters: Parameters
    /** The requested start time, in milliseconds. */
    var startTime: int
    var needAdjustStartTimeActive: bool
    var needAdjustStartTimeHandover: bool
    var isFrameUpdated: bool
    /** The shared frame buffer. */
    var frameData: seq<bv8>
    /** Every frame handed to the renderer, oldest first. */
    var rendered: seq<Frame>
    var executeCount: nat

    /** The roles are a bijection onto {first, second}, and seamless mode
        keeps the switch cue down. */
    ghost predicate Valid()
      reads this
    {
      RolesValid(Roles(active, handover), first, second) &&
      (parameters.seamlessModeOn ==> !parameters.switchCue)
    }

    /** The state a branch of execute starts from. */
    ghost function Snap(): (s: Snapshot)
      reads this, active, handover
      ensures s.active == active && s.handover == handover && s.status == status
    {
      Snapshot(status, handoverStatus, active, handover, activeControllerStatus, handoverControllerStatus, handover.status,
               active.commands, handover.commands, isFrameUpdated, frameData, rendered)
    }

    /** The outcome of execute's load branch for the desired URL `url` from
        the state `s`. The roles and the snapshots never change. An empty URL stops both
        controllers and renders a black frame; a Running device starts a
        handover on the handover controller only; any other device falls
        back to None and plays the URL on both controllers. */
    ghost predicate Loaded(url: string, s: Snapshot)
      reads this, s.active, s.handover
    {
      active == s.active && handover == s.handover &&
      activeControllerStatus == s.activeSnapshot && handoverControllerStatus == s.handoverSnapshot &&
      (url == "" ==>
         status == None && handoverStatus == NoHandover && !isFrameUpdated &&
         s.active.commands == s.activeCommands + [Command.Stop] &&
         s.handover.commands == s.handoverCommands + [Command.Stop] &&
         frameData == Zeros(activeControllerStatus.videoInfo.frameSize) &&
         rendered == s.rendered + [FrameOf(activeControllerStatus.videoInfo, frameData)]) &&
      (url != "" && s.status == Running ==>
         status == Running && handoverStatus == Initiated && isFrameUpdated == s.isFrameUpdated &&
         s.active.commands == s.activeCommands &&
         s.handover.commands == s.handoverCommands + [Command.Play(url)] &&
         frameData == s.frameData && rendered == s.rendered) &&
      (url != "" && s.status != Running ==>
         status == None && handoverStatus == s.handoverStatus && !isFrameUpdated &&
         s.active.commands == s.activeCommands + [Command.Play(url)] &&
         s.handover.commands == s.handoverCommands + [Command.Play(url)] &&
         frameData == s.frameData && rendered == s.rendered)
    }

    /** Whether execute's no-load branch swaps a Ready handover in: only a
        Ready one, and only in seamless mode or on a cue. */
    static predicate Swaps(p: Parameters, s: Snapshot): (r: bool)
      ensures r <==> s.handoverStatus == Ready && (p.seamlessModeOn || p.switchCue)
    {
      s.handoverStatus == Ready && CanSwitch(p.seamlessModeOn, p.switchCue)
    }

    /** The outcome of execute's no-load branch from the parameters `p`, the
        state `s` and the handover controller's start-time adjustment flag
        `adjust`. A Ready handover that seamless mode or a cue lets through is
        swapped in: the old active controller is stopped and re-armed with the
        URL, both snapshots are re-read, and the new active controller is the
        one played. A device past None (always the case after a swap) then
        follows the pause switch, sends the one-shot seek and speed, settles
        its status from the active stream's state, and restarts an ended
        stream by a second transition when looping, which swaps the roles
        (back), re-reads the snapshots and re-arms the handover adjustment. A
        device in None without a swap is left as it was. */
    ghost predicate Advanced(p: Parameters, s: Snapshot, adjust: bool)
      reads this, s.active, s.handover
    {
      var swap := Swaps(p, s);
      var state := if swap then s.handoverStream.state else s.activeSnapshot.state;
      var restart := LoopRestart(p.isPaused, state, p.isLooping);
      if !swap && s.status == None then
        status == None && handoverStatus == s.handoverStatus && parameters == p &&
        active == s.active && handover == s.handover &&
        s.active.commands == s.activeCommands && s.handover.commands == s.handoverCommands &&
        activeControllerStatus == s.activeSnapshot && handoverControllerStatus == s.handoverSnapshot &&
        needAdjustStartTimeHandover == adjust &&
        rendered == s.rendered && isFrameUpdated == s.isFrameUpdated && frameData == s.frameData
      else
        status == PlaybackStatus(p.isPaused, state) &&
        parameters == p.(isNewSeekValue := false, isNewPlaybackSpeed := false,
                         switchCue := p.switchCue && !swap && !restart) &&
        handoverStatus == (if swap || restart then NoHandover else s.handoverStatus) &&
        needAdjustStartTimeHandover == (adjust || restart) &&
        (if swap == restart then active == s.active && handover == s.handover
         else active == s.handover && handover == s.active) &&
        (if swap || restart then
           activeControllerStatus == active.status && handoverControllerStatus == handover.status
         else
           activeControllerStatus == s.activeSnapshot && handoverControllerStatus == s.handoverSnapshot) &&
        (if swap then
           // the swapped-out controller is stopped and re-armed, then treated as the handover one
           s.active.commands == s.activeCommands + [Command.Stop, Command.Play(p.currentUrl)] +
             SpeedCommands(p) + (if restart then [Command.Pause(p.isPaused)] else []) &&
           s.handover.commands == s.handoverCommands + [Command.Pause(p.isPaused)] + SeekCommands(p) +
             SpeedCommands(p) + (if restart then [Command.Stop, Command.Play(p.currentUrl)] else [])
         else
           s.active.commands == s.activeCommands + [Command.Pause(p.isPaused)] + SeekCommands(p) +
             SpeedCommands(p) + (if restart then [Command.Stop, Command.Play(p.currentUrl)] else []) &&
           s.handover.commands == s.handoverCommands + SpeedCommands(p) +
             (if restart then [Command.Pause(p.isPaused)] else [])) &&
        (status == Running && p.blackout ==> frameData == Zeros(activeControllerStatus.videoInfo.frameSize)) &&
        (!(status == Running && p.blackout) ==>
           if swap || restart then |frameData| == activeControllerStatus.videoInfo.frameSize
           else frameData == s.frameData) &&
        (status != Running ==> rendered == s.rendered && isFrameUpdated == s.isFrameUpdated) &&
        (status == Running && p.blackout ==>
           isFrameUpdated == s.isFrameUpdated &&
           rendered == s.rendered + [FrameOf(activeControllerStatus.videoInfo, Zeros(activeControllerStatus.videoInfo.frameSize))]) &&
        (status == Running && !p.blackout ==>
           !isFrameUpdated &&
           rendered == s.rendered + (if s.isFrameUpdated then [FrameOf(activeControllerStatus.videoInfo, frameData)] else []))
    }

    constructor ()
      ensures Valid()
      ensures fresh(first) && fresh(second)
      ensures first.name == "main" && second.name == "spare"
      ensures active == first && handover == second
      ensures status == None && handoverStatus == NoHandover && parameters == Initial
      ensures !needAdjustStartTimeActive && !needAdjustStartTimeHandover && !isFrameUpdated
      ensures executeCount == 0 && rendered == []
    {
      var main := new StreamController("main");
      var spare := new StreamController("spare");
      first, second := main, spare;
      active, handover := main, spare;
      activeControllerStatus, handoverControllerStatus := IdleStatus, IdleStatus;
      status, handoverStatus := None, NoHandover;
      parameters := Initial;
      startTime := 0;
      needAdjustStartTimeActive, needAdjustStartTimeHandover := false, false;
      isFrameUpdated := false;
      frameData := [];
      rendered := [];
      executeCount := 0;
    }

    /** getGeneralInfo: asks to be cooked every cycle, reads both controllers'
        snapshots, and keeps the output buffers once the device left None. */
    method GetGeneralInfo(info: GeneralInfo) returns (r: GeneralInfo)
      modifies this`activeControllerStatus, this`handoverControllerStatus
      ensures activeControllerStatus == active.status && handoverControllerStatus == handover.status
      ensures r.cookEveryFrame
      ensures r.clearBuffers == (status.Rank() <= None.Rank() && info.clearBuffers)
    {
      r := info.(cookEveryFrame := true);
      activeControllerStatus := active.status;
      handoverControllerStatus := handover.status;
      if status.Rank() > None.Rank() {
        r := r.(clearBuffers := false);
      }
    }

    /** initTexture, buffer part: a fresh buffer of the active video's frame
        size, its contents unspecified. */
    method InitTexture()
      modifies this`frameData
      ensures |frameData| == activeControllerStatus.videoInfo.frameSize
    {
      var size := activeControllerStatus.videoInfo.frameSize;
      assert |Zeros(size)| == size;
      var buffer: seq<bv8> :| |buffer| == size;
      frameData := buffer;
    }

    /** renderBlackFrame: zeroes a frame of the active video's size and hands it over. */
    method RenderBlackFrame()
      modifies this`frameData, this`rendered
      ensures frameData == Zeros(activeControllerStatus.videoInfo.frameSize)
      ensures rendered == old(rendered) + [FrameOf(activeControllerStatus.videoInfo, frameData)]
    {
      frameData := Zeros(activeControllerStatus.videoInfo.frameSize);
      rendered := rendered + [FrameOf(activeControllerStatus.videoInfo, frameData)];
    }

    /** onFrameRendering: a decoded frame is copied into the shared buffer,
        and marked as new, only when it comes from the controller that holds
        the active role and the device is Running; any other delivery is
        dropped. The copy reads a frame's worth of bytes of the delivery. */
    method OnFrameRendering(frame: seq<bv8>, tag: StreamController)
      requires tag == active && status == Running ==> activeControllerStatus.videoInfo.frameSize <= |frame|
      modifies this`frameData, this`isFrameUpdated
      ensures tag == active && status == Running ==>
                frameData == frame[..activeControllerStatus.videoInfo.frameSize] && isFrameUpdated
      ensures !(tag == active && status == Running) ==>
                frameData == old(frameData) && isFrameUpdated == old(isFrameUpdated)
    {
      if tag == active {
        if status == Running {
          frameData := frame[..activeControllerStatus.videoInfo.frameSize];
          isFrameUpdated := true;
        }
      }
    }

    /** swapControllers: exchanges the roles and reads both snapshots again. */
    method SwapControllers()
      requires Valid()
      modifies this`active, this`handover, this`activeControllerStatus, this`handoverControllerStatus
      ensures Valid()
      ensures Roles(active, handover) == SwapRoles(old(Roles(active, handover)), first, second)
      ensures active == old(handover) && handover == old(active)
      ensures activeControllerStatus == active.status && handoverControllerStatus == handover.status
    {
      if active == first {
        active := second;
        handover := first;
      } else {
        active := first;
        handover := second;
      }
      activeControllerStatus := active.status;
      handoverControllerStatus := handover.status;
    }

    /** performTransition: the handover controller takes over. The device
        waits in ReadyToRun, the handover and the cue are cleared, the
        previously active controller is stopped and, now in the handover
        role, told to pre-buffer the current URL again; the buffer is sized
        for the new active video. */
    method PerformTransition()
      requires Valid()
      modifies this`status, this`parameters, this`handoverStatus, this`active, this`handover,
               this`activeControllerStatus, this`handoverControllerStatus, this`frameData,
               first`commands, second`commands
      ensures Valid()
      ensures status == ReadyToRun && handoverStatus == NoHandover
      ensures parameters == old(parameters).(switchCue := false)
      ensures active == old(handover) && handover == old(active)
      ensures activeControllerStatus == active.status && handoverControllerStatus == handover.status
      ensures |frameData| == activeControllerStatus.videoInfo.frameSize
      ensures handover.commands == old(active.commands) + [Command.Stop, Command.Play(parameters.currentUrl)]
      ensures active.commands == old(handover.commands)
    {
      status := ReadyToRun;
      parameters := parameters.(switchCue := false);
      handoverStatus := NoHandover;
      active.Stop();
      SwapControllers();
      InitTexture();
      handover.Play(parameters.currentUrl);
    }

    /** getOutputFormat: reports the active video's format once it is known
        (moving the device from None to ReadyToRun and sizing the buffer),
        applies a pending start-time seek to the active controller, keeps the
        handover controller paused once its video is known and applies its
        pending start-time seek, and declares the handover Ready. */
    method GetOutputFormat(format: OutputFormat) returns (r: OutputFormat, useFormat: bool)
      requires Valid()
      modifies this`status, this`handoverStatus, this`needAdjustStartTimeActive,
               this`needAdjustStartTimeHandover, this`frameData, first`commands, second`commands
      ensures Valid() && useFormat
      // the reported format: the handover video's when it becomes ready outside seamless mode,
      // else the active video's once known, else the host's
      ensures r == if BecomesReady(old(handoverStatus), handoverControllerStatus) && !parameters.seamlessModeOn
                   then FormatOf(handoverControllerStatus.videoInfo)
                   else if activeControllerStatus.isVideoInfoReady then FormatOf(activeControllerStatus.videoInfo)
                   else format
      // the device leaves None exactly when the active video becomes known, with a buffer of its frame size
      ensures status == if old(status) == None && activeControllerStatus.isVideoInfoReady then ReadyToRun else old(status)
      ensures old(status) == None && activeControllerStatus.isVideoInfoReady ==>
                |frameData| == activeControllerStatus.videoInfo.frameSize
      ensures !(old(status) == None && activeControllerStatus.isVideoInfoReady) ==> frameData == old(frameData)
      // Ready is entered only from Initiated, only with a known handover video buffered to at least 90%
      ensures handoverStatus != old(handoverStatus) <==> BecomesReady(old(handoverStatus), handoverControllerStatus)
      ensures handoverStatus != old(handoverStatus) ==> handoverStatus == Ready
      // the active adjustment is dropped whenever the active video is known;
      // the handover one only when its seek is issued
      ensures needAdjustStartTimeActive == (old(needAdjustStartTimeActive) && !activeControllerStatus.isVideoInfoReady)
      ensures needAdjustStartTimeHandover ==
                (old(needAdjustStartTimeHandover) &&
                 !(handoverControllerStatus.isVideoInfoReady && startTime < handoverControllerStatus.videoInfo.totalTime))
      ensures active.commands == old(active.commands) +
                (if activeControllerStatus.isVideoInfoReady && old(needAdjustStartTimeActive) &&
                    startTime < activeControllerStatus.videoInfo.totalTime
                 then [Command.SeekToStart(startTime, activeControllerStatus.videoInfo.totalTime)] else [])
      ensures handover.commands == old(handover.commands) +
                (if handoverControllerStatus.isVideoInfoReady
                 then [Command.Pause(true)] +
                      (if old(needAdjustStartTimeHandover) && startTime < handoverControllerStatus.videoInfo.totalTime
                       then [Command.SeekToStart(startTime, handoverControllerStatus.videoInfo.totalTime)] else [])
                 else [])
    {
      r := ActiveFormat(format);
      r := HandoverFormat(r);
      useFormat := true;
    }

    /** getOutputFormat, active part: once the active video is known, its
        format is reported, the device leaves None with a buffer of its frame
        size, and a pending start-time seek is issued when it lies within the
        video; the adjustment is dropped either way. */
    method ActiveFormat(format: OutputFormat) returns (r: OutputFormat)
      modifies this`status, this`needAdjustStartTimeActive, this`frameData, active`commands
      ensures r == if activeControllerStatus.isVideoInfoReady then FormatOf(activeControllerStatus.videoInfo) else format
      ensures status == if old(status) == None && activeControllerStatus.isVideoInfoReady then ReadyToRun else old(status)
      ensures old(status) == None && activeControllerStatus.isVideoInfoReady ==>
                |frameData| == activeControllerStatus.videoInfo.frameSize
      ensures !(old(status) == None && activeControllerStatus.isVideoInfoReady) ==> frameData == old(frameData)
      ensures needAdjustStartTimeActive == (old(needAdjustStartTimeActive) && !activeControllerStatus.isVideoInfoReady)
      ensures active.commands == old(active.commands) +
                (if activeControllerStatus.isVideoInfoReady && old(needAdjustStartTimeActive) &&
                    startTime < activeControllerStatus.videoInfo.totalTime
                 then [Command.SeekToStart(startTime, activeControllerStatus.videoInfo.totalTime)] else [])
    {
      r := format;
      if activeControllerStatus.isVideoInfoReady {
        r := FormatOf(activeControllerStatus.videoInfo);
        if status == None {
          InitTexture();
          status := ReadyToRun;
        }
        if needAdjustStartTimeActive && startTime < activeControllerStatus.videoInfo.totalTime {
          active.SeekToStart(startTime, activeControllerStatus.videoInfo.totalTime);
        }
        needAdjustStartTimeActive := false;
      }
    }

    /** getOutputFormat, handover part: once the handover video is known, the
        handover controller is kept paused and its pending start-time seek is
        issued when it lies within the video; a handover that was initiated
        becomes Ready once its buffer is at least 90% full, and then, outside
        seamless mode, the handover video's format is reported. */
    method HandoverFormat(format: OutputFormat) returns (r: OutputFormat)
      modifies this`handoverStatus, this`needAdjustStartTimeHandover, handover`commands
      ensures r == if BecomesReady(old(handoverStatus), handoverControllerStatus) &&
                      FormatFollowsHandover(parameters.seamlessModeOn, parameters.switchCue)
                   then FormatOf(handoverControllerStatus.videoInfo) else format
      ensures handoverStatus == if BecomesReady(old(handoverStatus), handoverControllerStatus) then Ready else old(handoverStatus)
      ensures needAdjustStartTimeHandover ==
                (old(needAdjustStartTimeHandover) &&
                 !(handoverControllerStatus.isVideoInfoReady && startTime < handoverControllerStatus.videoInfo.totalTime))
      ensures handover.commands == old(handover.commands) +
                (if handoverControllerStatus.isVideoInfoReady
                 then [Command.Pause(true)] +
                      (if old(needAdjustStartTimeHandover) && startTime < handoverControllerStatus.videoInfo.totalTime
                       then [Command.SeekToStart(startTime, handoverControllerStatus.videoInfo.totalTime)] else [])
                 else [])
    {
      r := format;
      if handoverControllerStatus.isVideoInfoReady {
        handover.Pause(true);
        if needAdjustStartTimeHandover && startTime < handoverControllerStatus.videoInfo.totalTime {
          needAdjustStartTimeHandover := false;
          handover.SeekToStart(startTime, handoverControllerStatus.videoInfo.totalTime);
        }
        if handoverStatus == Initiated && handoverControllerStatus.videoInfo.bufferLevel >= 90.0 {
          handoverStatus := Ready;
          if FormatFollowsHandover(parameters.seamlessModeOn, parameters.switchCue) {
            r := FormatOf(handoverControllerStatus.videoInfo);
          }
        }
      }
    }

    /** updateParameters: refreshes every parameter from this cycle's inputs. */
    method UpdateParameters(arrays: InputArrays)
      requires Valid()
      modifies this`parameters
      ensures Valid()
      ensures parameters == Refresh(old(parameters), arrays) && Snap() == old(Snap())
    {
      parameters := Refresh(parameters, arrays);
    }

    /** The render step of a Running cycle: a black frame under blackout;
        otherwise the buffer, when a new frame arrived, and the arrival mark
        is consumed. */
    method RenderFrame()
      modifies this`frameData, this`rendered, this`isFrameUpdated
      ensures parameters.blackout ==>
                frameData == Zeros(activeControllerStatus.videoInfo.frameSize) &&
                rendered == old(rendered) + [FrameOf(activeControllerStatus.videoInfo, frameData)] &&
                isFrameUpdated == old(isFrameUpdated)
      ensures !parameters.blackout ==>
                frameData == old(frameData) && !isFrameUpdated &&
                rendered == old(rendered) +
                  (if old(isFrameUpdated) then [FrameOf(activeControllerStatus.videoInfo, frameData)] else [])
    {
      if parameters.blackout {
        RenderBlackFrame();
      } else {
        if isFrameUpdated {
          isFrameUpdated := false;
          rendered := rendered + [FrameOf(activeControllerStatus.videoInfo, frameData)];
        }
      }
    }

    /** The load branch of execute, taken when the desired URL is neither
        controller's. An empty URL stops everything and blacks the output; a
        Running device starts a handover on the handover controller only;
        otherwise both controllers load the URL from scratch. */
    method Load()
      requires Valid()
      requires NeedLoad(parameters.currentUrl, activeControllerStatus, handoverControllerStatus)
      modifies this`status, this`handoverStatus, this`isFrameUpdated, this`frameData, this`rendered,
               first`commands, second`commands
      ensures Valid()
      ensures Loaded(parameters.currentUrl, old(Snap()))
    {
      if parameters.currentUrl == "" {
        status := None;
        handoverStatus := NoHandover;
        isFrameUpdated := false;
        active.Stop();
        handover.Stop();
        RenderBlackFrame();
      } else {
        if status == Running {
          if RestartsHandover(handoverStatus, parameters.currentUrl, handoverControllerStatus.videoUrl) {
            handoverStatus := Initiated;
            handover.Play(parameters.currentUrl);
          }
        } else {
          status := None;
          isFrameUpdated := false;
          active.Play(parameters.currentUrl);
          handover.Play(parameters.currentUrl);
        }
      }
    }

    /** Ordinary playback, for a device past None: applies pause, one-shot
        seek and speed, settles the status, restarts an ended stream through
        a transition when looping, and renders while Running. */
    method Playback()
      requires Valid() && status != None
      modifies this`status, this`handoverStatus, this`parameters, this`active, this`handover,
               this`activeControllerStatus, this`handoverControllerStatus, this`frameData,
               this`isFrameUpdated, this`needAdjustStartTimeHandover, this`rendered,
               first`commands, second`commands
      ensures Valid()
      ensures status == PlaybackStatus(old(parameters).isPaused, old(activeControllerStatus).state)
      ensures var p := old(parameters);
              parameters == p.(isNewSeekValue := false, isNewPlaybackSpeed := false,
                               switchCue := p.switchCue && !LoopRestart(p.isPaused, old(activeControllerStatus).state, p.isLooping))
      // a looping restart is a transition, and re-arms the handover start-time adjustment
      ensures LoopRestart(old(parameters).isPaused, old(activeControllerStatus).state, old(parameters).isLooping) ==>
                active == old(handover) && handover == old(active) &&
                handoverStatus == NoHandover && needAdjustStartTimeHandover &&
                activeControllerStatus == active.status && handoverControllerStatus == handover.status &&
                |frameData| == activeControllerStatus.videoInfo.frameSize &&
                isFrameUpdated == old(isFrameUpdated) && rendered == old(rendered)
      ensures !LoopRestart(old(parameters).isPaused, old(activeControllerStatus).state, old(parameters).isLooping) ==>
                active == old(active) && handover == old(handover) && handoverStatus == old(handoverStatus) &&
                needAdjustStartTimeHandover == old(needAdjustStartTimeHandover) &&
                activeControllerStatus == old(activeControllerStatus) &&
                handoverControllerStatus == old(handoverControllerStatus)
      ensures var p := old(parameters);
              var restart := LoopRestart(p.isPaused, old(activeControllerStatus).state, p.isLooping);
              old(active).commands == old(active.commands) + [Command.Pause(p.isPaused)] + SeekCommands(p) +
                SpeedCommands(p) + (if restart then [Command.Stop, Command.Play(p.currentUrl)] else []) &&
              old(handover).commands == old(handover.commands) + SpeedCommands(p) +
                (if restart then [Command.Pause(p.isPaused)] else [])
      // frames reach the renderer only while Running
      ensures status != Running ==> rendered == old(rendered) && isFrameUpdated == old(isFrameUpdated)
      ensures status != Running && !LoopRestart(old(parameters).isPaused, old(activeControllerStatus).state, old(parameters).isLooping) ==>
                frameData == old(frameData)
      ensures status == Running && parameters.blackout ==>
                frameData == Zeros(activeControllerStatus.videoInfo.frameSize) &&
                rendered == old(rendered) + [FrameOf(activeControllerStatus.videoInfo, frameData)] &&
                isFrameUpdated == old(isFrameUpdated)
      ensures status == Running && !parameters.blackout ==>
                frameData == old(frameData) && !isFrameUpdated &&
                rendered == old(rendered) +
                  (if old(isFrameUpdated) then [FrameOf(activeControllerStatus.videoInfo, frameData)] else [])
    {
      SendPlaybackCommands();
      SettleAndRender();
    }

    /** The second half of ordinary playback: the status settles, an ended
        stream is restarted when looping, and a Running device renders. */
    method SettleAndRender()
      requires Valid()
      modifies this`status, this`handoverStatus, this`parameters, this`active, this`handover,
               this`activeControllerStatus, this`handoverControllerStatus, this`frameData,
               this`isFrameUpdated, this`needAdjustStartTimeHandover, this`rendered,
               first`commands, second`commands
      ensures Valid()
      ensures status == PlaybackStatus(old(parameters).isPaused, old(activeControllerStatus).state)
      ensures LoopRestart(old(parameters).isPaused, old(activeControllerStatus).state, old(parameters).isLooping) ==>
                parameters == old(parameters).(switchCue := false) &&
                active == old(handover) && handover == old(active) &&
                handoverStatus == NoHandover && needAdjustStartTimeHandover &&
                activeControllerStatus == active.status && handoverControllerStatus == handover.status &&
                |frameData| == activeControllerStatus.videoInfo.frameSize &&
                isFrameUpdated == old(isFrameUpdated) && rendered == old(rendered) &&
                handover.commands == old(active.commands) + [Command.Stop, Command.Play(parameters.currentUrl)] &&
                active.commands == old(handover.commands) + [Command.Pause(parameters.isPaused)]
      ensures !LoopRestart(old(parameters).isPaused, old(activeControllerStatus).state, old(parameters).isLooping) ==>
                parameters == old(parameters) &&
                active == old(active) && handover == old(handover) && handoverStatus == old(handoverStatus) &&
                needAdjustStartTimeHandover == old(needAdjustStartTimeHandover) &&
                activeControllerStatus == old(activeControllerStatus) &&
                handoverControllerStatus == old(handoverControllerStatus) &&
                active.commands == old(active.commands) && handover.commands == old(handover.commands)
      ensures status != Running ==> rendered == old(rendered) && isFrameUpdated == old(isFrameUpdated)
      ensures status != Running && !LoopRestart(old(parameters).isPaused, old(activeControllerStatus).state, old(parameters).isLooping) ==>
                frameData == old(frameData)
      ensures status == Running && parameters.blackout ==>
                frameData == Zeros(activeControllerStatus.videoInfo.frameSize) &&
                rendered == old(rendered) + [FrameOf(activeControllerStatus.videoInfo, frameData)] &&
                isFrameUpdated == old(isFrameUpdated)
      ensures status == Running && !parameters.blackout ==>
                frameData == old(frameData) && !isFrameUpdated &&
                rendered == old(rendered) +
                  (if old(isFrameUpdated) then [FrameOf(activeControllerStatus.videoInfo, frameData)] else [])
    {
      SettleStatus();
      if status == Running {
        RenderFrame();
      }
    }

    /** The commands of ordinary playback: the active controller follows the
        pause switch, and a new seek position or speed is sent once (the
        speed to both controllers), its flag lowered. */
    method SendPlaybackCommands()
      requires Valid()
      modifies this`parameters, first`commands, second`commands
      ensures Valid()
      ensures parameters == old(parameters).(isNewSeekValue := false, isNewPlaybackSpeed := false)
      ensures active.commands == old(active.commands) + [Command.Pause(parameters.isPaused)] +
                SeekCommands(old(parameters)) + SpeedCommands(old(parameters))
      ensures handover.commands == old(handover.commands) + SpeedCommands(old(parameters))
    {
      var p := parameters;
      active.Pause(p.isPaused);
      if p.isNewSeekValue {
        active.Seek(p.lastSeekPosition);
      }
      if p.isNewPlaybackSpeed {
        active.SetPlaybackSpeed(p.lastPlaybackSpeed);
        handover.SetPlaybackSpeed(p.lastPlaybackSpeed);
      }
      // the consumed flags are lowered
      parameters := p.(isNewSeekValue := false, isNewPlaybackSpeed := false);
    }

    /** The status ordinary playback settles in. An ended stream leaves the
        device ReadyToRun; when looping, a transition restarts the current
        URL, re-arms the handover start-time adjustment and applies the pause
        switch to the new active controller. */
    method SettleStatus()
      requires Valid()
      modifies this`status, this`handoverStatus, this`parameters, this`active, this`handover,
               this`activeControllerStatus, this`handoverControllerStatus, this`frameData,
               this`needAdjustStartTimeHandover, first`commands, second`commands
      ensures Valid()
      ensures status == PlaybackStatus(old(parameters).isPaused, old(activeControllerStatus).state)
      ensures LoopRestart(old(parameters).isPaused, old(activeControllerStatus).state, old(parameters).isLooping) ==>
                parameters == old(parameters).(switchCue := false) &&
                active == old(handover) && handover == old(active) &&
                handoverStatus == NoHandover && needAdjustStartTimeHandover &&
                activeControllerStatus == active.status && handoverControllerStatus == handover.status &&
                |frameData| == activeControllerStatus.videoInfo.frameSize &&
                handover.commands == old(active.commands) + [Command.Stop, Command.Play(parameters.currentUrl)] &&
                active.commands == old(handover.commands) + [Command.Pause(parameters.isPaused)]
      ensures !LoopRestart(old(parameters).isPaused, old(activeControllerStatus).state, old(parameters).isLooping) ==>
                parameters == old(parameters) &&
                active == old(active) && handover == old(handover) && handoverStatus == old(handoverStatus) &&
                needAdjustStartTimeHandover == old(needAdjustStartTimeHandover) &&
                activeControllerStatus == old(activeControllerStatus) &&
                handoverControllerStatus == old(handoverControllerStatus) && frameData == old(frameData) &&
                active.commands == old(active.commands) && handover.commands == old(handover.commands)
    {
      status := if parameters.isPaused then ReadyToRun else Running;
      if status == Running {
        if activeControllerStatus.state == Ended {
          status := ReadyToRun;
          if parameters.isLooping {
            PerformTransition();
            needAdjustStartTimeHandover := true;
            active.Pause(parameters.isPaused);
          }
        }
      }
    }

    /** The no-load branch of execute: a Ready handover is swapped in when
        seamless mode or a cue allows it; then a device past None plays on. */
    method Advance()
      requires Valid()
      modifies this`status, this`handoverStatus, this`parameters, this`active, this`handover,
               this`activeControllerStatus, this`handoverControllerStatus, this`frameData,
               this`isFrameUpdated, this`needAdjustStartTimeHandover, this`rendered,
               first`commands, second`commands
      ensures Valid()
      ensures Advanced(old(parameters), old(Snap()), old(needAdjustStartTimeHandover))
      ensures handoverStatus == Ready ==> old(handoverStatus) == Ready
    {
      var canSwitch := CanSwitch(parameters.seamlessModeOn, parameters.switchCue);
      if handoverStatus == Ready && canSwitch {
        SwapAndPlay();
      } else if status.Rank() > None.Rank() {
        PlayOn();
      }
    }

    /** A permitted swap of a Ready handover, then ordinary playback: the
        transition leaves the device in ReadyToRun, past None. */
    method SwapAndPlay()
      requires Valid() && handoverStatus == Ready && CanSwitch(parameters.seamlessModeOn, parameters.switchCue)
      modifies this`status, this`handoverStatus, this`parameters, this`active, this`handover,
               this`activeControllerStatus, this`handoverControllerStatus, this`frameData,
               this`isFrameUpdated, this`needAdjustStartTimeHandover, this`rendered,
               first`commands, second`commands
      ensures Valid()
      ensures Advanced(old(parameters), old(Snap()), old(needAdjustStartTimeHandover))
    {
      ghost var before := Snap();
      ghost var adjust := needAdjustStartTimeHandover;
      var p := parameters;
      PerformTransition();
      ghost var between := Snap();
      PlayOn();
      SwapThenPlayback(p, before, between, adjust);
    }

    /** Ordinary playback when no swap is pending, as an outcome of execute's
        no-load branch. */
    method PlayOn()
      requires Valid() && status != None
      requires !(handoverStatus == Ready && CanSwitch(parameters.seamlessModeOn, parameters.switchCue))
      modifies this`status, this`handoverStatus, this`parameters, this`active, this`handover,
               this`activeControllerStatus, this`handoverControllerStatus, this`frameData,
               this`isFrameUpdated, this`needAdjustStartTimeHandover, this`rendered,
               first`commands, second`commands
      ensures Valid()
      ensures Advanced(old(parameters), old(Snap()), old(needAdjustStartTimeHandover))
    {
      Playback();
    }

    /** A swap followed by ordinary playback: playback's outcome from the
        state the transition leaves is the swap outcome from the state
        before it. */
    lemma SwapThenPlayback(p: Parameters, s0: Snapshot, s1: Snapshot, adjust: bool)
      requires Swaps(p, s0) && s0.active != s0.handover && s0.handoverStream == s0.handover.status
      requires s1 == Snapshot(ReadyToRun, NoHandover, s0.handover, s0.active,
                              s0.handover.status, s0.active.status, s0.active.status,
                              s0.handoverCommands, s0.activeCommands + [Command.Stop, Command.Play(p.currentUrl)],
                              s0.isFrameUpdated, s1.frameData, s0.rendered)
      requires |s1.frameData| == s1.activeSnapshot.videoInfo.frameSize
      requires Advanced(p.(switchCue := false), s1, adjust)
      ensures Advanced(p, s0, adjust)
    {
      if LoopRestart(p.isPaused, s0.handoverStream.state, p.isLooping) {
        SwapThenRestart(p, s0, s1, adjust);
      } else {
        SwapThenPlayOn(p, s0, s1, adjust);
      }
    }

    /** SwapThenPlayback when the swapped-in stream has ended and loops. */
    lemma SwapThenRestart(p: Parameters, s0: Snapshot, s1: Snapshot, adjust: bool)
      requires Swaps(p, s0) && s0.active != s0.handover && s0.handoverStream == s0.handover.status
      requires LoopRestart(p.isPaused, s0.handoverStream.state, p.isLooping)
      requires s1 == Snapshot(ReadyToRun, NoHandover, s0.handover, s0.active,
                              s0.handover.status, s0.active.status, s0.active.status,
                              s0.handoverCommands, s0.activeCommands + [Command.Stop, Command.Play(p.currentUrl)],
                              s0.isFrameUpdated, s1.frameData, s0.rendered)
      requires Advanced(p.(switchCue := false), s1, adjust)
      ensures Advanced(p, s0, adjust)
    {
      // the second state is past None with no handover, so it plays on
      assert !Swaps(p.(switchCue := false), s1);
    }

    /** SwapThenPlayback when the swapped-in stream plays on. */
    lemma SwapThenPlayOn(p: Parameters, s0: Snapshot, s1: Snapshot, adjust: bool)
      requires Swaps(p, s0) && s0.active != s0.handover && s0.handoverStream == s0.handover.status
      requires !LoopRestart(p.isPaused, s0.handoverStream.state, p.isLooping)
      requires s1 == Snapshot(ReadyToRun, NoHandover, s0.handover, s0.active,
                              s0.handover.status, s0.active.status, s0.active.status,
                              s0.handoverCommands, s0.activeCommands + [Command.Stop, Command.Play(p.currentUrl)],
                              s0.isFrameUpdated, s1.frameData, s0.rendered)
      requires |s1.frameData| == s1.activeSnapshot.videoInfo.frameSize
      requires Advanced(p.(switchCue := false), s1, adjust)
      ensures Advanced(p, s0, adjust)
    {
      assert !Swaps(p.(switchCue := false), s1);
    }

    /** The start-time bookkeeping of a cycle from the parameters `p` as
        refreshed, the active snapshot, and the start time and active
        adjustment flag before (`start0`, `adjust0`) and after (`start`,
        `adjust`): a new start time is converted to milliseconds and marks the
        active controller exactly when it lies ahead of the current position;
        without one both are kept. */
    static predicate StartTimeConsumed(p: Parameters, activeStatus: StreamStatus, start0: int, adjust0: bool,
                                       start: int, adjust: bool)
    {
      if p.isNewStartTime then
        start == StartTimeMs(p.lastStartTimeSec) && adjust == (start > activeStatus.videoInfo.currentTime)
      else
        start == start0 && adjust == adjust0
    }

    /** A new start time is consumed once: its flag is lowered, it is
        converted to milliseconds, the active controller is marked for a seek
        when the start lies ahead of its current position, and the handover
        controller is marked unconditionally. */
    method ConsumeStartTime()
      requires Valid()
      modifies this`parameters, this`startTime, this`needAdjustStartTimeActive, this`needAdjustStartTimeHandover
      ensures Valid()
      ensures parameters == old(parameters).(isNewStartTime := false) && Snap() == old(Snap())
      ensures StartTimeConsumed(old(parameters), old(activeControllerStatus), old(startTime),
                                old(needAdjustStartTimeActive), startTime, needAdjustStartTimeActive)
      ensures needAdjustStartTimeHandover == (old(parameters).isNewStartTime || old(needAdjustStartTimeHandover))
    {
      if parameters.isNewStartTime {
        parameters := parameters.(isNewStartTime := false);
        startTime := 0;
        startTime := StartTimeMs(parameters.lastStartTimeSec);
        needAdjustStartTimeActive := startTime > activeControllerStatus.videoInfo.currentTime;
        needAdjustStartTimeHandover := true;
      }
    }

    /** execute after the refresh: whether a load is needed is decided
        first, then a new start time is consumed, and then the device either
        loads or plays on. */
    method Respond()
      requires Valid()
      modifies this`status, this`handoverStatus, this`parameters, this`active, this`handover,
               this`activeControllerStatus, this`handoverControllerStatus, this`frameData,
               this`isFrameUpdated, this`rendered, this`startTime, this`needAdjustStartTimeActive,
               this`needAdjustStartTimeHandover, first`commands, second`commands
      ensures Valid()
      ensures StartTimeConsumed(old(parameters), old(activeControllerStatus), old(startTime),
                                old(needAdjustStartTimeActive), startTime, needAdjustStartTimeActive)
      ensures var p := old(parameters);
              NeedLoad(p.currentUrl, old(activeControllerStatus), old(handoverControllerStatus)) ==>
                Loaded(p.currentUrl, old(Snap())) && parameters == p.(isNewStartTime := false) &&
                needAdjustStartTimeHandover == (p.isNewStartTime || old(needAdjustStartTimeHandover))
      ensures var p := old(parameters);
              !NeedLoad(p.currentUrl, old(activeControllerStatus), old(handoverControllerStatus)) ==>
                Advanced(p.(isNewStartTime := false), old(Snap()), p.isNewStartTime || old(needAdjustStartTimeHandover))
      // execute never declares the handover Ready
      ensures handoverStatus == Ready ==> old(handoverStatus) == Ready
    {
      var needLoad := NeedLoad(parameters.currentUrl, activeControllerStatus, handoverControllerStatus);
      if needLoad {
        ConsumeThenLoad();
      } else {
        ConsumeThenAdvance();
      }
    }

    /** The load branch of execute, after a new start time is consumed. */
    method ConsumeThenLoad()
      requires Valid()
      requires NeedLoad(parameters.currentUrl, activeControllerStatus, handoverControllerStatus)
      modifies this`status, this`handoverStatus, this`parameters, this`active, this`handover,
               this`activeControllerStatus, this`handoverControllerStatus, this`frameData,
               this`isFrameUpdated, this`rendered, this`startTime, this`needAdjustStartTimeActive,
               this`needAdjustStartTimeHandover, first`commands, second`commands
      ensures Valid()
      ensures StartTimeConsumed(old(parameters), old(activeControllerStatus), old(startTime),
                                old(needAdjustStartTimeActive), startTime, needAdjustStartTimeActive)
      ensures Loaded(old(parameters).currentUrl, old(Snap())) && parameters == old(parameters).(isNewStartTime := false)
      ensures needAdjustStartTimeHandover == (old(parameters).isNewStartTime || old(needAdjustStartTimeHandover))
      ensures handoverStatus == Ready ==> old(handoverStatus) == Ready
    {
      ConsumeStartTime();
      Load();
    }

    /** The no-load branch of execute, after a new start time is consumed. */
    method ConsumeThenAdvance()
      requires Valid()
      modifies this`status, this`handoverStatus, this`parameters, this`active, this`handover,
               this`activeControllerStatus, this`handoverControllerStatus, this`frameData,
               this`isFrameUpdated, this`rendered, this`startTime, this`needAdjustStartTimeActive,
               this`needAdjustStartTimeHandover, first`commands, second`commands
      ensures Valid()
      ensures StartTimeConsumed(old(parameters), old(activeControllerStatus), old(startTime),
                                old(needAdjustStartTimeActive), startTime, needAdjustStartTimeActive)
      ensures Advanced(old(parameters).(isNewStartTime := false), old(Snap()),
                       old(parameters).isNewStartTime || old(needAdjustStartTimeHandover))
      ensures handoverStatus == Ready ==> old(handoverStatus) == Ready
    {
      ConsumeStartTime();
      Advance();
    }

    /** execute: one host cycle. The parameters are refreshed from the inputs,
        the cycle is counted, and the device responds to the new parameters. */
    method Execute(arrays: InputArrays)
      requires Valid()
      modifies this, first`commands, second`commands
      ensures Valid()
      ensures executeCount == old(executeCount) + 1
      // the refreshed parameters decide the branch, with a new start time consumed
      ensures StartTimeConsumed(Refresh(old(parameters), arrays), old(activeControllerStatus), old(startTime),
                                old(needAdjustStartTimeActive), startTime, needAdjustStartTimeActive)
      ensures var p := Refresh(old(parameters), arrays);
              NeedLoad(p.currentUrl, old(activeControllerStatus), old(handoverControllerStatus)) ==>
                Loaded(p.currentUrl, old(Snap())) && parameters == p.(isNewStartTime := false) &&
                needAdjustStartTimeHandover == (p.isNewStartTime || old(needAdjustStartTimeHandover))
      ensures var p := Refresh(old(parameters), arrays);
              !NeedLoad(p.currentUrl, old(activeControllerStatus), old(handoverControllerStatus)) ==>
                Advanced(p.(isNewStartTime := false), old(Snap()), p.isNewStartTime || old(needAdjustStartTimeHandover))
      // execute never declares the handover Ready
      ensures handoverStatus == Ready ==> old(handoverStatus) == Ready
    {
      UpdateParameters(arrays);
      executeCount := executeCount + 1;
      // the refresh leaves the branch's starting state alone
      assert Snap() == old(Snap());
      Respond();
    }
  }
}
