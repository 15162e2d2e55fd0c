/** The playback sessions the YouTube TOP drives. Their implementation is not
    part of this model: a controller is an object whose status snapshot is
    whatever the media backend last published, and which records, in order,
    every command the operator sends it. */
module StreamControl {

  /** The backend's lifecycle states. */
  datatype PlayerState = NothingSpecial | Opening | Buffering | Playing | Paused | Stopped | Ended | Error

  /** Times are in milliseconds, the buffer level in percent, the frame size in bytes. */
  datatype VideoInfo = VideoInfo(
    width: nat, height: nat,
    totalTime: nat, currentTime: nat,
    bufferLevel: real,
    frameSize: nat)

  datatype StreamStatus = StreamStatus(
    videoUrl: string,
    isVideoInfoReady: bool,
    videoInfo: VideoInfo,
    state: PlayerState,
    warningMessage: string,
    errorMessage: string,
    infoString: string)

  /** The status of a controller that has not been told to play anything. */
  const IdleStatus := StreamStatus("", false, VideoInfo(0, 0, 0, 0, 0.0, 0), NothingSpecial, "", "", "")

  /** A command sent to a controller. `Play` also registers the operator's
      frame callback, tagged with the controller itself. `SeekToStart(ms, total)`
      is a seek to the fraction ms / total, left unevaluated. */
  datatype Command =
    | Play(url: string)
    | Stop
    | Pause(paused: bool)
    | Seek(position: real)
    | SeekToStart(startMs: int, totalMs: nat)
    | SetPlaybackSpeed(speed: real)

  class StreamController {
    const name: string
    /** The snapshot the backend last published; only the backend changes it. */
    var status: StreamStatus
    /** Every command received, oldest first. */
    var commands: seq<Command>

    constructor (name: string)
      ensures this.name == name && status == IdleStatus && commands == []
    {
      this.name := name;
      status := IdleStatus;
      commands := [];
    }

    method Play(url: string)
      modifies this`commands
      ensures commands == old(commands) + [Command.Play(url)]
    {
      commands := commands + [Command.Play(url)];
    }

    method Stop()
      modifies this`commands
      ensures commands == old(commands) + [Command.Stop]
    {
      commands := commands + [Command.Stop];
    }

    method Pause(paused: bool)
      modifies this`commands
      ensures commands == old(commands) + [Command.Pause(paused)]
    {
      commands := commands + [Command.Pause(paused)];
    }

    method Seek(position: real)
      modifies this`commands
      ensures commands == old(commands) + [Command.Seek(position)]
    {
      commands := commands + [Command.Seek(position)];
    }

    method SeekToStart(startMs: int, totalMs: nat)
      modifies this`commands
      ensures commands == old(commands) + [Command.SeekToStart(startMs, totalMs)]
    {
      commands := commands + [Command.SeekToStart(startMs, totalMs)];
    }

    method SetPlaybackSpeed(speed: real)
      modifies this`commands
      ensures commands == old(commands) + [Command.SetPlaybackSpeed(speed)]
    {
      commands := commands + [Command.SetPlaybackSpeed(speed)];
    }

    /** The backend publishing a new snapshot. */
    method Publish(s: StreamStatus)
      modifies this`status
      ensures status == s
    {
      status := s;
    }
  }
}
