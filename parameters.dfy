/** The playback parameters of the YouTube TOP and their per-cycle refresh
    from the host inputs. Pause, loop and blackout are level-triggered: they
    follow the latest reading. Seek position, playback speed, start and end
    time (and the switch cue outside seamless mode) are edge-triggered: a
    change raises an "is new" flag that only the consumer lowers. */
module PlaybackParameters {
  import opened TouchInputs

  datatype Parameters = Parameters(
    currentUrl: string,
    isPaused: bool,
    isLooping: bool,
    blackout: bool,
    seamlessModeOn: bool,
    switchCue: bool,
    lastSwitchCueValue: real,
    lastSeekPosition: real,
    isNewSeekValue: bool,
    lastPlaybackSpeed: real,
    isNewPlaybackSpeed: bool,
    lastStartTimeSec: real,
    isNewStartTime: bool,
    lastEndTimeSec: real,
    isNewEndTime: bool)

  /** The parameters a new operator starts with: no URL, every flag down,
      every value zero. */
  const Initial := Parameters("", false, false, false, false, false, 0.0, 0.0, false, 0.0, false, 0.0, false, 0.0, false)

  /** updateParameters as a function of the previous parameters and the
      inputs of this cycle. */
  function Refresh(p: Parameters, arrays: InputArrays): (r: Parameters)
    // the URL follows a present string input, cleaned of line breaks
    ensures StringPresent(arrays, URL) ==> r.currentUrl == StripLineBreaks(arrays.stringInputs[Slot(URL).index].value)
    ensures !StringPresent(arrays, URL) ==> r.currentUrl == p.currentUrl
    // level-triggered switches follow the latest present reading
    ensures FloatPresent(arrays, InputName.Pause) ==> (r.isPaused <==> Channel(arrays, InputName.Pause) > 0.5)
    ensures !FloatPresent(arrays, InputName.Pause) ==> r.isPaused == p.isPaused
    ensures FloatPresent(arrays, Loop) ==> (r.isLooping <==> Channel(arrays, Loop) > 0.5)
    ensures !FloatPresent(arrays, Loop) ==> r.isLooping == p.isLooping
    ensures FloatPresent(arrays, Blackout) ==> (r.blackout <==> Channel(arrays, Blackout) > 0.5)
    ensures !FloatPresent(arrays, Blackout) ==> r.blackout == p.blackout
    // edge-triggered values: a flag is up afterwards iff it was up or its value changed
    ensures r.isNewSeekValue == (p.isNewSeekValue || r.lastSeekPosition != p.lastSeekPosition)
    ensures r.isNewPlaybackSpeed == (p.isNewPlaybackSpeed || r.lastPlaybackSpeed != p.lastPlaybackSpeed)
    ensures r.isNewStartTime == (p.isNewStartTime || r.lastStartTimeSec != p.lastStartTimeSec)
    ensures r.isNewEndTime == (p.isNewEndTime || r.lastEndTimeSec != p.lastEndTimeSec)
    // the stored values follow a present input and are kept otherwise
    ensures FloatPresent(arrays, SeekPosition) ==> r.lastSeekPosition == Channel(arrays, SeekPosition)
    ensures !FloatPresent(arrays, SeekPosition) ==> r.lastSeekPosition == p.lastSeekPosition
    ensures FloatPresent(arrays, PlaybackSpeed) ==> r.lastPlaybackSpeed == Channel(arrays, PlaybackSpeed)
    ensures !FloatPresent(arrays, PlaybackSpeed) ==> r.lastPlaybackSpeed == p.lastPlaybackSpeed
    ensures FloatPresent(arrays, StartTime) ==> r.lastStartTimeSec == Channel(arrays, StartTime)
    ensures !FloatPresent(arrays, StartTime) ==> r.lastStartTimeSec == p.lastStartTimeSec
    ensures FloatPresent(arrays, EndTime) ==> r.lastEndTimeSec == Channel(arrays, EndTime)
    ensures !FloatPresent(arrays, EndTime) ==> r.lastEndTimeSec == p.lastEndTimeSec
    // seamless mode is on unless a present "switch on cue" input says otherwise
    ensures r.seamlessModeOn == !(FloatPresent(arrays, SwitchOnCue) && Channel(arrays, SwitchOnCue) > 0.5)
    // in seamless mode the cue is forced down; otherwise it is edge-triggered like the values
    ensures r.seamlessModeOn ==> !r.switchCue && r.lastSwitchCueValue == p.lastSwitchCueValue
    ensures !r.seamlessModeOn ==> r.switchCue == (p.switchCue || r.lastSwitchCueValue != p.lastSwitchCueValue)
    ensures !r.seamlessModeOn && FloatPresent(arrays, SwitchCue) ==> r.lastSwitchCueValue == Channel(arrays, SwitchCue)
    ensures !r.seamlessModeOn && !FloatPresent(arrays, SwitchCue) ==> r.lastSwitchCueValue == p.lastSwitchCueValue
  {
    var url := GetStringValue(arrays, URL, p.currentUrl);
    var paused := GetBoolValue(arrays, InputName.Pause, p.isPaused);
    var looping := GetBoolValue(arrays, Loop, p.isLooping);
    var blackout := GetBoolValue(arrays, Blackout, p.blackout);
    var seek := UpdateFloatValue(arrays, SeekPosition, p.isNewSeekValue, p.lastSeekPosition);
    var speed := UpdateFloatValue(arrays, PlaybackSpeed, p.isNewPlaybackSpeed, p.lastPlaybackSpeed);
    var start := UpdateFloatValue(arrays, StartTime, p.isNewStartTime, p.lastStartTimeSec);
    var end := UpdateFloatValue(arrays, EndTime, p.isNewEndTime, p.lastEndTimeSec);
    var switchOnCue := GetBoolValue(arrays, SwitchOnCue, false);
    var seamless := !switchOnCue.value;
    var cue := if !seamless then UpdateFloatValue(arrays, SwitchCue, p.switchCue, p.lastSwitchCueValue)
               else FloatUpdate(false, false, p.lastSwitchCueValue);
    Parameters(url.value, paused.value, looping.value, blackout.value, seamless, cue.updated, cue.value,
               seek.value, seek.updated, speed.value, speed.updated, start.value, start.updated,
               end.value, end.updated)
  }

  /** A change is delivered once: when the consumer has lowered the flags,
      refreshing again from the same inputs does not raise them again. */
  lemma RefreshDeliversOnce(p: Parameters, arrays: InputArrays)
    ensures var q := Refresh(p, arrays).(isNewSeekValue := false, isNewPlaybackSpeed := false,
                                         isNewStartTime := false, isNewEndTime := false);
            var r := Refresh(q, arrays);
            !r.isNewSeekValue && !r.isNewPlaybackSpeed && !r.isNewStartTime && !r.isNewEndTime && r == q
  {
  }
}
