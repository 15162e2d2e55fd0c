/** The two state variables of the YouTube TOP, their display strings, and
    the row names of its information table. */
module TopStatus {

  /** The device status; the source compares it by its position in this order. */
  datatype Status = None | ReadyToRun | Running {
    function Rank(): nat
    {
      match this
      case None => 0
      case ReadyToRun => 1
      case Running => 2
    }
  }

  datatype HandoverStatus = NoHandover | Initiated | Ready

  /** getStatusString: every status has its own name; the "N/A" fallback is
      never produced. */
  function StatusString(s: Status): (r: string)
    ensures r != "N/A" && |r| > 0
  {
    match s
    case None => "None"
    case ReadyToRun => "ReadyToRun"
    case Running => "Running"
  }

  /** Different statuses are displayed differently. */
  lemma StatusStringInjective(a: Status, b: Status)
    ensures StatusString(a) == StatusString(b) ==> a == b
  {
  }

  /** getHandoverStatusString, with the same guarantees. */
  function HandoverStatusString(s: HandoverStatus): (r: string)
    ensures r != "N/A" && |r| > 0
  {
    match s
    case NoHandover => "No handover"
    case Initiated => "Initiated"
    case Ready => "Ready"
  }

  lemma HandoverStatusStringInjective(a: HandoverStatus, b: HandoverStatus)
    ensures HandoverStatusString(a) == HandoverStatusString(b) ==> a == b
  {
  }

  /** The row names of the information table, in the order of its row indices. */
  const RowNames: seq<string> := [
    "executeCount", "URL", "isLooping", "isPaused", "state", "TOPstatus", "Duration",
    "playbackProgress", "bufferingProgress", "videoWidth", "videoHeight", "handover",
    "handoverState", "switchOnCue", "switchCue", "playbackSpeed", "startTime", "endTime",
    "blackout"]

  /** getInfoDATSize: one row per row name, two columns (name and value). */
  function InfoDatSize(): (size: (nat, nat))
    ensures size.0 == |RowNames| == 19 && size.1 == 2
  {
    (|RowNames|, 2)
  }

  /** getInfoCHOPChan: the channel at `index` is given the name of its row
      when the index names a row; otherwise its name is left as it was. */
  function ChannelName(index: int, name: string): (r: string)
    ensures 0 <= index < 19 ==> r == RowNames[index] && |r| > 0
    ensures !(0 <= index < 19) ==> r == name
  {
    if 0 <= index < |RowNames| then RowNames[index] else name
  }
}
