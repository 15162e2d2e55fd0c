/** Host inputs of the YouTube TOP: the table that says where each logical
    input lives among the host's named inputs, and the helpers that read a
    string, a float or a bool from them. An input that is missing, or whose
    name is not the expected one, is "not present": the helpers then leave
    the caller's value as it was. */
module TouchInputs {

  /** The logical inputs the operator reads every cycle. */
  datatype InputName =
    | URL | Pause | Loop | SeekPosition | SwitchOnCue | SwitchCue
    | PlaybackSpeed | StartTime | EndTime | Blackout

  /** Where a logical input lives: the host input's expected name, its
      position among the host's inputs and the channel inside that input. */
  datatype TouchInput = TouchInput(name: string, index: nat, subIndex: nat)

  /** A host float input carries four channels. */
  type Channels = s: seq<real> | |s| == 4 witness [0.0, 0.0, 0.0, 0.0]

  datatype FloatInput = FloatInput(name: string, values: Channels)
  datatype StringInput = StringInput(name: string, value: string)

  /** What the host hands over each cycle: its float and string inputs, in order. */
  datatype InputArrays = InputArrays(floatInputs: seq<FloatInput>, stringInputs: seq<StringInput>)

  /** The outcome of reading an input: whether it was present, and the value
      the caller's variable holds afterwards. */
  datatype Read<T> = Read(found: bool, value: T)

  /** The outcome of an edge-triggered read: whether the input was present,
      the caller's "changed" flag afterwards and its value afterwards. */
  datatype FloatUpdate = FloatUpdate(found: bool, updated: bool, value: real)

  function Digit(d: nat): char
    requires d < 10
  {
    (48 + d) as char
  }

  /** The fixed table of inputs. Every logical input sits in one of the four
      channels of the input at its position, and that input is named after
      its position ("value3" is the input at position 3); see SlotNames. */
  function Slot(n: InputName): (t: TouchInput)
    ensures t.index < 10 && t.subIndex < 4
  {
    match n
    case URL => TouchInput("string0", 0, 0)
    case Loop => TouchInput("value0", 0, 0)
    case Pause => TouchInput("value0", 0, 1)
    case Blackout => TouchInput("value0", 0, 2)
    case SeekPosition => TouchInput("value2", 2, 0)
    case SwitchOnCue => TouchInput("value3", 3, 0)
    case SwitchCue => TouchInput("value3", 3, 1)
    case PlaybackSpeed => TouchInput("value4", 4, 0)
    case StartTime => TouchInput("value5", 5, 0)
    case EndTime => TouchInput("value5", 5, 1)
  }

  /** The URL is read from a string input and every other logical input from
      a float input; either way the input is named after its position. */
  lemma SlotNames(n: InputName)
    ensures Slot(n).name == (if n == URL then "string" else "value") + [Digit(Slot(n).index)]
  {
  }

  /** Two different logical inputs never share a channel of a float input
      that can be present for both: they differ in position, in channel, or
      in the name the input must carry. */
  lemma SlotsDistinct(a: InputName, b: InputName)
    requires a != b
    ensures Slot(a) != Slot(b)
  {
    match a
    case URL =>
      assert Slot(a).name[0] == 's';
      assert b != URL ==> Slot(b).name[0] == 'v';
    case _ =>
      assert b == URL ==> Slot(b).name[0] == 's' && Slot(a).name[0] == 'v';
  }

  /** The host float input that holds `n` is there and carries the expected name. */
  predicate FloatPresent(arrays: InputArrays, n: InputName)
  {
    Slot(n).index < |arrays.floatInputs| && arrays.floatInputs[Slot(n).index].name == Slot(n).name
  }

  /** The host string input that holds `n` is there and carries the expected name. */
  predicate StringPresent(arrays: InputArrays, n: InputName)
  {
    Slot(n).index < |arrays.stringInputs| && arrays.stringInputs[Slot(n).index].name == Slot(n).name
  }

  /** The channel that holds `n`. */
  function Channel(arrays: InputArrays, n: InputName): real
    requires FloatPresent(arrays, n)
  {
    arrays.floatInputs[Slot(n).index].values[Slot(n).subIndex]
  }

  /** The host side: the inputs after the host has put `v` into the channel of `n`. */
  function WithChannel(arrays: InputArrays, n: InputName, v: real): (r: InputArrays)
    requires FloatPresent(arrays, n)
    ensures FloatPresent(r, n)
  {
    var i := Slot(n).index;
    var input := arrays.floatInputs[i];
    arrays.(floatInputs := arrays.floatInputs[i := input.(values := input.values[Slot(n).subIndex := v])])
  }

  /** getFloatValue: the channel of `n` when its input is present; the
      caller's value, untouched, otherwise. */
  function GetFloatValue(arrays: InputArrays, n: InputName, value: real): (r: Read<real>)
    ensures r.found == FloatPresent(arrays, n)
    ensures r.found ==> r.value == Channel(arrays, n)
    ensures !r.found ==> r.value == value
  {
    if Slot(n).index < |arrays.floatInputs| && arrays.floatInputs[Slot(n).index].name == Slot(n).name then
      Read(true, arrays.floatInputs[Slot(n).index].values[Slot(n).subIndex])
    else
      Read(false, value)
  }

  /** A value the host puts into one input is read back from it, and every
      other input reads what it read before. */
  lemma {:induction false} HostWriteReadBack(arrays: InputArrays, n: InputName, v: real, m: InputName, x: real)
    requires FloatPresent(arrays, n)
    ensures GetFloatValue(WithChannel(arrays, n, v), n, x) == Read(true, v)
    ensures m != n ==> GetFloatValue(WithChannel(arrays, n, v), m, x) == GetFloatValue(arrays, m, x)
  {
    var w := WithChannel(arrays, n, v);
    if m != n {
      SlotsDistinct(m, n);
      assert FloatPresent(w, m) == FloatPresent(arrays, m);
      if FloatPresent(arrays, m) && Slot(m).index == Slot(n).index {
        assert Slot(m).name == Slot(n).name;
        assert Slot(m).subIndex != Slot(n).subIndex;
      }
    }
  }

  /** getBoolValue: a present input reads as true exactly when its channel
      exceeds 0.5; an absent one leaves the caller's value untouched. */
  function GetBoolValue(arrays: InputArrays, n: InputName, value: bool): (r: Read<bool>)
    ensures r.found == FloatPresent(arrays, n)
    ensures r.found ==> (r.value <==> Channel(arrays, n) > 0.5)
    ensures !r.found ==> r.value == value
  {
    if Slot(n).index < |arrays.floatInputs| && arrays.floatInputs[Slot(n).index].name == Slot(n).name then
      Read(true, arrays.floatInputs[Slot(n).index].values[Slot(n).subIndex] > 0.5)
    else
      Read(false, value)
  }

  /** updateFloatValue: the edge-triggered read. The stored value follows a
      present input; the flag is raised exactly when the stored value
      changes, and it is never lowered here. */
  function UpdateFloatValue(arrays: InputArrays, n: InputName, updated: bool, value: real): (r: FloatUpdate)
    ensures r.found == FloatPresent(arrays, n)
    ensures r.found ==> r.value == Channel(arrays, n)
    ensures !r.found ==> r.value == value
    ensures r.updated == (updated || r.value != value)
  {
    var read := GetFloatValue(arrays, n, 0.0);
    if read.found then
      if value != read.value then FloatUpdate(true, true, read.value)
      else FloatUpdate(true, updated, value)
    else
      FloatUpdate(false, updated, value)
  }

  /** `s` with every `c` erased and everything else kept in order (the
      erase/remove idiom). */
  function RemoveAll(s: string, c: char): (r: string)
    ensures c !in r
    ensures |r| <= |s|
    ensures c !in s ==> r == s
    ensures forall x :: multiset(r)[x] == if x == c then 0 else multiset(s)[x]
  {
    if s == [] then []
    else
      assert s == [s[0]] + s[1..];
      (if s[0] == c then [] else [s[0]]) + RemoveAll(s[1..], c)
  }

  /** Erasing distributes over concatenation: what survives keeps its order. */
  lemma {:induction false} RemoveAllAppend(a: string, b: string, c: char)
    ensures RemoveAll(a + b, c) == RemoveAll(a, c) + RemoveAll(b, c)
  {
    if a == [] {
      assert a + b == b;
    } else {
      assert (a + b)[0] == a[0];
      assert (a + b)[1..] == a[1..] + b;
      RemoveAllAppend(a[1..], b, c);
    }
  }

  predicate NoLineBreaks(s: string)
  {
    '\r' !in s && '\n' !in s
  }

  /** The URL clean-up: every carriage return and line feed erased. */
  function StripLineBreaks(s: string): (r: string)
    ensures NoLineBreaks(r)
    ensures NoLineBreaks(s) ==> r == s
    ensures forall x :: x != '\r' && x != '\n' ==> multiset(r)[x] == multiset(s)[x]
  {
    var once := RemoveAll(s, '\r');
    assert multiset(once)['\r'] == 0;
    RemoveAll(once, '\n')
  }

  /** Cleaning a cleaned URL changes nothing. */
  lemma StripLineBreaksIdempotent(s: string)
    ensures StripLineBreaks(StripLineBreaks(s)) == StripLineBreaks(s)
  {
  }

  /** Cleaning distributes over concatenation, so the kept characters keep
      their order. */
  lemma StripLineBreaksAppend(a: string, b: string)
    ensures StripLineBreaks(a + b) == StripLineBreaks(a) + StripLineBreaks(b)
  {
    RemoveAllAppend(a, b, '\r');
    RemoveAllAppend(RemoveAll(a, '\r'), RemoveAll(b, '\r'), '\n');
  }

  /** getStringValue: a present input yields its text with line breaks
      erased; an absent one leaves the caller's value untouched. */
  function GetStringValue(arrays: InputArrays, n: InputName, value: string): (r: Read<string>)
    ensures r.found == StringPresent(arrays, n)
    ensures r.found ==> r.value == StripLineBreaks(arrays.stringInputs[Slot(n).index].value)
    ensures r.found ==> NoLineBreaks(r.value)
    ensures !r.found ==> r.value == value
  {
    if Slot(n).index < |arrays.stringInputs| && arrays.stringInputs[Slot(n).index].name == Slot(n).name then
      var str := arrays.stringInputs[Slot(n).index].value;
      var str1 := RemoveAll(str, '\r');
      var str2 := RemoveAll(str1, '\n');
      Read(true, str2)
    else
      Read(false, value)
  }
}
