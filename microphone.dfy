/** `get_microphone_source(args)`: which input device `main()` records from.
    The devices are the PyAudio device list, each a name (as
    `list_microphone_names()` reports it) and its `maxInputChannels`. */
module Microphone {
  import opened Common

  datatype Device = Device(name: string, maxInputChannels: int)

  /** A chosen device index and its label; `sys.exit(0)` after
      "Invalid audio source"; or the `ValueError` "No valid input devices
      found." */
  datatype MicChoice = Chosen(index: nat, caption: string) | InvalidChoice | NoInputDevice

  /** `is_input_device(index)`. */
  predicate IsInput(d: Device)
  {
    d.maxInputChannels > 0
  }

  /** `str.isdigit()` on ASCII text. */
  predicate IsDigits(s: string)
  {
    |s| > 0 && forall i :: 0 <= i < |s| ==> IsDigitChar(s[i])
  }

  /** The first input device from `from` on. */
  function FirstInput(devices: seq<Device>, from: nat): (r: Option<nat>)
    requires from <= |devices|
    ensures r.Some? ==> from <= r.value < |devices| && IsInput(devices[r.value])
                        && forall j :: from <= j < r.value ==> !IsInput(devices[j])
    ensures r.None? ==> forall j :: from <= j < |devices| ==> !IsInput(devices[j])
    decreases |devices| - from
  {
    if from == |devices| then None
    else if IsInput(devices[from]) then Some(from)
    else FirstInput(devices, from + 1)
  }

  /** The first input device named `name` from `from` on. */
  function FirstNamedInput(devices: seq<Device>, name: string, from: nat): (r: Option<nat>)
    requires from <= |devices|
    ensures r.Some? ==> from <= r.value < |devices| && IsInput(devices[r.value])
                        && devices[r.value].name == name
                        && forall j :: from <= j < r.value ==> !(IsInput(devices[j]) && devices[j].name == name)
    ensures r.None? ==> forall j :: from <= j < |devices| ==> !(IsInput(devices[j]) && devices[j].name == name)
    decreases |devices| - from
  {
    if from == |devices| then None
    else if IsInput(devices[from]) && devices[from].name == name then Some(from)
    else FirstNamedInput(devices, name, from + 1)
  }

  /** The choice `get_microphone_source` makes, given `args.set_microphone`. */
  function MicrophoneSource(setMicrophone: Option<string>, devices: seq<Device>): MicChoice
  {
    var requested := if setMicrophone.Some? && setMicrophone.value != "" then setMicrophone.value else "";
    if requested != "" && IsDigits(requested) then
      var n := DigitsValue(requested);
      if n < |devices| && IsInput(devices[n]) then Chosen(n, devices[n].name) else InvalidChoice
    else
      var named := if requested != "" then FirstNamedInput(devices, requested, 0) else None;
      if named.Some? then Chosen(named.value, requested)
      else
        var fallback := FirstInput(devices, 0);
        if fallback.Some? then Chosen(fallback.value, "system default") else NoInputDevice
  }

  /** The function as `main()` runs it, with its two `for` loops. */
  method GetMicrophoneSource(setMicrophone: Option<string>, devices: seq<Device>) returns (r: MicChoice)
    ensures r == MicrophoneSource(setMicrophone, devices)
  {
    if setMicrophone.Some? && setMicrophone.value != "" {
      var micName := setMicrophone.value;
      if IsDigits(micName) {
        var micIndex := DigitsValue(micName);
        if micIndex < |devices| && IsInput(devices[micIndex]) {
          return Chosen(micIndex, devices[micIndex].name);
        }
        return InvalidChoice;
      }
      for index := 0 to |devices|
        invariant FirstNamedInput(devices, micName, index) == FirstNamedInput(devices, micName, 0)
      {
        if micName == devices[index].name && IsInput(devices[index]) {
          return Chosen(index, devices[index].name);
        }
      }
    }
    for index := 0 to |devices|
      invariant FirstInput(devices, index) == FirstInput(devices, 0)
    {
      if IsInput(devices[index]) {
        return Chosen(index, "system default");
      }
    }
    return NoInputDevice;
  }

  /** A chosen device is always an input device of the list. */
  lemma ChosenIsInput(setMicrophone: Option<string>, devices: seq<Device>)
    ensures var r := MicrophoneSource(setMicrophone, devices);
      r.Chosen? ==> r.index < |devices| && IsInput(devices[r.index])
  {
  }

  /** A name of digits selects by index: the device at that index when it
      exists and takes input, otherwise the program exits. */
  lemma DigitNameSelectsIndex(name: string, devices: seq<Device>)
    requires IsDigits(name)
    ensures var r := MicrophoneSource(Some(name), devices);
      && (r.Chosen? <==> DigitsValue(name) < |devices| && IsInput(devices[DigitsValue(name)]))
      && (r.Chosen? ==> r.index == DigitsValue(name))
      && (!r.Chosen? ==> r == InvalidChoice)
  {
  }

  /** A non-numeric name that no input device carries falls through to the
      first input device, labelled "system default"; with no input device
      at all, `ValueError` is raised. */
  lemma UnmatchedNameFallsBack(name: string, devices: seq<Device>)
    requires name != "" && !IsDigits(name)
    requires forall j :: 0 <= j < |devices| ==> !(IsInput(devices[j]) && devices[j].name == name)
    ensures var r := MicrophoneSource(Some(name), devices);
      && (r.Chosen? <==> exists j :: 0 <= j < |devices| && IsInput(devices[j]))
      && (r.Chosen? ==> r.caption == "system default" && forall j :: 0 <= j < r.index ==> !IsInput(devices[j]))
      && (!r.Chosen? ==> r == NoInputDevice)
  {
    var f := FirstInput(devices, 0);
    if f.None? {
      assert forall j :: 0 <= j < |devices| ==> !IsInput(devices[j]);
    }
  }

  /** A matching non-numeric name picks the first input device that carries
      it, and is its own label. */
  lemma NamedInputChosen(name: string, devices: seq<Device>, k: nat)
    requires name != "" && !IsDigits(name)
    requires k < |devices| && IsInput(devices[k]) && devices[k].name == name
    ensures var r := MicrophoneSource(Some(name), devices);
      r.Chosen? && r.caption == name && r.index <= k && devices[r.index].name == name
  {
  }
}
