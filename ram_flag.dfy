/** The VRAM check of `main()`: on a CUDA device the `--ram` flag is moved
    down the list of model sizes until the model fits, or the run falls back
    to the CPU. VRAM is in whole megabytes: for an integer bound `b`,
    `cuda_vram < b` holds exactly when the floor of `cuda_vram` is below `b`. */
module RamFlag {

  const OverheadBuffer: int := 200

  /** `ram_options`: the flag values, largest first, with the VRAM in MB
      each one requires. */
  const RamOptions: seq<(string, int)> :=
    [("12gb", 12000), ("6gb", 6144), ("4gb", 4096), ("2gb", 2048), ("1gb", 1024)]

  /** The two `WARNING` lines and the `print_warning` call of the check. */
  datatype Warning =
    | VramBelowOneGb
    | NoSuitableSetting
    | Downgraded(from: string, to: string, needed: int, available: int)

  /** The flag afterwards, whether the device became the CPU, the `found`
      flag, and the warnings printed, in order. */
  datatype Downgrade = Downgrade(ram: string, cpu: bool, found: bool, warnings: seq<Warning>)

  /** Option `i` fits in `vram` MB with the overhead buffer. */
  predicate Fits(vram: int, i: nat)
    requires i < |RamOptions|
  {
    vram >= RamOptions[i].1 + OverheadBuffer
  }

  /** How the `for i, (ram_option, required_vram)` loop leaves, from
      iteration `i` on with the flag at `ram`: the flag, `found`, whether
      the last-option `break` fired, and `required_vram` at the `break`. */
  datatype Scan = Scan(ram: string, found: bool, lastOptionBreak: bool, required: int)

  function ScanFrom(ram: string, vram: int, i: nat): Scan
    requires i < |RamOptions|
    decreases |RamOptions| - i
  {
    var (option, required) := RamOptions[i];
    if ram == option && vram < required + OverheadBuffer then
      if i + 1 < |RamOptions| then ScanFrom(RamOptions[i + 1].0, vram, i + 1)
      else Scan(option, false, true, required)
    else Scan(ram, true, false, required)
  }

  /** The whole check, including the two fallbacks after the loop. */
  function RamDowngrade(ram: string, vram: int): Downgrade
  {
    var s := ScanFrom(ram, vram, 0);
    var first := if s.lastOptionBreak then [VramBelowOneGb] else [];
    if !s.found then Downgrade(s.ram, true, false, first + [NoSuitableSetting])
    else if ram != s.ram then
      Downgrade(s.ram, s.lastOptionBreak, true, first + [Downgraded(ram, s.ram, s.required + OverheadBuffer, vram)])
    else Downgrade(s.ram, s.lastOptionBreak, true, first)
  }

  /** The loop as `main()` runs it. */
  method DowngradeRamFlag(ram: string, vram: int) returns (r: Downgrade)
    ensures r == RamDowngrade(ram, vram)
  {
    var current := ram;
    var found := false;
    var cpu := false;
    var required := 0;
    var warnings: seq<Warning> := [];
    for i := 0 to |RamOptions|
      invariant i < |RamOptions|
      invariant ScanFrom(current, vram, i) == ScanFrom(ram, vram, 0)
      invariant !found && !cpu && warnings == []
    {
      var (option, needed) := RamOptions[i];
      required := needed;
      if current == option && vram < needed + OverheadBuffer {
        if i + 1 < |RamOptions| {
          current := RamOptions[i + 1].0;
        } else {
          current := option;
          cpu := true;
          warnings := warnings + [VramBelowOneGb];
          break;
        }
      } else {
        found := true;
        break;
      }
    }
    if !found {
      cpu := true;
      warnings := warnings + [NoSuitableSetting];
    } else if ram != current {
      warnings := warnings + [Downgraded(ram, current, required + OverheadBuffer, vram)];
    }
    r := Downgrade(current, cpu, found, warnings);
  }

  /** A flag other than "12gb" takes the `else` branch on the first
      iteration: it is kept as it is, with no fallback and no warning, even
      when the VRAM is too small for it. */
  lemma OtherFlagsUnchanged(ram: string, vram: int)
    requires ram != "12gb"
    ensures RamDowngrade(ram, vram) == Downgrade(ram, false, true, [])
  {
  }

  /** From "12gb", the flag ends at the first (largest) option that fits;
      a change is reported with that option's requirement plus the
      overhead buffer. */
  lemma {:induction false} ScanFindsFirstFit(vram: int, i: nat, k: nat)
    requires i <= k < |RamOptions|
    requires Fits(vram, k) && forall j :: i <= j < k ==> !Fits(vram, j)
    ensures ScanFrom(RamOptions[i].0, vram, i) == Scan(RamOptions[k].0, true, false, RamOptions[k].1)
    decreases k - i
  {
    if i < k {
      assert !Fits(vram, i);
      ScanFindsFirstFit(vram, i + 1, k);
    }
  }

  lemma DowngradeToFirstFit(vram: int, k: nat)
    requires k < |RamOptions|
    requires Fits(vram, k) && forall j :: 0 <= j < k ==> !Fits(vram, j)
    ensures var r := RamDowngrade("12gb", vram);
      && r.ram == RamOptions[k].0 && r.found && !r.cpu
      && r.warnings == (if k == 0 then [] else [Downgraded("12gb", RamOptions[k].0, RamOptions[k].1 + OverheadBuffer, vram)])
  {
    ScanFindsFirstFit(vram, 0, k);
  }

  lemma {:induction false} ScanNothingFits(vram: int, i: nat)
    requires i < |RamOptions|
    requires forall j :: i <= j < |RamOptions| ==> !Fits(vram, j)
    ensures ScanFrom(RamOptions[i].0, vram, i) == Scan("1gb", false, true, 1024)
    decreases |RamOptions| - i
  {
    assert !Fits(vram, i);
    if i + 1 < |RamOptions| {
      ScanNothingFits(vram, i + 1);
    }
  }

  /** When not even "1gb" fits, the flag stays "1gb", the device becomes the
      CPU and `found` stays false, so both fallback warnings are printed. */
  lemma NothingFits(vram: int)
    requires vram < 1024 + OverheadBuffer
    ensures RamDowngrade("12gb", vram) == Downgrade("1gb", true, false, [VramBelowOneGb, NoSuitableSetting])
  {
    ScanNothingFits(vram, 0);
  }

  /** The flag only ever moves down the list: from "12gb" the result is one
      of the options, and `found` holds exactly when some option fits. */
  lemma DowngradeIsAnOption(vram: int)
    ensures var r := RamDowngrade("12gb", vram);
      && (exists k :: 0 <= k < |RamOptions| && r.ram == RamOptions[k].0)
      && (r.found <==> exists k :: 0 <= k < |RamOptions| && Fits(vram, k))
      && (r.cpu <==> !r.found)
  {
    if Fits(vram, 4) {
      var k: nat := if Fits(vram, 0) then 0 else if Fits(vram, 1) then 1
                    else if Fits(vram, 2) then 2 else if Fits(vram, 3) then 3 else 4;
      DowngradeToFirstFit(vram, k);
    } else {
      NothingFits(vram);
      assert RamDowngrade("12gb", vram).ram == RamOptions[4].0;
    }
  }
}
