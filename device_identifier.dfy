/**
 * The public surface of DeviceIdentifier: whether a debugger is attached,
 * whether the build targets the simulator or a real device, and the model
 * name of the machine the code runs on.
 *
 * What the operating system supplies at run time is a parameter here: the
 * process flags that `sysctl` reports and the `machine` buffer that `uname`
 * fills. So is the build target, a setting fixed when the library is compiled.
 */
module DeviceIdentifier {
  import opened MachineId
  import opened ModelNames

  // ---------------------------------------------------------------------
  // Debugger

  /** The "being traced" bit of a process's `p_flag` (`P_TRACED` on Darwin). */
  const PTraced: bv32 := 0x800

  /** `isDebuggerConnected`: the traced bit, bit 11, of the process flags is set. */
  function IsDebuggerConnected(pFlag: bv32): (r: bool)
    ensures r <==> (pFlag >> 11) & 1 == 1
  {
    pFlag & PTraced != 0
  }

  /**
   * Only the traced bit matters: setting it reports a debugger, clearing it
   * reports none, whatever the other flags. A record that the query left
   * zeroed reports none.
   */
  lemma DebuggerOnlyTracedBit(pFlag: bv32)
    ensures IsDebuggerConnected(pFlag | PTraced)
    ensures !IsDebuggerConnected(pFlag & !PTraced)
    ensures IsDebuggerConnected(pFlag) == IsDebuggerConnected(pFlag & PTraced)
    ensures !IsDebuggerConnected(0)
  {
  }

  // ---------------------------------------------------------------------
  // Build target

  /** The target the library was compiled for. */
  datatype Target = SimulatorTarget | DeviceTarget

  /** `isSimulator`: fixed by the build target. */
  function IsSimulator(target: Target): (r: bool)
    ensures r <==> target != DeviceTarget
  {
    target == SimulatorTarget
  }

  /** `isRealDevice` as the source writes it: it returns `isSimulator`. */
  function IsRealDeviceAsWritten(target: Target): (r: bool)
    ensures r <==> target == SimulatorTarget
  {
    IsSimulator(target)
  }

  /**
   * As written, `isRealDevice` agrees with `isSimulator` on every build and
   * disagrees with the documented meaning on every build: a simulator build
   * reports a real device.
   */
  lemma IsRealDeviceAsWrittenInverted(target: Target)
    ensures IsRealDeviceAsWritten(target) == IsSimulator(target)
    ensures IsRealDeviceAsWritten(target) != IsRealDevice(target)
    ensures IsRealDeviceAsWritten(SimulatorTarget) && IsSimulator(SimulatorTarget)
  {
  }

  /** `isRealDevice` as documented: the build is not for the simulator. */
  function IsRealDevice(target: Target): (r: bool)
    ensures r <==> target == DeviceTarget
  {
    !IsSimulator(target)
  }

  /** Exactly one of `isSimulator` and `isRealDevice` holds, and only a device build is real. */
  lemma RealDeviceIsComplement(target: Target)
    ensures IsRealDevice(target) != IsSimulator(target)
    ensures IsRealDevice(target) <==> target == DeviceTarget
  {
  }

  // ---------------------------------------------------------------------
  // Model name of the running machine

  /** `modelName`: the identifier decoded from the `machine` buffer, looked up in the table. */
  function DeviceModelName(machine: seq<Int8>): (r: Decoded)
    ensures r.Id? <==> NoNegative(machine)
    ensures r.Trap? ==> r == Decode(machine)
    ensures r.Id? ==> (r.id == "" <==> Decode(machine).id == "")
  {
    match Decode(machine)
    case Trap(at) => Trap(at)
    case Id(id) =>
      ModelNameEmptyIff(id);
      Id(ModelName(id))
  }

  /** The model name traps exactly when decoding does, at the same element. */
  lemma DeviceModelNameTraps(machine: seq<Int8>)
    ensures DeviceModelName(machine).Trap? <==> !NoNegative(machine)
    ensures DeviceModelName(machine).Trap? ==> DeviceModelName(machine) == Decode(machine)
  {
  }

  /** Without a trap, the model name is the table's name for the buffer's non-zero characters. */
  lemma DeviceModelNameOfBuffer(machine: seq<Int8>)
    requires NoNegative(machine)
    ensures NoNegative(NonZero(machine))
      && DeviceModelName(machine) == Id(ModelName(Text(NonZero(machine))))
  {
    DecodeNonZero(machine);
  }

  /** Without a trap, the model name is empty exactly when the buffer holds only zeros. */
  lemma DeviceModelNameEmptyIff(machine: seq<Int8>)
    requires NoNegative(machine)
    ensures DeviceModelName(machine).Id?
    ensures DeviceModelName(machine).id == "" <==> forall i :: 0 <= i < |machine| ==> machine[i] == 0
  {
    DecodedEmptyIff(machine);
    ModelNameEmptyIff(Decode(machine).id);
  }

  /**
   * A buffer left all zeros (as when the `uname` query fails without
   * writing it) gives the empty identifier and the empty model name.
   */
  lemma DeviceModelNameZeroed(n: nat)
    ensures Decode(seq(n, _ => 0 as Int8)) == Id("")
    ensures DeviceModelName(seq(n, _ => 0 as Int8)) == Id("")
  {
    DeviceModelNameEmptyIff(seq(n, _ => 0 as Int8));
  }

  /** A buffer spelling a known identifier, padded with NULs, yields that identifier's name. */
  lemma DeviceModelNameExample()
    ensures DeviceModelName([105, 51, 56, 54, 0, 0]) == Id("iOS Simulator 32-bit")
  {
    DecodePaddedExample();
    ModelNameKnownExamples();
  }
}
