# DeviceIdentifier in Dafny

DeviceIdentifier is a small Swift library for Apple platforms. It answers four questions about the running process:
- Is a debugger attached (`isDebuggerConnected`)?
- Was the build made for the simulator (`isSimulator`)?
- Was it made for a real device (`isRealDevice`)?
- What is the raw hardware identifier (`deviceId`, e.g. `iPhone13,2`) and its human-readable model name (`modelName`, e.g. `iPhone 12`)?

The project has three modules, one per concern of `Sources/DeviceIdentifier/DeviceIdentifier.swift`:

- `ModelNames` (`model_names.dfy`)
  - The `modelName` switch is a first-match lookup over the table of 139 cases, kept in source order.
  - An identifier that matches no case falls through to the `default` branch and is returned unchanged.
  - The table is split into blocks by device family and generation, so that the distinct labels can be proved block by block.
- `MachineId` (`machine_id.dfy`)
  - `deviceId` folds the `utsname.machine` buffer of signed 8-bit C chars from `""`.
  - It skips every zero element and appends each other element as one character.
  - `UInt8(value)` traps on a negative element. The model makes that trap an explicit outcome, `Trap(at)`.
  - It proves the fold against a reference definition: the non-zero elements, in order.
- `DeviceIdentifier` (`device_identifier.dfy`)
  - The debugger test is a bit test on the process flags.
  - The build target is an explicit parameter.
  - `isRealDevice` is modelled both as written and as documented.
  - `modelName` is composed from the decoder and the table.

Two inputs come from the operating system at run time, and the model takes them as parameters:
- the `p_flag` word of the process record;
- the `machine` buffer.

The build target is a compile-time setting (lines 16-20). The model takes it as a parameter too.

## Model

| member | source | states |
|---|---|---|
| ModelNames.ModelName | Sources/DeviceIdentifier/DeviceIdentifier.swift:47-194 | the switch over the table: an identifier that is no label is returned unchanged; a changed result means the identifier is a label; a label yields the name of one of its cases. With `ModelNameOfCase` and `CasesWellFormed` that name is exactly the case's own |
| ModelNames.Lookup | Sources/DeviceIdentifier/DeviceIdentifier.swift:47-194 | an identifier that is no case label is returned unchanged; a label yields the name of a case with that label |
| ModelNames.LookupFirstMatch | Sources/DeviceIdentifier/DeviceIdentifier.swift:47-194 | the switch yields the name of the first case whose label matches exactly |
| ModelNames.LookupHit | Sources/DeviceIdentifier/DeviceIdentifier.swift:47-194 | when labels are distinct, every case is reached by its own label |
| ModelNames.LookupOrderIrrelevant | Sources/DeviceIdentifier/DeviceIdentifier.swift:47-194 | when labels are distinct, any rearrangement of the same cases gives the same answer for every identifier |
| ModelNames.LookupEmptyIff | Sources/DeviceIdentifier/DeviceIdentifier.swift:47-194 | if no name is empty and "" is not a label, the result is empty exactly when the identifier is |
| ModelNames.Join | Sources/DeviceIdentifier/DeviceIdentifier.swift:49-191 | two blocks of cases whose labels differ at one position join into a block with distinct labels and non-empty names |
| ModelNames.CharsJoin | Sources/DeviceIdentifier/DeviceIdentifier.swift:49-191 | the characters at a position across a joined block are those of its two parts |
| ModelNames.NotKeyByCharAt | Sources/DeviceIdentifier/DeviceIdentifier.swift:49-191 | a string whose character at some position matches no label's character there is not a label |
| ModelNames.SimulatorsWellFormed | Sources/DeviceIdentifier/DeviceIdentifier.swift:49-51 | the three simulator labels are distinct and their names non-empty |
| ModelNames.IPhonesWellFormed | Sources/DeviceIdentifier/DeviceIdentifier.swift:53-91 | the phone labels are distinct and their names non-empty |
| ModelNames.IPodsWellFormed | Sources/DeviceIdentifier/DeviceIdentifier.swift:93-95 | the iPod labels are distinct and their names non-empty |
| ModelNames.IPadsWellFormed | Sources/DeviceIdentifier/DeviceIdentifier.swift:97-164 | the tablet labels are distinct and their names non-empty |
| ModelNames.WatchesWellFormed | Sources/DeviceIdentifier/DeviceIdentifier.swift:166-191 | the watch labels are distinct and their names non-empty |
| ModelNames.CasesWellFormed | Sources/DeviceIdentifier/DeviceIdentifier.swift:49-191 | all 139 case labels are pairwise distinct, so the switch defines a function; every name is non-empty; every label has one of seven characters at position 2 |
| ModelNames.ModelNameOfCase | Sources/DeviceIdentifier/DeviceIdentifier.swift:49-191 | every case of the table maps its label to exactly its own name |
| ModelNames.ModelNameDefault | Sources/DeviceIdentifier/DeviceIdentifier.swift:193 | an identifier that matches no label is returned unchanged |
| ModelNames.ModelNameEmptyIff | Sources/DeviceIdentifier/DeviceIdentifier.swift:47-194 | the model name is empty if and only if the identifier is empty |
| ModelNames.ModelNameOrderIrrelevant | Sources/DeviceIdentifier/DeviceIdentifier.swift:47-194 | any reordering of the table's cases answers every identifier as the source's order does |
| ModelNames.ModelNameKnownExamples | Sources/DeviceIdentifier/DeviceIdentifier.swift:49-173 | i386, iPhone8,1, iPhone13,2 and Watch3,2 give the names at lines 49, 62, 84 and 173 |
| ModelNames.ModelNameUnknownExamples | Sources/DeviceIdentifier/DeviceIdentifier.swift:193 | "", an unknown identifier, an upper-cased label and a label with a leading blank are all returned unchanged: matching is exact |
| ModelNames.ModelNameSharedEleven | Sources/DeviceIdentifier/DeviceIdentifier.swift:157-160 | iPad13,4 to iPad13,7 all map to the 11-inch third-generation Pro |
| ModelNames.ModelNameSharedTwelve | Sources/DeviceIdentifier/DeviceIdentifier.swift:161-164 | iPad13,8 to iPad13,11 all map to the 12.9-inch fifth-generation Pro |
| ModelNames.ModelNameNotInjective | Sources/DeviceIdentifier/DeviceIdentifier.swift:157-164 | two different identifiers have the same model name |
| MachineId.CharOf | Sources/DeviceIdentifier/DeviceIdentifier.swift:39 | a non-negative element becomes the character with the same code |
| MachineId.Step | Sources/DeviceIdentifier/DeviceIdentifier.swift:34-39 | one step of the `reduce` closure: a trap is kept, and a negative element traps at its own position; otherwise the identifier is extended, by nothing for a zero element and by one character otherwise |
| MachineId.Decode | Sources/DeviceIdentifier/DeviceIdentifier.swift:34-40 | the fold yields an identifier exactly when no element is negative; a trap is at a negative element, and every element before it is non-negative |
| MachineId.NonZero | Sources/DeviceIdentifier/DeviceIdentifier.swift:35-37 | the reference filter keeps exactly the non-zero elements and is no longer than its input |
| MachineId.Text | Sources/DeviceIdentifier/DeviceIdentifier.swift:39 | one character per element, with the same code, in order |
| MachineId.CString | Sources/DeviceIdentifier/DeviceIdentifier.swift:35-39 | the reference C-string reading is the prefix before the first zero |
| MachineId.NonZeroSnoc | Sources/DeviceIdentifier/DeviceIdentifier.swift:35-37 | filtering a buffer extended by one element extends the result by that element when it is non-zero |
| MachineId.TextAppend | Sources/DeviceIdentifier/DeviceIdentifier.swift:39 | converting a concatenation converts each part |
| MachineId.DecodeNonZero | Sources/DeviceIdentifier/DeviceIdentifier.swift:34-40 | with no negative element, the identifier is exactly the non-zero elements of the buffer, in order, one character each |
| MachineId.DecodedShape | Sources/DeviceIdentifier/DeviceIdentifier.swift:34-40 | the identifier's length is the number of non-zero elements, at most the buffer's length, and every character is ASCII and not NUL |
| MachineId.DecodedEmptyIff | Sources/DeviceIdentifier/DeviceIdentifier.swift:34-40 | the identifier is empty exactly when every element is zero |
| MachineId.CStringOfZerosTrail | Sources/DeviceIdentifier/DeviceIdentifier.swift:35-37 | when zeros only trail, the non-zero elements are the C-string prefix |
| MachineId.AllZero | Sources/DeviceIdentifier/DeviceIdentifier.swift:35-37 | an all-zero buffer has no non-zero elements |
| MachineId.DecodePaddedIsCString | Sources/DeviceIdentifier/DeviceIdentifier.swift:34-40 | for a NUL-padded buffer, the fold agrees with reading the buffer as a C string |
| MachineId.DecodeSkipsInteriorNul | Sources/DeviceIdentifier/DeviceIdentifier.swift:35-39 | an interior NUL does not end the identifier ([65, 0, 66] gives "AB", where a C string gives "A") |
| MachineId.DecodePaddedExample | Sources/DeviceIdentifier/DeviceIdentifier.swift:34-40 | a NUL-padded buffer spelling i386 decodes to "i386" |
| MachineId.DecodeTrapExample | Sources/DeviceIdentifier/DeviceIdentifier.swift:39 | a negative element traps even after a NUL, at the first negative position |
| DeviceIdentifier.IsDebuggerConnected | Sources/DeviceIdentifier/DeviceIdentifier.swift:11 | a debugger is reported exactly when bit 11 of the process flags is set |
| DeviceIdentifier.DebuggerOnlyTracedBit | Sources/DeviceIdentifier/DeviceIdentifier.swift:11 | with the P_TRACED bit set a debugger is reported; with it clear none is, whatever the other flags; a zeroed record reports none |
| DeviceIdentifier.IsSimulator | Sources/DeviceIdentifier/DeviceIdentifier.swift:15-21 | true for every build that is not a device build |
| DeviceIdentifier.IsRealDeviceAsWritten | Sources/DeviceIdentifier/DeviceIdentifier.swift:24-26 | as written, true exactly for a simulator build |
| DeviceIdentifier.IsRealDeviceAsWrittenInverted | Sources/DeviceIdentifier/DeviceIdentifier.swift:24-26 | for every build, `isRealDevice` as written equals `isSimulator` and differs from the documented meaning; a simulator build reports a real device |
| DeviceIdentifier.IsRealDevice | Sources/DeviceIdentifier/DeviceIdentifier.swift:23 | as the doc comment says, true exactly for a device build |
| DeviceIdentifier.RealDeviceIsComplement | Sources/DeviceIdentifier/DeviceIdentifier.swift:14-26 | as documented, exactly one of isSimulator and isRealDevice holds, and only a device build is real |
| DeviceIdentifier.DeviceModelName | Sources/DeviceIdentifier/DeviceIdentifier.swift:44-47 | modelName gives a name exactly when no element of the buffer is negative; its trap is deviceId's; the name is empty exactly when deviceId is |
| DeviceIdentifier.DeviceModelNameTraps | Sources/DeviceIdentifier/DeviceIdentifier.swift:44-47 | modelName traps exactly when the buffer has a negative element, at the same position as deviceId |
| DeviceIdentifier.DeviceModelNameOfBuffer | Sources/DeviceIdentifier/DeviceIdentifier.swift:44-194 | without a trap, modelName is the table's name for the buffer's non-zero characters |
| DeviceIdentifier.DeviceModelNameEmptyIff | Sources/DeviceIdentifier/DeviceIdentifier.swift:44-194 | without a trap, modelName is empty exactly when the buffer holds only zeros |
| DeviceIdentifier.DeviceModelNameZeroed | Sources/DeviceIdentifier/DeviceIdentifier.swift:29-47 | a buffer of zeros of any length gives deviceId "" and modelName "" |
| DeviceIdentifier.DeviceModelNameExample | Sources/DeviceIdentifier/DeviceIdentifier.swift:44-49 | the NUL-padded buffer spelling i386 gives "iOS Simulator 32-bit" |

## Left out

- The `sysctl` query behind `isDebuggerConnected` (lines 7-10) is a system call, and its result is ignored. The model takes the `p_flag` word as a parameter. So a failed query is covered only as the zeroed record it leaves behind.
- The `uname` call and the `Mirror` reflection behind `deviceId` (lines 30-32) are a system call and reflection. The model takes the `machine` buffer as a sequence of `Int8` values.
- The result of `uname` (line 31) is ignored as well. A failure that leaves the buffer zeroed is covered: `DeviceModelNameZeroed` shows that `deviceId` and `modelName` are then both "", and `DeviceModelNameEmptyIff` shows that only an all-zero buffer gives "". A failure that leaves other contents in the buffer is just another buffer.
- Every element of the reflected tuple is an `Int8`, so the `as? Int8` cast at line 35 always succeeds. Only its `value != 0` test is modelled.
- The fixed 256-element size of `utsname.machine` is not enforced. Every lemma holds for buffers of any length.
- `#if targetEnvironment(simulator)` (lines 16-20) is a compile-time setting. It is the `Target` parameter.
- `static let modelName` is computed lazily, once and thread-safely (line 44). Only the mapping is modelled, not the caching.
- `Package.swift` is packaging metadata with no logic. It is not part of this model.
- A trap is a runtime failure that ends the process. It appears as the `Trap` outcome instead.

Two facts about the code shape the model:
- `deviceId` does not stop at the first NUL. It skips every zero element and keeps reading (lines 35-37). `DecodePaddedIsCString` shows that this agrees with a C-string reading on NUL-padded buffers. `DecodeSkipsInteriorNul` shows an interior NUL where the two differ.
- `deviceId` has no error result. It returns a string or traps.

## Findings

| source | as written | input that shows it | evidently intended | confidence | as-written member | corrected member |
|---|---|---|---|---|---|---|
| Sources/DeviceIdentifier/DeviceIdentifier.swift:24-26 | `isRealDevice` returns `isSimulator` | a simulator build: `isRealDevice` is true, and on a device it is false | `!isSimulator`, as the doc comment at line 23 says | high; not executed | DeviceIdentifier.IsRealDeviceAsWrittenInverted | DeviceIdentifier.RealDeviceIsComplement |
