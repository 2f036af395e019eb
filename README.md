# UTM QEMU tweaks and drive editing, in Dafny

This project models three pieces of UTM, the QEMU front end for macOS and iOS:

- **`UTMQemuConfigurationQEMU`**: the "QEMU tweaks" part of a VM configuration
  (module `QemuTweaks`). It has eight feature flags, an optional machine-property
  override and a list of extra QEMU arguments. These are persisted under fixed
  coding keys ("DebugLog", "UEFIBoot", ...). The VM bundle location `dataURL` is
  never persisted; it is taken from the decoder's context.
  - A fresh object for an architecture and machine target derives UEFI, the RNG
    device and the hypervisor from the target, the architecture and the host.
  - An old-format configuration is migrated field by field.
  - The class is a Dafny `class` with the same fields. The persisted form is a
    keyed container (`map<CodingKey, Value>`), written out as a document
    (`map<string, Value>`) under the keys' raw strings.
- **`VMConfigDriveCreateView`**: the new-drive form (module `DriveCreate`).
  - Sizes are shown in GiB or MiB, with truncating integer division and 1024 MiB
    to the GiB, and stored in MiB.
  - Leaving the size field clamps the size to at least 1 MiB.
  - Flipping "Removable" resets the drive's interface to the default.
  - The drive is a `class` whose fields the form changes in place.
- **`VMConfigDrivesView`** on iOS: the drive list, in boot order (module `DrivesView`).
  - Drives are appended when created or imported.
  - A swipe records the offsets to delete; the confirmation deletes them.
  - Drives are moved as a block.
  - Each row gets a title and, for disk and CD images, an interface caption.
  - `remove(atOffsets:)` and `move(fromOffsets:toOffset:)` are given their
    documented meaning in module `CollectionEdits`. Lemmas there show what they
    keep: survivors in order, a moved block in order, the same drives.

Shared value types (architecture, host, interface, image type, the drive class)
are in module `VmTypes`.

## Model

| member | source | states |
|---|---|---|
| QemuTweaks.QemuConfig.constructor | Configuration/UTMQemuConfigurationQEMU.swift:23-69 | `init()`: every flag false, no override, no arguments, no location |
| QemuTweaks.QemuConfig.ForArchitecture | Configuration/UTMQemuConfigurationQEMU.swift:105-124 | UEFI and RNG are on exactly for a "pc"/"q35"-prefixed target (any architecture) or an ARM guest on "virt"/"virt-…". The hypervisor is on exactly when a macOS host's CPU family is the guest's. Every other flag is off; no override, no arguments |
| QemuTweaks.QemuConfig.Migrating | Configuration/UTMQemuConfigurationQEMU.swift:131-143 | The six old flags and the machine properties are copied as they are. Balloon and TPM stay off. An absent argument list becomes empty, otherwise each string is wrapped. `dataURL` is the old bundle path |
| QemuTweaks.WrapArguments | Configuration/UTMQemuConfigurationQEMU.swift:140-142 | Same length and order; element i wraps string i |
| QemuTweaks.Field | Configuration/UTMQemuConfigurationQEMU.swift:86-98 | Every key gets a value except the override when there is none; no value written is null |
| QemuTweaks.EncodeContainer | Configuration/UTMQemuConfigurationQEMU.swift:86-98 | The container has every key but a missing override, and carries exactly the fields |
| QemuTweaks.DecodeBool | Configuration/UTMQemuConfigurationQEMU.swift:73-80 | Succeeds iff the key holds a boolean, which is the result. Otherwise the error is key-not-found, value-not-found (null) or type-mismatch, matching the entry |
| QemuTweaks.DecodeOptionalString | Configuration/UTMQemuConfigurationQEMU.swift:81 | Absent or null gives none, a string gives that string, and anything else is a type mismatch |
| QemuTweaks.DecodeArguments | Configuration/UTMQemuConfigurationQEMU.swift:82 | Succeeds iff the key holds an argument list, which is the result; the error matches the entry |
| QemuTweaks.DecodeContainer | Configuration/UTMQemuConfigurationQEMU.swift:71-82 | Succeeds exactly on well-formed containers; a failure names a key whose entry it describes |
| QemuTweaks.DecodeCarries | Configuration/UTMQemuConfigurationQEMU.swift:71-82 | The decoded fields are what the container holds under their keys |
| QemuTweaks.CarriesUnique | Configuration/UTMQemuConfigurationQEMU.swift:86-98 | A container carries at most one set of persisted fields |
| QemuTweaks.CarriesWellFormed | Configuration/UTMQemuConfigurationQEMU.swift:71-98 | Whatever carries fields decodes |
| QemuTweaks.DecodeEncodeContainer | Configuration/UTMQemuConfigurationQEMU.swift:71-98 | Decoding the encoded container gives back every persisted field |
| QemuTweaks.EncodeDecodeContainer | Configuration/UTMQemuConfigurationQEMU.swift:71-98 | Re-encoding what decoded writes the same value under every key it writes. The only key it drops is a null override |
| QemuTweaks.KeyNamedInverse | Configuration/UTMQemuConfigurationQEMU.swift:55-66 | Raw key strings and coding keys correspond one to one |
| QemuTweaks.KeyedView | Configuration/UTMQemuConfigurationQEMU.swift:72 | A document read through the coding keys shows exactly its entries under the keys' raw strings |
| QemuTweaks.Document | Configuration/UTMQemuConfigurationQEMU.swift:87 | A container written out has raw key strings only and reads back as the same container |
| QemuTweaks.Encode | Configuration/UTMQemuConfigurationQEMU.swift:86-98 | The document has raw key strings only, so nothing for `dataURL`. It always has the eight flags and "AdditionalArguments", and "MachinePropertyOverride" exactly when there is one |
| QemuTweaks.Decode | Configuration/UTMQemuConfigurationQEMU.swift:71-82 | Succeeds exactly when the keyed view is well formed; a key reported missing has no entry |
| QemuTweaks.DecodeNeedsKey | Configuration/UTMQemuConfigurationQEMU.swift:73-82 | A document lacking any flag or the argument list does not decode |
| QemuTweaks.DecodeAbsentOverride | Configuration/UTMQemuConfigurationQEMU.swift:81 | A document without the override decodes to no override |
| QemuTweaks.DecodeEncode | Configuration/UTMQemuConfigurationQEMU.swift:71-98 | decode(encode(x)) == x on every persisted field |
| QemuTweaks.EncodeDecode | Configuration/UTMQemuConfigurationQEMU.swift:71-98 | A decodable document is written back with the same entry under every written key; the only coding key lost is a null override |
| QemuTweaks.QemuConfig.Restored | Configuration/UTMQemuConfigurationQEMU.swift:73-83 | The object holds the given persisted fields and location |
| QemuTweaks.QemuConfig.InitFromDecoder | Configuration/UTMQemuConfigurationQEMU.swift:71-84 | Fails exactly on ill-formed documents, with the decoder's error. Otherwise it builds a fresh object with the decoded fields and the context's `dataURL` |
| QemuTweaks.SaveThenLoad | Configuration/UTMQemuConfigurationQEMU.swift:22-98 | Saving and loading keeps every persisted field; `dataURL` is the loading context's, never the saved object's |
| CollectionEdits.RemoveAtOffsets | Platform/iOS/VMConfigDrivesView.swift:117-119 | The length drops by the number of offsets; the survivors and the removed elements together are the original multiset |
| CollectionEdits.RemoveKeepsOrder | Platform/iOS/VMConfigDrivesView.swift:117-119 | The j-th survivor is the element at the j-th smallest index not removed, so the boot order of the rest is kept |
| CollectionEdits.RemoveNothing | Platform/iOS/VMConfigDrivesView.swift:117-119 | Removing no offsets changes nothing |
| CollectionEdits.MoveOffsets | Platform/iOS/VMConfigDrivesView.swift:121-123 | The same length and the same elements (a permutation) |
| CollectionEdits.MoveBlock | Platform/iOS/VMConfigDrivesView.swift:121-123 | The moved elements form one block in their original order, after the unmoved elements that were before the destination. Removing the block leaves what removing the offsets leaves |
| CollectionEdits.MoveNothing | Platform/iOS/VMConfigDrivesView.swift:121-123 | Moving no offsets changes nothing |
| DriveCreate.ConvertToMib | Platform/Shared/VMConfigDriveCreateView.swift:67-73 | In MiB mode the size itself; in GiB mode a multiple of 1024 whose truncated quotient is the size |
| DriveCreate.ConvertToDisplay | Platform/Shared/VMConfigDriveCreateView.swift:75-81 | In MiB mode the size itself; in GiB mode the whole number of GiB rounded toward zero, for either sign |
| DriveCreate.DisplayOfMib | Platform/Shared/VMConfigDriveCreateView.swift:67-81 | convertToDisplay(convertToMib(n)) == n in both modes, wherever n*1024 does not overflow |
| DriveCreate.MibOfDisplay | Platform/Shared/VMConfigDriveCreateView.swift:67-81 | In GiB mode, storing the shown value gives a multiple of 1024 less than one GiB from the stored size, toward zero |
| DriveCreate.DriveCreateView.constructor | Platform/Shared/VMConfigDriveCreateView.swift:24-26 | The form starts in GiB mode |
| DriveCreate.DriveCreateView.SetDisplayedSize | Platform/Shared/VMConfigDriveCreateView.swift:39-43 | Typing a size stores it in MiB and changes no other field; the field then shows what was typed |
| DriveCreate.DriveCreateView.ToggleUnit | Platform/Shared/VMConfigDriveCreateView.swift:46 | The unit switches between GiB and MiB |
| DriveCreate.DriveCreateView.ValidateSize | Platform/Shared/VMConfigDriveCreateView.swift:58-65 | While editing nothing changes. After editing, a size below 1 MiB becomes 1 MiB and nothing else changes |
| DriveCreate.DriveCreateView.SetRemovable | Platform/Shared/VMConfigDriveCreateView.swift:30-34 | When the removable flag changes, the interface becomes the default for the system and image type and nothing else changes; setting the same value does nothing |
| DrivesView.Label | Platform/iOS/VMConfigDrivesView.swift:41-50 | Title by priority: "Removable Drive", then "EFI Variables" for the EFI variables image, then the image name, then "(new)" |
| DrivesView.ShowsInterface | Platform/iOS/VMConfigDrivesView.swift:53-56 | The interface caption is shown exactly for disk and CD images |
| DrivesView.DrivesListView.constructor | Platform/iOS/VMConfigDrivesView.swift:23-25 | No delete is pending at first |
| DrivesView.DrivesListView.NewDrive | Platform/iOS/VMConfigDrivesView.swift:113-115 | The drive is appended; every earlier drive stays in place |
| DrivesView.DrivesListView.DeleteDrives | Platform/iOS/VMConfigDrivesView.swift:117-119 | The drives become `remove(atOffsets:)` of the old ones; the length drops by the number of offsets |
| DrivesView.DrivesListView.MoveDrives | Platform/iOS/VMConfigDrivesView.swift:121-123 | The drives become `move(fromOffsets:toOffset:)` of the old ones, the same drives |
| DrivesView.DrivesListView.ImportDrive | Platform/iOS/VMConfigDrivesView.swift:96-110 | On success exactly one fresh drive is appended, reset for the VM's system as removable and pointing at the chosen URL, with earlier drives in place. On failure the list is unchanged and the error is reported |
| DrivesView.DrivesListView.OnDelete | Platform/iOS/VMConfigDrivesView.swift:60-62 | A swipe records the offsets and leaves the drives unchanged |
| DrivesView.DrivesListView.ConfirmDelete | Platform/iOS/VMConfigDrivesView.swift:89-92 | "Delete" removes the recorded offsets and clears them |
| DrivesView.DrivesListView.CancelDelete | Platform/iOS/VMConfigDrivesView.swift:89-90 | "Cancel" clears the pending offsets and keeps every drive |

## Left out

- SwiftUI rendering and layout are not modelled. This covers forms, navigation links, toolbars, sheets, the action sheet's presentation, the file importer, the `triggerRefresh` redraw hack, the "No drives added." placeholder and the previews. Only the state changes they trigger are modelled.
- The `CreateDrive` sheet (Platform/iOS/VMConfigDrivesView.swift:128-160) is not modelled as a view. Its "Done" button hands its drive to `NewDrive`. Its reset on appearing is the drive's own reset, which is not part of this model.
- Platform/Shared/VMConfigNetworkView.swift is not part of this model. It is form wiring, plus a random MAC address.
- `busyWorkAsync` and `MainActor.run` in `importDrive` are concurrency. Only the resulting append and the reported error are modelled.
- The `@Published`/`ObservableObject` change notifications are not modelled; the fields are plain mutable fields.
- The JSON/property-list Codable engine is not modelled. The document is an abstract string-to-value map, and the keyed container a map over coding keys. Not modelled: the failure of `container(keyedBy:)` on a payload that is not keyed, and the element-level decoding inside a `QEMUArgument` list.
- `QEMUArgument`'s internals, `UTMQemuConfigurationDrive.defaultInterface`, the drive's `reset` and `QEMUPackageFileName` are not part of this model. Where behaviour depends on them they are parameters: `defaultInterface`, `reset`, and the EFI-variables file name passed to the title rule.
- The compile-time `#if arch(...) && os(...)` choice is replaced by a host parameter (CPU family and OS).
- `QEMUArchitecture` is reduced to the three families the logic distinguishes; every other architecture is `Other(name)`. `QEMUTarget` is its raw string.
- The drive record has no "size at least 1 MiB" invariant; only the form clamps it.
- The decoder's `userInfo[.dataURL] as? URL` is given as an optional URL parameter.
- DrivesView.DrivesListView.ImportDrive: assumes the drive's `reset` makes the drive removable when asked to (a precondition on the `reset` parameter), because `reset` is not part of this model.
- DriveCreate.ConvertToMib: the overflow trap of Swift's 64-bit multiplication is a precondition (the product must fit in `Int`), not a modelled crash.
- DriveCreate.DriveCreateView.SetDisplayedSize: has the same overflow precondition.
