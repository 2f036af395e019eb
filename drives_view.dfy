/** VMConfigDrivesView: the VM's drive list. The list order is the boot
    order; drives are appended (created or imported), deleted by a set of
    offsets after a confirmation, and moved as a block. Each row is titled
    by a fixed rule. */
module DrivesView {
  import opened VmTypes
  import opened CollectionEdits

  const RemovableDriveLabel := "Removable Drive"
  const EfiVariablesLabel := "EFI Variables"
  const NewDriveLabel := "(new)"

  /** A row's title, by priority: a removable drive; then the EFI variables
      image (its file name is given); then the image's own name; else a
      drive not yet given an image. */
  function Label(d: DriveSettings, efiVariablesFileName: string): (title: string)
    ensures d.isRemovable ==> title == RemovableDriveLabel
    ensures !d.isRemovable && d.imageName == Some(efiVariablesFileName) ==> title == EfiVariablesLabel
    ensures !d.isRemovable && d.imageName.Some? && d.imageName.value != efiVariablesFileName ==>
      title == d.imageName.value
    ensures !d.isRemovable && d.imageName.None? ==> title == NewDriveLabel
  {
    if d.isRemovable then RemovableDriveLabel
    else if d.imageName == Some(efiVariablesFileName) then EfiVariablesLabel
    else if d.imageName.Some? then d.imageName.value
    else NewDriveLabel
  }

  /** The interface is named under the title only for disk and CD images. */
  function ShowsInterface(imageType: ImageType): (shown: bool)
    ensures shown <==> imageType == Disk || imageType == Cd
  {
    match imageType
    case Disk => true
    case Cd => true
    case _ => false
  }

  /** What the file picker reports when it fails. */
  datatype FileError = FileError(message: string)

  /** The part of the VM configuration this view edits. */
  class VmConfig {
    var system: System
    /** The drives, in boot order. */
    var drives: seq<Drive>

    constructor (system: System)
      ensures this.system == system && drives == []
    {
      this.system := system;
      drives := [];
    }
  }

  class DrivesListView {
    const config: VmConfig
    /** Offsets swiped for deletion, awaiting confirmation. */
    var attemptDelete: Option<set<int>>

    constructor (config: VmConfig)
      ensures this.config == config && attemptDelete == None
    {
      this.config := config;
      attemptDelete := None;
    }

    /** `newDrive`: the created drive boots last; the others stay as they were. */
    method NewDrive(drive: Drive)
      modifies config
      ensures config.drives == old(config.drives) + [drive]
      ensures config.system == old(config.system)
    {
      config.drives := config.drives + [drive];
    }

    /** `deleteDrives`: the drives at the offsets are gone; the rest keep
        their boot order. */
    method DeleteDrives(offsets: set<int>)
      requires ValidOffsets(offsets, |config.drives|)
      modifies config
      ensures config.drives == RemoveAtOffsets(old(config.drives), offsets)
      ensures |config.drives| == |old(config.drives)| - |offsets|
      ensures config.system == old(config.system)
    {
      config.drives := RemoveAtOffsets(config.drives, offsets);
    }

    /** `moveDrives`: the same drives, the moved ones as one block before the
        drive that was at `destination`. */
    method MoveDrives(source: set<int>, destination: int)
      requires ValidOffsets(source, |config.drives|) && 0 <= destination <= |config.drives|
      modifies config
      ensures config.drives == MoveOffsets(old(config.drives), source, destination)
      ensures multiset(config.drives) == multiset(old(config.drives))
      ensures config.system == old(config.system)
    {
      config.drives := MoveOffsets(config.drives, source, destination);
    }

    /** `importDrive`: on success a new removable drive for the chosen file,
        set up by `reset` for the VM's system, is appended; on failure the
        list is left alone and the picker's error is reported. `reset` stands
        for the drive's own reset, which makes the drive removable when asked
        to. */
    method ImportDrive(result: Result<Url, FileError>, reset: (Architecture, string, bool) -> DriveSettings)
      returns (reported: Option<FileError>)
      requires forall a, t, removable :: reset(a, t, removable).isRemovable == removable
      modifies config
      ensures config.system == old(config.system)
      ensures result.Failure? ==> config.drives == old(config.drives) && reported == Some(result.error)
      ensures result.Success? ==> reported == None
      ensures result.Success? ==>
        && |config.drives| == |old(config.drives)| + 1
        && config.drives[..|old(config.drives)|] == old(config.drives)
      ensures result.Success? ==>
        var d := config.drives[|old(config.drives)|];
        && fresh(d)
        && d.Settings() == reset(config.system.architecture, config.system.target, true).(imageURL := Some(result.value))
        && d.isRemovable
        && d.imageURL == Some(result.value)
    {
      match result
      case Success(url) =>
        var drive := new Drive(reset(config.system.architecture, config.system.target, true));
        drive.imageURL := Some(url);
        config.drives := config.drives + [drive];
        reported := None;
      case Failure(err) =>
        reported := Some(err);
    }

    /** Swiping rows only records their offsets; no drive is removed yet. */
    method OnDelete(offsets: set<int>)
      modifies this
      ensures attemptDelete == Some(offsets)
      ensures config.drives == old(config.drives)
    {
      attemptDelete := Some(offsets);
    }

    /** "Delete" in the confirmation sheet removes the recorded offsets;
        the sheet then closes. */
    method ConfirmDelete()
      requires attemptDelete.Some? ==> ValidOffsets(attemptDelete.value, |config.drives|)
      modifies this, config
      ensures old(attemptDelete).Some? ==> config.drives == RemoveAtOffsets(old(config.drives), old(attemptDelete).value)
      ensures old(attemptDelete).None? ==> config.drives == old(config.drives)
      ensures config.system == old(config.system)
      ensures attemptDelete == None
    {
      if attemptDelete.Some? {
        DeleteDrives(attemptDelete.value);
      }
      attemptDelete := None;
    }

    /** "Cancel" closes the sheet and keeps every drive. */
    method CancelDelete()
      modifies this
      ensures attemptDelete == None
      ensures config.drives == old(config.drives)
    {
      attemptDelete := None;
    }
  }
}
