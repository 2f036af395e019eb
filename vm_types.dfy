/** Value types shared by the configuration model and the drive views:
    optional values and results, the guest architecture, the host that
    runs the emulator, and the drive record that the views edit in place. */
module VmTypes {

  datatype Option<+T> = None | Some(value: T)

  /** Success or failure; usable with `:-`. */
  datatype Result<+R, +E> = Success(value: R) | Failure(error: E) {
    predicate IsFailure() {
      Failure?
    }

    function PropagateFailure<U>(): Result<U, E>
      requires Failure?
    {
      Failure(error)
    }

    function Extract(): R
      requires Success?
    {
      value
    }
  }

  /** A file URL, kept as its path text. */
  datatype Url = Url(path: string)

  /** The guest CPU family (QEMUArchitecture). Only the three families the
      configuration logic distinguishes are named; every other one is `Other`. */
  datatype Architecture = Arm | Aarch64 | X86_64 | Other(name: string)

  /** The CPU family and operating system of the machine that runs UTM. */
  datatype HostCpu = HostArm64 | HostX86_64 | HostOtherCpu
  datatype HostOs = MacOS | IOS | OtherOs
  datatype Host = Host(cpu: HostCpu, os: HostOs)

  /** The guest's architecture and QEMU machine target (raw value). */
  datatype System = System(architecture: Architecture, target: string)

  /** Bus through which a drive image is attached to the guest. */
  datatype Interface = NoInterface | Ide | Scsi | Sd | Mtd | Floppy | Pflash | Virtio | Nvme | Usb

  /** What a drive image holds. */
  datatype ImageType = NoImage | Disk | Cd | Bios | LinuxKernel | LinuxInitrd | LinuxDtb

  /** The value of every field of a drive at one moment. */
  datatype DriveSettings = DriveSettings(
    interface: Interface,
    isRemovable: bool,
    sizeMib: int,
    isRawImage: bool,
    imageURL: Option<Url>,
    imageName: Option<string>,
    imageType: ImageType)

  /** A drive of the VM (UTMQemuConfigurationDrive); the views change its
      fields in place and the drive list holds references to it. */
  class Drive {
    var interface: Interface
    var isRemovable: bool
    var sizeMib: int
    var isRawImage: bool
    var imageURL: Option<Url>
    var imageName: Option<string>
    var imageType: ImageType

    function Settings(): DriveSettings
      reads this
    {
      DriveSettings(interface, isRemovable, sizeMib, isRawImage, imageURL, imageName, imageType)
    }

    constructor (s: DriveSettings)
      ensures Settings() == s
    {
      interface := s.interface;
      isRemovable := s.isRemovable;
      sizeMib := s.sizeMib;
      isRawImage := s.isRawImage;
      imageURL := s.imageURL;
      imageName := s.imageName;
      imageType := s.imageType;
    }
  }
}
