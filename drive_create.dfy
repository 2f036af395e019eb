/** VMConfigDriveCreateView: the form that sets up a new drive. The size is
    shown and typed in GiB or MiB (whole numbers, 1024 MiB to the GiB) but
    always stored in MiB; leaving the size field clamps it to at least
    1 MiB; switching "Removable" picks the default interface again. */
module DriveCreate {
  import opened VmTypes

  /** MiB in one GiB. */
  const MibPerGib := 1024

  /** The smallest size, in MiB, the form leaves behind. */
  const MinSizeMib := 1

  /** Swift's `Int` is 64 bits wide and its arithmetic traps on overflow. */
  const IntMin := -0x8000_0000_0000_0000
  const IntMax := 0x7fff_ffff_ffff_ffff

  predicate InInt(x: int) {
    IntMin <= x <= IntMax
  }

  /** Swift's `/` on `Int`: the quotient truncated toward zero. */
  function TruncDiv(a: int, b: int): int
    requires b > 0
  {
    if a >= 0 then a / b else -((-a) / b)
  }

  /** `convertToMib`: the size typed in, as MiB. In GiB mode the result is
      a whole number of GiB, namely `size` of them; the multiplication must
      not overflow. */
  function ConvertToMib(size: int, isGiB: bool): (r: int)
    requires isGiB ==> InInt(size * MibPerGib)
    ensures !isGiB ==> r == size
    ensures isGiB ==> r % MibPerGib == 0 && TruncDiv(r, MibPerGib) == size
  {
    if isGiB then size * MibPerGib else size
  }

  /** `convertToDisplay`: the stored MiB as the number shown. In GiB mode it
      is the number of whole GiB, rounded toward zero. */
  function ConvertToDisplay(sizeMib: int, isGiB: bool): (r: int)
    ensures !isGiB ==> r == sizeMib
    ensures isGiB && sizeMib >= 0 ==> 0 <= r && r * MibPerGib <= sizeMib < r * MibPerGib + MibPerGib
    ensures isGiB && sizeMib < 0 ==> r <= 0 && r * MibPerGib - MibPerGib < sizeMib <= r * MibPerGib
  {
    if isGiB then TruncDiv(sizeMib, MibPerGib) else sizeMib
  }

  /** Typing a number and reading it back shows the same number. */
  lemma DisplayOfMib(size: int, isGiB: bool)
    requires isGiB ==> InInt(size * MibPerGib)
    ensures ConvertToDisplay(ConvertToMib(size, isGiB), isGiB) == size
  {
  }

  /** Showing a stored size in GiB and storing the shown number again loses
      less than one GiB, toward zero, and leaves a whole number of GiB. */
  lemma MibOfDisplay(sizeMib: int)
    requires InInt(sizeMib)
    ensures InInt(ConvertToDisplay(sizeMib, true) * MibPerGib)
    ensures var r := ConvertToMib(ConvertToDisplay(sizeMib, true), true);
      && r % MibPerGib == 0
      && (sizeMib >= 0 ==> sizeMib - MibPerGib < r <= sizeMib)
      && (sizeMib < 0 ==> sizeMib <= r < sizeMib + MibPerGib)
  {
  }

  /** The form over one drive, for a VM with the given system. */
  class DriveCreateView {
    const config: Drive
    const system: System
    /** Whether sizes are shown in GiB (else MiB); GiB at first. */
    var isGiB: bool

    constructor (config: Drive, system: System)
      ensures this.config == config && this.system == system && isGiB
    {
      this.config := config;
      this.system := system;
      isGiB := true;
    }

    /** The number in the size field. */
    function DisplayedSize(): int
      reads this, config
    {
      ConvertToDisplay(config.sizeMib, isGiB)
    }

    /** Typing into the size field stores the size in MiB and nothing else;
        the field then shows what was typed. */
    method SetDisplayedSize(size: int)
      requires isGiB ==> InInt(size * MibPerGib)
      modifies config
      ensures config.Settings() == old(config.Settings()).(sizeMib := ConvertToMib(size, isGiB))
      ensures DisplayedSize() == size
    {
      config.sizeMib := ConvertToMib(size, isGiB);
      DisplayOfMib(size, isGiB);
    }

    /** The GB/MB button switches the unit; the stored size stays. */
    method ToggleUnit()
      modifies this
      ensures isGiB == !old(isGiB)
    {
      isGiB := !isGiB;
    }

    /** `validateSize`: while editing nothing happens; when editing ends a
        size below the minimum becomes the minimum, and nothing else
        changes. */
    method ValidateSize(editing: bool)
      modifies config
      ensures editing ==> config.Settings() == old(config.Settings())
      ensures !editing ==> (config.Settings() ==
        old(config.Settings()).(sizeMib := if old(config.sizeMib) < MinSizeMib then MinSizeMib else old(config.sizeMib)))
      ensures !editing ==> config.sizeMib >= MinSizeMib
    {
      if editing {
        return;
      }
      if config.sizeMib < MinSizeMib {
        config.sizeMib := MinSizeMib;
      }
    }

    /** The "Removable" toggle: when its value changes, the interface is
        reset to the default for the system and the image type; nothing
        else changes. Setting it to the value it has does nothing. */
    method SetRemovable(removable: bool, defaultInterface: (Architecture, string, ImageType) -> Interface)
      modifies config
      ensures removable != old(config.isRemovable) ==> (config.Settings() ==
        old(config.Settings()).(isRemovable := removable,
                                interface := defaultInterface(system.architecture, system.target, old(config.imageType))))
      ensures removable == old(config.isRemovable) ==> config.Settings() == old(config.Settings())
    {
      if removable != config.isRemovable {
        config.isRemovable := removable;
        config.interface := defaultInterface(system.architecture, system.target, config.imageType);
      }
    }
  }
}
