/** The display-mode record (`DEVMODE`) and the one update the program makes to it:
    overwrite the pixel width, the pixel height and the field mask, keep the rest. */
module Display {
  import opened Types

  /** `DEVMODE` as the program declares it, field for field. The record is only ever
      filled in by the operating system and handed back to it, so every field is a
      plain value here; the two strings stand for the fixed-size character buffers. */
  datatype DevMode = DevMode(
    deviceName: string,
    specVersion: int16,
    driverVersion: int16,
    size: int16,
    driverExtra: int16,
    fields: int32,
    positionX: int32,
    positionY: int32,
    displayOrientation: int32,
    displayFixedOutput: int32,
    color: int16,
    duplex: int16,
    yResolution: int16,
    ttOption: int16,
    collate: int16,
    formName: string,
    logPixels: int16,
    bitsPerPel: int16,
    pelsWidth: int32,
    pelsHeight: int32,
    displayFlags: int32,
    nup: int32,
    displayFrequency: int32)

  /** `DM_PELSWIDTH` and `DM_PELSHEIGHT`: the bits of `fields` that say which members
      of the record a change request means to set. */
  const DmPelsWidth: bv32 := 0x0008_0000
  const DmPelsHeight: bv32 := 0x0010_0000

  /** `DM_PELSWIDTH | DM_PELSHEIGHT`, the mask every change request carries. */
  const PelsFieldsMask: int32 := 0x0018_0000

  /** The mask every change request carries is exactly the union of the two bits,
      and the two bits are distinct. */
  lemma PelsFieldsMaskIsBothBits()
    ensures (DmPelsWidth | DmPelsHeight) as int == PelsFieldsMask as int
    ensures DmPelsWidth & DmPelsHeight == 0
  {
  }

  /** Every member of the record except the three a change request sets. */
  predicate SameOutsideResolution(a: DevMode, b: DevMode)
  {
    a.deviceName == b.deviceName && a.specVersion == b.specVersion &&
    a.driverVersion == b.driverVersion && a.size == b.size &&
    a.driverExtra == b.driverExtra && a.positionX == b.positionX &&
    a.positionY == b.positionY && a.displayOrientation == b.displayOrientation &&
    a.displayFixedOutput == b.displayFixedOutput && a.color == b.color &&
    a.duplex == b.duplex && a.yResolution == b.yResolution &&
    a.ttOption == b.ttOption && a.collate == b.collate &&
    a.formName == b.formName && a.logPixels == b.logPixels &&
    a.bitsPerPel == b.bitsPerPel && a.displayFlags == b.displayFlags &&
    a.nup == b.nup && a.displayFrequency == b.displayFrequency
  }

  /** The record `ChangeResolution` submits: the queried record with the requested
      width and height and a mask naming exactly those two members. */
  function WithResolution(dm: DevMode, width: int32, height: int32): (r: DevMode)
    ensures r.pelsWidth == width && r.pelsHeight == height
    ensures r.fields == PelsFieldsMask
    ensures SameOutsideResolution(dm, r)
  {
    dm.(pelsWidth := width, pelsHeight := height, fields := PelsFieldsMask)
  }

  /** The three assignments determine the submitted record completely: any record
      that agrees with the queried one outside them and carries the requested
      width, height and mask is the one submitted, and conversely. */
  lemma WithResolutionCharacterised(dm: DevMode, width: int32, height: int32, r: DevMode)
    ensures r == WithResolution(dm, width, height) <==>
              (SameOutsideResolution(dm, r) && r.pelsWidth == width &&
               r.pelsHeight == height && r.fields == PelsFieldsMask)
  {
  }

  /** Submitting a record's own width and height changes nothing but the mask, and
      a second update replaces the first: the last width and height requested win. */
  lemma WithResolutionOverwrites(dm: DevMode, w1: int32, h1: int32, w2: int32, h2: int32)
    ensures WithResolution(WithResolution(dm, w1, h1), w2, h2) == WithResolution(dm, w2, h2)
    ensures WithResolution(dm, dm.pelsWidth, dm.pelsHeight) == dm.(fields := PelsFieldsMask)
  {
  }
}
