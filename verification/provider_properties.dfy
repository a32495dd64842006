/** Properties of `MinaBoxPositionProviderImpl.getOffset` that relate several
    calls: what the result does not depend on, how it reacts to paddings and
    layout direction, and the worked examples of the centred default. */
module ProviderProperties {
  import opened Geometry
  import opened Alignments
  import opened Items
  import opened PositionProvider

  /** The provider with the item at `index` replaced by `info`. */
  function WithItem(p: MinaBoxPositionProviderImpl, index: int, info: MinaBoxItem): MinaBoxPositionProviderImpl {
    p.(items := p.items[index := info])
  }

  /** The x component never depends on the item's `y`, its vertical lock or
      the current vertical scroll value. */
  lemma XIgnoresVerticalData(p: MinaBoxPositionProviderImpl, index: int, alignment: Alignment,
                             paddingStart: real, paddingTop: real, paddingEnd: real, paddingBottom: real,
                             currentX: real, currentY: real,
                             y': real, lockVertically': bool, currentY': real)
    requires index in p.items
    ensures
      var q := WithItem(p, index, p.items[index].(y := y', lockVertically := lockVertically'));
      GetOffsetWithCurrent(q, index, alignment, paddingStart, paddingTop, paddingEnd, paddingBottom, currentX, currentY').x
      == GetOffsetWithCurrent(p, index, alignment, paddingStart, paddingTop, paddingEnd, paddingBottom, currentX, currentY).x
  {
  }

  /** The y component never depends on the item's `x`, its horizontal lock or
      the current horizontal scroll value. */
  lemma YIgnoresHorizontalData(p: MinaBoxPositionProviderImpl, index: int, alignment: Alignment,
                               paddingStart: real, paddingTop: real, paddingEnd: real, paddingBottom: real,
                               currentX: real, currentY: real,
                               x': real, lockHorizontally': bool, currentX': real)
    requires index in p.items
    ensures
      var q := WithItem(p, index, p.items[index].(x := x', lockHorizontally := lockHorizontally'));
      GetOffsetWithCurrent(q, index, alignment, paddingStart, paddingTop, paddingEnd, paddingBottom, currentX', currentY).y
      == GetOffsetWithCurrent(p, index, alignment, paddingStart, paddingTop, paddingEnd, paddingBottom, currentX, currentY).y
  {
  }

  /** Only the entry at `index` is read: registering, replacing or removing
      any other item leaves the result unchanged. */
  lemma OnlyOwnEntryIsRead(p: MinaBoxPositionProviderImpl, index: int, other: int, info: MinaBoxItem,
                           alignment: Alignment,
                           paddingStart: real, paddingTop: real, paddingEnd: real, paddingBottom: real,
                           currentX: real, currentY: real)
    requires other != index
    ensures
      GetOffsetWithCurrent(WithItem(p, other, info), index, alignment,
                           paddingStart, paddingTop, paddingEnd, paddingBottom, currentX, currentY)
      == GetOffsetWithCurrent(p, index, alignment, paddingStart, paddingTop, paddingEnd, paddingBottom, currentX, currentY)
    ensures
      GetOffsetWithCurrent(p.(items := p.items - {other}), index, alignment,
                           paddingStart, paddingTop, paddingEnd, paddingBottom, currentX, currentY)
      == GetOffsetWithCurrent(p, index, alignment, paddingStart, paddingTop, paddingEnd, paddingBottom, currentX, currentY)
  {
  }

  /** The alignment is consulted once, on the item's truncated size, the
      padded space and the provider's own layout direction: two alignments
      that agree there give the same offset. */
  lemma AlignmentSeesOnlyItsInputs(p: MinaBoxPositionProviderImpl, index: int, a1: Alignment, a2: Alignment,
                                   paddingStart: real, paddingTop: real, paddingEnd: real, paddingBottom: real,
                                   currentX: real, currentY: real)
    requires index in p.items
    requires
      var space := AlignmentSpace(p, paddingStart, paddingTop, paddingEnd, paddingBottom);
      a1.align(ItemSize(p.items[index]), space, p.layoutDirection)
      == a2.align(ItemSize(p.items[index]), space, p.layoutDirection)
    ensures
      GetOffsetWithCurrent(p, index, a1, paddingStart, paddingTop, paddingEnd, paddingBottom, currentX, currentY)
      == GetOffsetWithCurrent(p, index, a2, paddingStart, paddingTop, paddingEnd, paddingBottom, currentX, currentY)
  {
  }

  /** Moving `d` pixels of padding from the end side to the start side keeps
      the alignment space, so an unlocked x moves by exactly `-d` and y stays. */
  lemma PaddingTransferShiftsX(p: MinaBoxPositionProviderImpl, index: int, alignment: Alignment,
                               paddingStart: real, paddingTop: real, paddingEnd: real, paddingBottom: real,
                               currentX: real, currentY: real, d: real)
    requires index in p.items && !p.items[index].lockHorizontally
    ensures
      var before := GetOffsetWithCurrent(p, index, alignment, paddingStart, paddingTop, paddingEnd, paddingBottom, currentX, currentY);
      var after := GetOffsetWithCurrent(p, index, alignment, paddingStart + d, paddingTop, paddingEnd - d, paddingBottom, currentX, currentY);
      after == Offset(before.x - d, before.y)
  {
  }

  /** Moving `d` pixels of padding from the bottom to the top keeps the
      alignment space, so an unlocked y moves by exactly `-d` and x stays. */
  lemma PaddingTransferShiftsY(p: MinaBoxPositionProviderImpl, index: int, alignment: Alignment,
                               paddingStart: real, paddingTop: real, paddingEnd: real, paddingBottom: real,
                               currentX: real, currentY: real, d: real)
    requires index in p.items && !p.items[index].lockVertically
    ensures
      var before := GetOffsetWithCurrent(p, index, alignment, paddingStart, paddingTop, paddingEnd, paddingBottom, currentX, currentY);
      var after := GetOffsetWithCurrent(p, index, alignment, paddingStart, paddingTop + d, paddingEnd, paddingBottom - d, currentX, currentY);
      after == Offset(before.x, before.y - d)
  {
  }

  /** Padding wider than the viewport is not clamped: the alignment is handed
      a negative width, and likewise for height. */
  lemma OverlargePaddingIsNotClamped(p: MinaBoxPositionProviderImpl,
                                     paddingStart: real, paddingTop: real, paddingEnd: real, paddingBottom: real)
    ensures p.size.width - paddingStart - paddingEnd <= -1.0
            ==> AlignmentSpace(p, paddingStart, paddingTop, paddingEnd, paddingBottom).width < 0
    ensures p.size.height - paddingTop - paddingBottom <= -1.0
            ==> AlignmentSpace(p, paddingStart, paddingTop, paddingEnd, paddingBottom).height < 0
  {
  }

  /** A wider viewport or a narrower start padding never gives a narrower
      alignment space; likewise a taller viewport or a smaller top padding
      never gives a shorter one. */
  lemma AlignmentSpaceMonotone(p: MinaBoxPositionProviderImpl,
                               paddingStart: real, paddingTop: real, paddingEnd: real, paddingBottom: real,
                               width': real, height': real, paddingStart': real, paddingTop': real)
    requires p.size.width <= width' && paddingStart' <= paddingStart
    requires p.size.height <= height' && paddingTop' <= paddingTop
    ensures
      var wider := p.(size := Size(width', height'));
      && AlignmentSpace(p, paddingStart, paddingTop, paddingEnd, paddingBottom).width
         <= AlignmentSpace(wider, paddingStart', paddingTop', paddingEnd, paddingBottom).width
      && AlignmentSpace(p, paddingStart, paddingTop, paddingEnd, paddingBottom).height
         <= AlignmentSpace(wider, paddingStart', paddingTop', paddingEnd, paddingBottom).height
  {
    ToIntMonotone(p.size.width - paddingStart - paddingEnd, width' - paddingStart' - paddingEnd);
    ToIntMonotone(p.size.height - paddingTop - paddingBottom, height' - paddingTop' - paddingBottom);
  }

  /** Under the bias model, switching the provider to right-to-left layout is
      the same as mirroring the horizontal bias; y is unaffected. */
  lemma RtlMirrorsHorizontalBias(p: MinaBoxPositionProviderImpl, index: int, h: real, v: real,
                                 paddingStart: real, paddingTop: real, paddingEnd: real, paddingBottom: real,
                                 currentX: real, currentY: real)
    ensures
      GetOffsetWithCurrent(p.(layoutDirection := Rtl), index, BiasAlignment(h, v),
                           paddingStart, paddingTop, paddingEnd, paddingBottom, currentX, currentY)
      == GetOffsetWithCurrent(p.(layoutDirection := Ltr), index, BiasAlignment(-h, v),
                              paddingStart, paddingTop, paddingEnd, paddingBottom, currentX, currentY)
    ensures
      GetOffsetWithCurrent(p.(layoutDirection := Rtl), index, BiasAlignment(h, v),
                           paddingStart, paddingTop, paddingEnd, paddingBottom, currentX, currentY).y
      == GetOffsetWithCurrent(p.(layoutDirection := Ltr), index, BiasAlignment(h, v),
                              paddingStart, paddingTop, paddingEnd, paddingBottom, currentX, currentY).y
  {
    if index in p.items {
      var info := p.items[index];
      var space := AlignmentSpace(p, paddingStart, paddingTop, paddingEnd, paddingBottom);
      assert AlignmentSpace(p.(layoutDirection := Rtl), paddingStart, paddingTop, paddingEnd, paddingBottom) == space;
      assert AlignmentSpace(p.(layoutDirection := Ltr), paddingStart, paddingTop, paddingEnd, paddingBottom) == space;
      BiasMirroring(h, v, ItemSize(info), space);
    }
  }

  /** A size specification that always resolves to `pixels`. */
  function Fixed(pixels: real): Value {
    Value(() => pixels)
  }

  /** A 20 x 10 item registered at (100, 50), optionally pinned horizontally. */
  function SampleItem(lockHorizontally: bool): MinaBoxItem {
    MinaBoxItem(100.0, 50.0, Fixed(20.0), Fixed(10.0), lockHorizontally, false)
  }

  /** A 200 x 100 left-to-right viewport holding `SampleItem` at index 5. */
  function SampleProvider(lockHorizontally: bool): MinaBoxPositionProviderImpl {
    MinaBoxPositionProviderImpl(map[5 := SampleItem(lockHorizontally)], Ltr, Size(200.0, 100.0))
  }

  /** Centred in 200 x 100 with no padding, the 20 x 10 item at (100, 50) is
      drawn at (100 - 90, 50 - 45) = (10, 5). */
  lemma CentredExample()
    ensures GetOffsetDefaults(SampleProvider(false), 5) == Offset(10.0, 5.0)
  {
  }

  /** The same item pinned horizontally, with current horizontal scroll 37,
      is drawn at x = 37 whatever its logical x; y is unchanged. */
  lemma LockedExample()
    ensures GetOffsetWithCurrent(SampleProvider(true), 5, Center, 0.0, 0.0, 0.0, 0.0, 37.0, 0.0) == Offset(37.0, 5.0)
  {
  }

  /** Index 99 was never registered, so it is drawn at the origin. */
  lemma AbsentExample()
    ensures GetOffsetDefaults(SampleProvider(false), 99) == Zero
  {
  }
}
