/** `MinaBoxPositionProviderImpl`: resolves, for a registered item index, the
    offset at which the item is drawn, given an alignment inside the viewport
    shrunk by four paddings, and overriding any axis on which the item is
    locked with the current scroll value of that axis. */
module PositionProvider {
  import opened Geometry
  import opened Alignments
  import opened Items

  /** The provider's read-only state: the registered items by global index,
      the current layout direction and the viewport size. */
  datatype MinaBoxPositionProviderImpl = MinaBoxPositionProviderImpl(
    items: map<int, MinaBoxItem>,
    layoutDirection: LayoutDirection,
    size: Size
  )

  /** The item's resolved size, truncated to integers, as handed to the
      alignment. */
  function ItemSize(info: MinaBoxItem): IntSize {
    IntSize(ToInt(info.width.resolve()), ToInt(info.height.resolve()))
  }

  /** The viewport shrunk by the paddings, truncated to integers, as handed to
      the alignment. It is not clamped at zero. */
  function AlignmentSpace(p: MinaBoxPositionProviderImpl,
                          paddingStart: real, paddingTop: real,
                          paddingEnd: real, paddingBottom: real): IntSize
  {
    IntSize(ToInt(p.size.width - paddingStart - paddingEnd),
            ToInt(p.size.height - paddingTop - paddingBottom))
  }

  /** The single call the provider makes into `alignment`. */
  function AlignmentOffset(p: MinaBoxPositionProviderImpl, info: MinaBoxItem, alignment: Alignment,
                           paddingStart: real, paddingTop: real,
                           paddingEnd: real, paddingBottom: real): IntOffset
  {
    alignment.align(ItemSize(info),
                    AlignmentSpace(p, paddingStart, paddingTop, paddingEnd, paddingBottom),
                    p.layoutDirection)
  }

  /** `getOffset` with explicit current scroll values. An unknown index yields
      `Offset.Zero`; otherwise, on each axis, a locked item follows the
      current scroll value, and an unlocked item is placed so that its logical
      position is where its aligned, padded origin lands. */
  function GetOffsetWithCurrent(p: MinaBoxPositionProviderImpl, index: int, alignment: Alignment,
                                paddingStart: real, paddingTop: real,
                                paddingEnd: real, paddingBottom: real,
                                currentX: real, currentY: real): (r: Offset)
    ensures index !in p.items ==> r == Zero
    ensures index in p.items ==>
      var info := p.items[index];
      var offset := AlignmentOffset(p, info, alignment, paddingStart, paddingTop, paddingEnd, paddingBottom);
      && (info.lockHorizontally ==> r.x == currentX)
      && (!info.lockHorizontally ==> r.x + offset.x as real + paddingStart == info.x)
      && (info.lockVertically ==> r.y == currentY)
      && (!info.lockVertically ==> r.y + offset.y as real + paddingTop == info.y)
  {
    if index !in p.items then Zero
    else
      var info := p.items[index];
      var offset := AlignmentOffset(p, info, alignment, paddingStart, paddingTop, paddingEnd, paddingBottom);
      Offset(if info.lockHorizontally then currentX else info.x - offset.x as real - paddingStart,
             if info.lockVertically then currentY else info.y - offset.y as real - paddingTop)
  }

  /** The public `getOffset`: the scrolled form with both current scroll
      values at zero, so a locked axis always comes out as zero. */
  function GetOffset(p: MinaBoxPositionProviderImpl, index: int, alignment: Alignment,
                     paddingStart: real, paddingTop: real,
                     paddingEnd: real, paddingBottom: real): (r: Offset)
    ensures r == GetOffsetWithCurrent(p, index, alignment, paddingStart, paddingTop, paddingEnd, paddingBottom, 0.0, 0.0)
    ensures index !in p.items ==> r == Zero
    ensures index in p.items && p.items[index].lockHorizontally ==> r.x == 0.0
    ensures index in p.items && p.items[index].lockVertically ==> r.y == 0.0
  {
    GetOffsetWithCurrent(p, index, alignment, paddingStart, paddingTop, paddingEnd, paddingBottom, 0.0, 0.0)
  }

  /** The interface's default padding, for each of the four sides. */
  const DefaultPadding: real := 0.0

  /** `getOffset(index)` through the interface, every other argument at its
      declared default: centred alignment and no padding. An unknown index
      gives zero; an unlocked item sits half the leftover viewport before its
      logical position on each axis; a locked axis gives zero. */
  function GetOffsetDefaults(p: MinaBoxPositionProviderImpl, index: int): (r: Offset)
    ensures index !in p.items ==> r == Zero
    ensures index in p.items ==>
      var info := p.items[index];
      && (!info.lockHorizontally ==>
            r.x == info.x - RoundToInt((ToInt(p.size.width) - ToInt(info.width.resolve())) as real / 2.0) as real)
      && (!info.lockVertically ==>
            r.y == info.y - RoundToInt((ToInt(p.size.height) - ToInt(info.height.resolve())) as real / 2.0) as real)
      && (info.lockHorizontally ==> r.x == 0.0)
      && (info.lockVertically ==> r.y == 0.0)
  {
    GetOffset(p, index, Center, DefaultPadding, DefaultPadding, DefaultPadding, DefaultPadding)
  }
}
