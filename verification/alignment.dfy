/** Compose's `Alignment`: a capability that, given the size of an item, the
    space it is aligned in and the layout direction, yields the item's offset
    inside that space.

    The provider only ever calls `align`; Compose's own implementation is not
    part of this model, so an alignment is an arbitrary (uninterpreted)
    function of those three inputs. `BiasAlignment` and `Center` below give
    the one concrete alignment the provider names, its default; their formula
    is an ASSUMPTION about Compose, stated here and not derived from the
    provider's source. */
module Alignments {
  import opened Geometry

  datatype Alignment = Alignment(align: (IntSize, IntSize, LayoutDirection) -> IntOffset)

  /** ASSUMPTION: Compose's bias alignment. Each axis places the item at
      `(space - size) / 2 * (1 + bias)`, rounded to an integer, where a bias
      of -1 is the start edge, 0 the centre and 1 the end edge; right-to-left
      layout negates the horizontal bias. */
  function BiasAlignment(horizontalBias: real, verticalBias: real): Alignment {
    Alignment((size: IntSize, space: IntSize, layoutDirection: LayoutDirection) =>
      BiasAlign(horizontalBias, verticalBias, size, space, layoutDirection))
  }

  /** The `align` function of `BiasAlignment(horizontalBias, verticalBias)`. */
  function BiasAlign(horizontalBias: real, verticalBias: real,
                     size: IntSize, space: IntSize, layoutDirection: LayoutDirection): IntOffset
  {
    var centerX := (space.width - size.width) as real / 2.0;
    var centerY := (space.height - size.height) as real / 2.0;
    var resolvedHorizontalBias := if layoutDirection == Ltr then horizontalBias else -1.0 * horizontalBias;
    IntOffset(RoundToInt(centerX * (1.0 + resolvedHorizontalBias)),
              RoundToInt(centerY * (1.0 + verticalBias)))
  }

  /** `Alignment.Center`, the default alignment of `getOffset`. */
  const Center: Alignment := BiasAlignment(0.0, 0.0)

  /** ASSUMPTION: `Alignment.TopStart`, the start edge on both axes. */
  const TopStart: Alignment := BiasAlignment(-1.0, -1.0)

  /** Under the bias model, right-to-left layout is left-to-right layout
      with the horizontal bias mirrored; the vertical axis is unaffected. */
  lemma BiasMirroring(h: real, v: real, size: IntSize, space: IntSize)
    ensures BiasAlignment(h, v).align(size, space, Rtl) == BiasAlignment(-h, v).align(size, space, Ltr)
  {
  }

  /** Centring is direction-invariant, and lands the item halfway into the
      leftover space. */
  lemma CenterIsDirectionInvariant(size: IntSize, space: IntSize)
    ensures Center.align(size, space, Ltr) == Center.align(size, space, Rtl)
    ensures Center.align(size, space, Ltr)
         == IntOffset(RoundToInt((space.width - size.width) as real / 2.0),
                      RoundToInt((space.height - size.height) as real / 2.0))
  {
  }

  /** The start edge is the left edge (offset 0) under left-to-right layout
      and the right edge (the whole leftover space) under right-to-left. */
  lemma StartFlipsWithDirection(size: IntSize, space: IntSize)
    requires InIntRange(space.width - size.width)
    ensures TopStart.align(size, space, Ltr).x == 0
    ensures TopStart.align(size, space, Rtl).x == space.width - size.width
    ensures TopStart.align(size, space, Ltr).y == TopStart.align(size, space, Rtl).y == 0
  {
  }
}
