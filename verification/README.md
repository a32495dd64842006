# MinaBox item position provider

A Dafny model of `MinaBoxPositionProviderImpl`, the MinaBox component that
tells callers where a registered item is drawn. The provider holds a
read-only map from global item index to `MinaBoxItem`, the current layout
direction and the viewport size. For an index it:

- returns `Offset.Zero` when no item is registered at that index;
- otherwise asks the given `Alignment` for an offset. The alignment gets the
  item's resolved size truncated to `Int`, the viewport shrunk by the four
  paddings and truncated to `Int`, and the provider's layout direction;
- on each axis, subtracts that alignment offset and the start (or top)
  padding from the item's logical `x` (or `y`);
- on an axis where the item is locked, returns the caller's current scroll
  value for that axis instead.

The public `getOffset` is the same computation with both current scroll
values at zero. The interface's defaults are centred alignment and zero
padding.

Modules:

- `Geometry` (`geometry.dfy`) holds the Compose value types (`Size`,
  `IntSize`, `IntOffset`, `Offset`, `LayoutDirection`). It also holds Kotlin's
  `Float.toInt()` (`ToInt`: truncation toward zero, saturating at the `Int`
  bounds) and `Float.roundToInt()` (`RoundToInt`). `Float` is an exact
  `real`.
- `Alignments` (`alignment.dfy`) holds Compose's `Alignment`. It is a value
  wrapping an arbitrary function from (item size, space, direction) to an
  integer offset, so every property of the provider holds for any alignment.
  `BiasAlignment`, `Center` and `TopStart` are an assumption about Compose's
  bias alignment. They are used only for the default alignment and the
  direction-mirroring properties.
- `Items` (`items.dfy`) holds `MinaBoxItem`. Its width and height are
  specifications whose `resolve()` is an arbitrary pure function.
- `PositionProvider` (`position_provider.dfy`) holds the provider and both
  `getOffset` forms. Dafny has no overloading, so the 8-argument form is
  `GetOffsetWithCurrent`, the 6-argument form is `GetOffset`, and a call
  relying on the interface defaults is `GetOffsetDefaults`.
- `ProviderProperties` (`provider_properties.dfy`) holds the lemmas that
  relate several calls, and worked examples.

Under the bias assumption for `Center`, the worked example of a 20 x 10 item
at (100, 50), centred in a 200 x 100 viewport with no padding, resolves to
(10, 5): x is 100 - (200 - 20) / 2 = 10.

## Model

| member | source | states |
|---|---|---|
| Geometry.ToInt | minabox/src/main/kotlin/eu/wewox/minabox/MinaBoxPositionProvider.kt:93-98 | the conversion used on sizes and spaces stays in the `Int` range, rounds toward zero (the result is within 1 of the argument on its zero side) and saturates at the `Int` bounds |
| Geometry.ToIntUnique | minabox/src/main/kotlin/eu/wewox/minabox/MinaBoxPositionProvider.kt:93-98 | any in-range integer that truncates the argument toward zero is the conversion's result, so the conversion is fully determined |
| Geometry.ToIntOfWhole | minabox/src/main/kotlin/eu/wewox/minabox/MinaBoxPositionProvider.kt:93-98 | a whole, in-range size or space passes through the conversion unchanged |
| Geometry.ToIntMonotone | minabox/src/main/kotlin/eu/wewox/minabox/MinaBoxPositionProvider.kt:93-98 | `toInt()` never decreases as its argument grows |
| Alignments.CenterIsDirectionInvariant | minabox/src/main/kotlin/eu/wewox/minabox/MinaBoxPositionProvider.kt:27 | under the bias assumption, the default centred alignment ignores the layout direction and places the item at half the leftover space, rounded |
| Alignments.BiasMirroring | minabox/src/main/kotlin/eu/wewox/minabox/MinaBoxPositionProvider.kt:100 | under the bias assumption, right-to-left layout equals left-to-right layout with the horizontal bias negated |
| Alignments.StartFlipsWithDirection | minabox/src/main/kotlin/eu/wewox/minabox/MinaBoxPositionProvider.kt:100 | under the bias assumption, start alignment is offset 0 left-to-right and the whole leftover width right-to-left; its vertical offset is 0 either way |
| PositionProvider.GetOffsetWithCurrent | minabox/src/main/kotlin/eu/wewox/minabox/MinaBoxPositionProvider.kt:80-106 | an unknown index gives `Offset.Zero`; a locked axis gives the current scroll value; on an unlocked axis, result + alignment offset + start/top padding equals the item's logical position |
| PositionProvider.GetOffset | minabox/src/main/kotlin/eu/wewox/minabox/MinaBoxPositionProvider.kt:48-65 | the public form equals the scrolled form with both scroll values at 0, so an unknown index gives zero and a locked axis always gives 0 |
| PositionProvider.GetOffsetDefaults | minabox/src/main/kotlin/eu/wewox/minabox/MinaBoxPositionProvider.kt:25-32 | under the bias assumption for `Center`, with the interface defaults (centred, no padding) an unknown index gives zero, an unlocked item sits half the truncated leftover viewport before its logical position on each axis, and a locked axis gives 0 |
| ProviderProperties.XIgnoresVerticalData | minabox/src/main/kotlin/eu/wewox/minabox/MinaBoxPositionProvider.kt:103-104 | x does not change when the item's `y`, its vertical lock or the current vertical scroll value change |
| ProviderProperties.YIgnoresHorizontalData | minabox/src/main/kotlin/eu/wewox/minabox/MinaBoxPositionProvider.kt:103-104 | y does not change when the item's `x`, its horizontal lock or the current horizontal scroll value change |
| ProviderProperties.OnlyOwnEntryIsRead | minabox/src/main/kotlin/eu/wewox/minabox/MinaBoxPositionProvider.kt:90 | adding, replacing or removing any other entry of the items map leaves the result unchanged |
| ProviderProperties.AlignmentSeesOnlyItsInputs | minabox/src/main/kotlin/eu/wewox/minabox/MinaBoxPositionProvider.kt:91-101 | the alignment is consulted only on the truncated item size, the padded space and the provider's direction: alignments agreeing there give the same offset |
| ProviderProperties.PaddingTransferShiftsX | minabox/src/main/kotlin/eu/wewox/minabox/MinaBoxPositionProvider.kt:96-103 | moving d of padding from end to start keeps the alignment space, shifts an unlocked x by exactly -d and keeps y |
| ProviderProperties.PaddingTransferShiftsY | minabox/src/main/kotlin/eu/wewox/minabox/MinaBoxPositionProvider.kt:96-104 | moving d of padding from bottom to top keeps the alignment space, shifts an unlocked y by exactly -d and keeps x |
| ProviderProperties.AlignmentSpaceMonotone | minabox/src/main/kotlin/eu/wewox/minabox/MinaBoxPositionProvider.kt:96-99 | a wider (taller) viewport or a smaller start (top) padding never gives a narrower (shorter) alignment space |
| ProviderProperties.OverlargePaddingIsNotClamped | minabox/src/main/kotlin/eu/wewox/minabox/MinaBoxPositionProvider.kt:96-99 | paddings exceeding the viewport by at least a pixel hand the alignment a negative width (or height) rather than zero |
| ProviderProperties.RtlMirrorsHorizontalBias | minabox/src/main/kotlin/eu/wewox/minabox/MinaBoxPositionProvider.kt:100-104 | under the bias assumption, a right-to-left provider gives the offset a left-to-right one gives with the horizontal bias mirrored, and the same y |
| ProviderProperties.CentredExample | minabox/src/main/kotlin/eu/wewox/minabox/MinaBoxPositionProvider.kt:90-104 | a 20 x 10 item at (100, 50), centred in 200 x 100 with no padding, is drawn at (10, 5), under the bias assumption for `Center` |
| ProviderProperties.LockedExample | minabox/src/main/kotlin/eu/wewox/minabox/MinaBoxPositionProvider.kt:103-104 | the same item locked horizontally, with current x 37, is drawn at (37, 5); its y of 5 holds under the bias assumption for `Center` |
| ProviderProperties.AbsentExample | minabox/src/main/kotlin/eu/wewox/minabox/MinaBoxPositionProvider.kt:90 | an index never registered is drawn at (0, 0) |

## Left out

- Compose's `Alignment.align` implementation is not part of this model. The provider's properties hold for an arbitrary alignment. `BiasAlignment`, `Center` and `TopStart` state Compose's bias formula as an assumption. That assumption does not model the 32-bit wrap of `space - size` inside it.
- `MinaBoxItem` and `resolve()` of its size specifications are not part of this model. A size specification is an arbitrary pure function yielding a `real`.
- IEEE `Float` arithmetic is modelled as exact `real` arithmetic. Rounding of the subtractions, `NaN` and infinities are not modelled, and the `Int` offset is converted back to `Float` exactly.
- Geometry.ToInt: models truncation and saturation of `Float.toInt()` for finite values only; `NaN` (which Kotlin maps to 0) cannot occur with `real`.
- The surrounding MinaBox layout, the registration of items, scrolling and drawing are not part of this model. The current scroll values are plain parameters.
- The provider is stateless and its items map is immutable, so determinism holds by construction. The map is never modified because `GetOffsetWithCurrent` returns only an `Offset`. `OnlyOwnEntryIsRead` states the separate fact that only the entry at the requested index is read.
- Padding changes that also change the alignment space (e.g. growing only the start padding) shift x by an amount that depends on the alignment. Only the space-preserving transfer is stated exactly.
