/** A registered item as the position provider sees it. `MinaBoxItem` and the
    resolution of its size specifications live outside the provider's source
    file, so a size specification is modelled only by what the provider calls
    on it: `resolve()`, an arbitrary pure function yielding pixels. */
module Items {

  /** A width or height specification of an item; `resolve` turns it into a
      pixel dimension at lookup time. */
  datatype Value = Value(resolve: () -> real)

  /** An item registered in the MinaBox scope: its logical position, its size
      specifications and whether it is pinned to the viewport on each axis. */
  datatype MinaBoxItem = MinaBoxItem(
    x: real,
    y: real,
    width: Value,
    height: Value,
    lockHorizontally: bool,
    lockVertically: bool
  )
}
