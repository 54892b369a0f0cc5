/** The two Compose geometry values the cloud computes with. */
module ComposeGeometry {
  /** androidx.compose.ui.geometry.Offset: a 2D position in pixels (Float). */
  datatype Offset = Offset(x: real, y: real)

  /** androidx.compose.ui.unit.IntOffset: a whole-pixel position. */
  datatype IntOffset = IntOffset(x: int, y: int)
}
