/**
 * The platform values the builder stores and copies. The builder never looks
 * inside them, so they are opaque here; only the shapes the builder itself
 * constructs (edge insets, the `.cgColor` conversion) are spelled out.
 */
module UIKit {

  type Font
  type Color
  type CGFloat
  type Float
  type CGSize
  type CGPath
  type Image
  type AttributedString
  type ContentHorizontalAlignment
  type ContentVerticalAlignment

  /** The layer's colour representation; `CGColorOf(c)` is `c.cgColor`. */
  datatype CGColor = CGColorOf(uiColor: Color)

  /** `UIEdgeInsets(top:left:bottom:right:)`. */
  datatype EdgeInsets = EdgeInsets(top: CGFloat, left: CGFloat, bottom: CGFloat, right: CGFloat)

  /** `UIControl.State`: the four concrete states a per-state table is keyed by. */
  datatype ControlState = Normal | Highlighted | Selected | Disabled
}
