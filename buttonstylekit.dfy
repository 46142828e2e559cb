/**
 * The target control: a `ButtonStyleKit` button (a UIButton subclass) as far
 * as the builder can see it. It has per-state tables filled by the UIKit
 * per-state setters, directly assignable appearance properties (the
 * `layer.*` ones flattened into `layer`-prefixed fields), and a live
 * interaction state.
 */
module ButtonStyleKit {
  import opened Wrappers
  import opened UIKit

  /** `ButtonStyleKit.ButtonState`: the four concrete states plus the `all` fan-out value. */
  datatype ButtonState = All | Normal | Highlighted | Selected | Disabled

  /** The builder state that names a concrete UIKit state. */
  function AsButtonState(c: ControlState): (s: ButtonState)
    ensures s != All
  {
    match c
    case Normal => ButtonState.Normal
    case Highlighted => ButtonState.Highlighted
    case Selected => ButtonState.Selected
    case Disabled => ButtonState.Disabled
  }

  /**
   * `ButtonState.getState()`: the UIKit state a builder state names, or
   * `nil` for `.all`, which names every state at once.
   */
  function GetState(s: ButtonState): (r: Option<ControlState>)
    ensures r.None? <==> s == All
    ensures r.Some? ==> AsButtonState(r.value) == s
  {
    match s
    case All => None
    case Normal => Some(ControlState.Normal)
    case Highlighted => Some(ControlState.Highlighted)
    case Selected => Some(ControlState.Selected)
    case Disabled => Some(ControlState.Disabled)
  }

  /** Every concrete state is named by exactly one builder state, and getState recovers it. */
  lemma GetStateRoundTrip(c: ControlState, s: ButtonState)
    ensures GetState(AsButtonState(c)) == Some(c)
    ensures AsButtonState(c) == s <==> GetState(s) == Some(c)
  {
  }

  /** A write made under cursor `cursor` reaches concrete state `c`. */
  predicate Covers(cursor: ButtonState, c: ControlState) {
    cursor == All || cursor == AsButtonState(c)
  }

  /**
   * A UIKit per-state table after a builder's immediate setter ran with
   * cursor `cursor`: one `set…(value, for: state)` call for the named state,
   * or four calls (normal, highlighted, selected, disabled) for `.all`.
   */
  function PerStateWrite<T>(m: map<ControlState, T>, cursor: ButtonState, value: T): (r: map<ControlState, T>)
    ensures forall c :: c in r <==> c in m || Covers(cursor, c)
    ensures forall c :: c in r ==> r[c] == if Covers(cursor, c) then value else m[c]
  {
    match GetState(cursor)
    case Some(c) => m[c := value]
    case None =>
      FanOutReachesEveryState(m, value);
      m[ControlState.Normal := value][ControlState.Highlighted := value]
       [ControlState.Selected := value][ControlState.Disabled := value]
  }

  lemma FanOutReachesEveryState<T>(m: map<ControlState, T>, value: T)
    ensures var r := m[ControlState.Normal := value][ControlState.Highlighted := value]
                      [ControlState.Selected := value][ControlState.Disabled := value];
            forall c :: c in r && r[c] == value
  {
    var r := m[ControlState.Normal := value][ControlState.Highlighted := value]
              [ControlState.Selected := value][ControlState.Disabled := value];
    forall c
      ensures c in r && r[c] == value
    {
      match c
      case Normal =>
      case Highlighted =>
      case Selected =>
      case Disabled =>
    }
  }

  /** The button's directly assignable appearance, one field per staged property. */
  datatype Appearance = Appearance(
    font: Font,
    layerBorderWidth: CGFloat,
    layerBorderColor: CGColor,
    layerCornerRadius: CGFloat,
    layerOpacity: Float,
    layerBackgroundColor: CGColor,
    tintColor: Color,
    layerShadowColor: CGColor,
    layerShadowOpacity: Float,
    layerShadowOffset: CGSize,
    layerShadowRadius: CGFloat,
    layerShadowPath: CGPath,
    clipsToBounds: bool,
    layerMasksToBounds: bool,
    isExclusiveTouch: bool,
    contentHorizontalAlignment: ContentHorizontalAlignment,
    contentVerticalAlignment: ContentVerticalAlignment,
    titleEdgeInsets: EdgeInsets,
    contentEdgeInsets: EdgeInsets,
    imageEdgeInsets: EdgeInsets,
    reversesTitleShadowWhenHighlighted: bool,
    adjustsImageWhenHighlighted: bool,
    adjustsImageWhenDisabled: bool,
    showsTouchWhenHighlighted: bool)

  /** The button's six per-state tables (absent key: never set for that state). */
  datatype PerStateTables = PerStateTables(
    titles: map<ControlState, string>,
    titleColors: map<ControlState, Color>,
    titleShadowColors: map<ControlState, Color>,
    images: map<ControlState, Image>,
    backgroundImages: map<ControlState, Image>,
    attributedTitles: map<ControlState, AttributedString>)

  class Button {
    // per-state tables
    var titles: map<ControlState, string>
    var titleColors: map<ControlState, Color>
    var titleShadowColors: map<ControlState, Color>
    var images: map<ControlState, Image>
    var backgroundImages: map<ControlState, Image>
    var attributedTitles: map<ControlState, AttributedString>
    /** Every directly assignable appearance property, as one value. */
    var look: Appearance
    // the control's interaction state, already collapsed to one concrete state
    var liveState: ControlState

    ghost function Tables(): PerStateTables
      reads this
    {
      PerStateTables(titles, titleColors, titleShadowColors, images, backgroundImages, attributedTitles)
    }

    /** A button with the given appearance and live state and nothing set per state. */
    constructor (look: Appearance, liveState: ControlState)
      ensures this.look == look && this.liveState == liveState
      ensures Tables() == PerStateTables(map[], map[], map[], map[], map[], map[])
    {
      titles, titleColors, titleShadowColors := map[], map[], map[];
      images, backgroundImages, attributedTitles := map[], map[], map[];
      this.look := look;
      this.liveState := liveState;
    }

    /** `currentState`: the live state as a builder state; never `.all`. */
    function CurrentState(): (s: ButtonState)
      reads this
      ensures s != All && GetState(s) == Some(liveState)
    {
      AsButtonState(liveState)
    }

    method SetTitle(title: string, state: ControlState)
      modifies this`titles
      ensures titles == old(titles)[state := title]
    {
      titles := titles[state := title];
    }

    method SetTitleColor(color: Color, state: ControlState)
      modifies this`titleColors
      ensures titleColors == old(titleColors)[state := color]
    {
      titleColors := titleColors[state := color];
    }

    method SetTitleShadowColor(color: Color, state: ControlState)
      modifies this`titleShadowColors
      ensures titleShadowColors == old(titleShadowColors)[state := color]
    {
      titleShadowColors := titleShadowColors[state := color];
    }

    method SetImage(image: Image, state: ControlState)
      modifies this`images
      ensures images == old(images)[state := image]
    {
      images := images[state := image];
    }

    method SetBackgroundImage(image: Image, state: ControlState)
      modifies this`backgroundImages
      ensures backgroundImages == old(backgroundImages)[state := image]
    {
      backgroundImages := backgroundImages[state := image];
    }

    method SetAttributedTitle(title: AttributedString, state: ControlState)
      modifies this`attributedTitles
      ensures attributedTitles == old(attributedTitles)[state := title]
    {
      attributedTitles := attributedTitles[state := title];
    }
  }
}
