/**
 * The builder: the staging table of 24 per-state records, the state cursor,
 * the weak target button, the chainable setters, and the commit (`build`)
 * and re-apply (`apply`) steps.
 */
module Builder {
  import opened Wrappers
  import opened UIKit
  import opened ButtonStyleKit
  import opened Staging

  /** The staging table: one per-state record per staged visual property. */
  datatype Styles = Styles(
    font: Property<Font>,
    borderWidth: Property<CGFloat>,
    borderColor: Property<Color>,
    cornerRadius: Property<CGFloat>,
    opacity: Property<Float>,
    backgroundColor: Property<Color>,
    tintColor: Property<Color>,
    shadowColor: Property<Color>,
    shadowOpacity: Property<Float>,
    shadowOffset: Property<CGSize>,
    shadowRadius: Property<CGFloat>,
    shadowPath: Property<CGPath>,
    clipsToBounds: Property<bool>,
    masksToBounds: Property<bool>,
    isExclusiveTouch: Property<bool>,
    contentHorizontalAlignment: Property<ContentHorizontalAlignment>,
    contentVerticalAlignment: Property<ContentVerticalAlignment>,
    titleEdgeInsets: Property<EdgeInsets>,
    contentEdgeInsets: Property<EdgeInsets>,
    imageEdgeInsets: Property<EdgeInsets>,
    reversesTitleShadowWhenHighlighted: Property<bool>,
    adjustsImageWhenHighlighted: Property<bool>,
    adjustsImageWhenDisabled: Property<bool>,
    showsTouchWhenHighlighted: Property<bool>)

  /**
   * The table a fresh builder starts with: nothing staged anywhere (each
   * record is `Unstaged()`, written out as a literal so that the commit
   * lemmas see its four empty slots without unfolding a generic function).
   */
  function EmptyStyles(): (t: Styles) {
    Styles(
      Property(None, None, None, None),
      Property(None, None, None, None),
      Property(None, None, None, None),
      Property(None, None, None, None),
      Property(None, None, None, None),
      Property(None, None, None, None),
      Property(None, None, None, None),
      Property(None, None, None, None),
      Property(None, None, None, None),
      Property(None, None, None, None),
      Property(None, None, None, None),
      Property(None, None, None, None),
      Property(None, None, None, None),
      Property(None, None, None, None),
      Property(None, None, None, None),
      Property(None, None, None, None),
      Property(None, None, None, None),
      Property(None, None, None, None),
      Property(None, None, None, None),
      Property(None, None, None, None),
      Property(None, None, None, None),
      Property(None, None, None, None),
      Property(None, None, None, None),
      Property(None, None, None, None))
  }

  /** The value a button property takes at commit: the resolved slot when present, else the current value. */
  function Resolve<T>(p: Property<T>, state: ButtonState, current: T): (v: T) {
    match Attach(p, state)
    case Some(v) => v
    case None => current
  }

  /** As `Resolve`, for the colours the layer stores as `cgColor`. */
  function ResolveColor(p: Property<Color>, state: ButtonState, current: CGColor): (v: CGColor) {
    match Attach(p, state)
    case Some(v) => CGColorOf(v)
    case None => current
  }

  /**
   * What `build` leaves on the button: every property whose slot for the
   * cursor is staged takes that value; every other property keeps `look`'s.
   * Each component is `Resolve` (or `ResolveColor`) written out inline, which
   * keeps the lemmas below from unfolding 24 generic calls; `Build` computes
   * the same components through `Resolve` and is proved equal to this.
   */
  ghost function Commit(look: Appearance, t: Styles, state: ButtonState): (r: Appearance) {
    Appearance(
      (match Attach(t.font, state) case Some(v) => v case None => look.font),
      (match Attach(t.borderWidth, state) case Some(v) => v case None => look.layerBorderWidth),
      (match Attach(t.borderColor, state) case Some(v) => CGColorOf(v) case None => look.layerBorderColor),
      (match Attach(t.cornerRadius, state) case Some(v) => v case None => look.layerCornerRadius),
      (match Attach(t.opacity, state) case Some(v) => v case None => look.layerOpacity),
      (match Attach(t.backgroundColor, state) case Some(v) => CGColorOf(v) case None => look.layerBackgroundColor),
      (match Attach(t.tintColor, state) case Some(v) => v case None => look.tintColor),
      (match Attach(t.shadowColor, state) case Some(v) => CGColorOf(v) case None => look.layerShadowColor),
      (match Attach(t.shadowOpacity, state) case Some(v) => v case None => look.layerShadowOpacity),
      (match Attach(t.shadowOffset, state) case Some(v) => v case None => look.layerShadowOffset),
      (match Attach(t.shadowRadius, state) case Some(v) => v case None => look.layerShadowRadius),
      (match Attach(t.shadowPath, state) case Some(v) => v case None => look.layerShadowPath),
      (match Attach(t.clipsToBounds, state) case Some(v) => v case None => look.clipsToBounds),
      (match Attach(t.masksToBounds, state) case Some(v) => v case None => look.layerMasksToBounds),
      (match Attach(t.isExclusiveTouch, state) case Some(v) => v case None => look.isExclusiveTouch),
      (match Attach(t.contentHorizontalAlignment, state) case Some(v) => v case None => look.contentHorizontalAlignment),
      (match Attach(t.contentVerticalAlignment, state) case Some(v) => v case None => look.contentVerticalAlignment),
      (match Attach(t.titleEdgeInsets, state) case Some(v) => v case None => look.titleEdgeInsets),
      (match Attach(t.contentEdgeInsets, state) case Some(v) => v case None => look.contentEdgeInsets),
      (match Attach(t.imageEdgeInsets, state) case Some(v) => v case None => look.imageEdgeInsets),
      (match Attach(t.reversesTitleShadowWhenHighlighted, state) case Some(v) => v case None => look.reversesTitleShadowWhenHighlighted),
      (match Attach(t.adjustsImageWhenHighlighted, state) case Some(v) => v case None => look.adjustsImageWhenHighlighted),
      (match Attach(t.adjustsImageWhenDisabled, state) case Some(v) => v case None => look.adjustsImageWhenDisabled),
      (match Attach(t.showsTouchWhenHighlighted, state) case Some(v) => v case None => look.showsTouchWhenHighlighted))
  }

  /** Two tables stage the same values for `state`, property by property. */
  ghost predicate SameAt(t1: Styles, t2: Styles, state: ButtonState) {
    Attach(t1.font, state) == Attach(t2.font, state) &&
    Attach(t1.borderWidth, state) == Attach(t2.borderWidth, state) &&
    Attach(t1.borderColor, state) == Attach(t2.borderColor, state) &&
    Attach(t1.cornerRadius, state) == Attach(t2.cornerRadius, state) &&
    Attach(t1.opacity, state) == Attach(t2.opacity, state) &&
    Attach(t1.backgroundColor, state) == Attach(t2.backgroundColor, state) &&
    Attach(t1.tintColor, state) == Attach(t2.tintColor, state) &&
    Attach(t1.shadowColor, state) == Attach(t2.shadowColor, state) &&
    Attach(t1.shadowOpacity, state) == Attach(t2.shadowOpacity, state) &&
    Attach(t1.shadowOffset, state) == Attach(t2.shadowOffset, state) &&
    Attach(t1.shadowRadius, state) == Attach(t2.shadowRadius, state) &&
    Attach(t1.shadowPath, state) == Attach(t2.shadowPath, state) &&
    Attach(t1.clipsToBounds, state) == Attach(t2.clipsToBounds, state) &&
    Attach(t1.masksToBounds, state) == Attach(t2.masksToBounds, state) &&
    Attach(t1.isExclusiveTouch, state) == Attach(t2.isExclusiveTouch, state) &&
    Attach(t1.contentHorizontalAlignment, state) == Attach(t2.contentHorizontalAlignment, state) &&
    Attach(t1.contentVerticalAlignment, state) == Attach(t2.contentVerticalAlignment, state) &&
    Attach(t1.titleEdgeInsets, state) == Attach(t2.titleEdgeInsets, state) &&
    Attach(t1.contentEdgeInsets, state) == Attach(t2.contentEdgeInsets, state) &&
    Attach(t1.imageEdgeInsets, state) == Attach(t2.imageEdgeInsets, state) &&
    Attach(t1.reversesTitleShadowWhenHighlighted, state) == Attach(t2.reversesTitleShadowWhenHighlighted, state) &&
    Attach(t1.adjustsImageWhenHighlighted, state) == Attach(t2.adjustsImageWhenHighlighted, state) &&
    Attach(t1.adjustsImageWhenDisabled, state) == Attach(t2.adjustsImageWhenDisabled, state) &&
    Attach(t1.showsTouchWhenHighlighted, state) == Attach(t2.showsTouchWhenHighlighted, state)
  }

  /**
   * No property has a value staged for `state`: `build` would touch no
   * button property, and so never reaches the target.
   */
  ghost predicate NothingResolves(t: Styles, state: ButtonState) {
    Attach(t.font, state) == None &&
    Attach(t.borderWidth, state) == None &&
    Attach(t.borderColor, state) == None &&
    Attach(t.cornerRadius, state) == None &&
    Attach(t.opacity, state) == None &&
    Attach(t.backgroundColor, state) == None &&
    Attach(t.tintColor, state) == None &&
    Attach(t.shadowColor, state) == None &&
    Attach(t.shadowOpacity, state) == None &&
    Attach(t.shadowOffset, state) == None &&
    Attach(t.shadowRadius, state) == None &&
    Attach(t.shadowPath, state) == None &&
    Attach(t.clipsToBounds, state) == None &&
    Attach(t.masksToBounds, state) == None &&
    Attach(t.isExclusiveTouch, state) == None &&
    Attach(t.contentHorizontalAlignment, state) == None &&
    Attach(t.contentVerticalAlignment, state) == None &&
    Attach(t.titleEdgeInsets, state) == None &&
    Attach(t.contentEdgeInsets, state) == None &&
    Attach(t.imageEdgeInsets, state) == None &&
    Attach(t.reversesTitleShadowWhenHighlighted, state) == None &&
    Attach(t.adjustsImageWhenHighlighted, state) == None &&
    Attach(t.adjustsImageWhenDisabled, state) == None &&
    Attach(t.showsTouchWhenHighlighted, state) == None
  }

  /** Under cursor `.all` nothing resolves, whatever is staged. */
  lemma NothingResolvesUnderAll(t: Styles)
    ensures NothingResolves(t, All)
  {
  }

  /** On a fresh staging table nothing resolves, under any cursor. */
  lemma NothingResolvesWhenNothingStaged(state: ButtonState)
    ensures NothingResolves(EmptyStyles(), state)
  {
  }

  /** When nothing resolves for the cursor, commit leaves every property as it was. */
  lemma CommitWhenNothingResolves(look: Appearance, t: Styles, state: ButtonState)
    requires NothingResolves(t, state)
    ensures Commit(look, t, state) == look
  {
  }

  /** Committing under cursor `.all` resolves nothing, so the button keeps its whole appearance. */
  lemma CommitUnderAllKeepsLook(look: Appearance, t: Styles)
    ensures Commit(look, t, All) == look
  {
  }

  /** Committing twice with the same staging and cursor leaves what committing once does. */
  lemma CommitIdempotent(look: Appearance, t: Styles, state: ButtonState)
    ensures Commit(Commit(look, t, state), t, state) == Commit(look, t, state)
  {
  }

  /** With nothing staged, commit leaves every property as it was. */
  lemma CommitNothingStaged(look: Appearance, state: ButtonState)
    ensures Commit(look, EmptyStyles(), state) == look
  {
    match state
    case All =>
    case Normal =>
    case Highlighted =>
    case Selected =>
    case Disabled =>
  }

  /**
   * Staging a corner radius under a concrete cursor and then committing under
   * that cursor sets the layer's corner radius to it; every other property
   * ends up as committing without that write would leave it.
   */
  lemma CommitAfterStagingCornerRadius(look: Appearance, t: Styles, state: ButtonState, radius: CGFloat)
    requires state != All
    ensures Commit(look, t.(cornerRadius := Stage(t.cornerRadius, state, radius)), state)
            == Commit(look, t, state).(layerCornerRadius := radius)
  {
    match state
    case Normal =>
    case Highlighted =>
    case Selected =>
    case Disabled =>
  }

  /** As for the corner radius, for a colour the layer stores as `cgColor`. */
  lemma CommitAfterStagingBorderColor(look: Appearance, t: Styles, state: ButtonState, color: Color)
    requires state != All
    ensures Commit(look, t.(borderColor := Stage(t.borderColor, state, color)), state)
            == Commit(look, t, state).(layerBorderColor := CGColorOf(color))
  {
    match state
    case Normal =>
    case Highlighted =>
    case Selected =>
    case Disabled =>
  }

  /**
   * Only the corner radius staged, for the state being committed: the layer's
   * corner radius is the only property that changes.
   */
  lemma CommitOnlyCornerRadius(look: Appearance, state: ButtonState, radius: CGFloat)
    requires state != All
    ensures Commit(look, EmptyStyles().(cornerRadius := Stage(Property(None, None, None, None), state, radius)), state)
            == look.(layerCornerRadius := radius)
  {
    CommitNothingStaged(look, state);
    CommitAfterStagingCornerRadius(look, EmptyStyles(), state, radius);
  }

  /**
   * Commit reads nothing but the cursor's slots: what is staged for the other
   * states makes no difference.
   */
  lemma CommitReadsOnlyCursorSlots(look: Appearance, t1: Styles, t2: Styles, state: ButtonState)
    requires SameAt(t1, t2, state)
    ensures Commit(look, t1, state) == Commit(look, t2, state)
  {
  }


  class ButtonStyleBuilder {
    /** The weak target; `null` once it is gone or before `SetButton`. */
    var button: Button?
    /** The state cursor. */
    var state: ButtonState
    var font: Property<Font>
    var borderWidth: Property<CGFloat>
    var borderColor: Property<Color>
    var cornerRadius: Property<CGFloat>
    var opacity: Property<Float>
    var backgroundColor: Property<Color>
    var tintColor: Property<Color>
    var shadowColor: Property<Color>
    var shadowOpacity: Property<Float>
    var shadowOffset: Property<CGSize>
    var shadowRadius: Property<CGFloat>
    var shadowPath: Property<CGPath>
    var clipsToBounds: Property<bool>
    var masksToBounds: Property<bool>
    var isExclusiveTouch: Property<bool>
    var contentHorizontalAlignment: Property<ContentHorizontalAlignment>
    var contentVerticalAlignment: Property<ContentVerticalAlignment>
    var titleEdgeInsets: Property<EdgeInsets>
    var contentEdgeInsets: Property<EdgeInsets>
    var imageEdgeInsets: Property<EdgeInsets>
    var reversesTitleShadowWhenHighlighted: Property<bool>
    var adjustsImageWhenHighlighted: Property<bool>
    var adjustsImageWhenDisabled: Property<bool>
    var showsTouchWhenHighlighted: Property<bool>

    /** The whole staging table. */
    ghost function Staging(): Styles
      reads this
    {
      Styles(font, borderWidth, borderColor, cornerRadius, opacity, backgroundColor, tintColor, shadowColor, shadowOpacity, shadowOffset, shadowRadius, shadowPath, clipsToBounds, masksToBounds, isExclusiveTouch, contentHorizontalAlignment, contentVerticalAlignment, titleEdgeInsets, contentEdgeInsets, imageEdgeInsets, reversesTitleShadowWhenHighlighted, adjustsImageWhenHighlighted, adjustsImageWhenDisabled, showsTouchWhenHighlighted)
    }

    /** `init()`: no target, cursor `.normal`, nothing staged. */
    constructor ()
      ensures button == null && state == ButtonState.Normal && Staging() == EmptyStyles()
    {
      button := null;
      state := ButtonState.Normal;
      font := Unstaged();
      borderWidth := Unstaged();
      borderColor := Unstaged();
      cornerRadius := Unstaged();
      opacity := Unstaged();
      backgroundColor := Unstaged();
      tintColor := Unstaged();
      shadowColor := Unstaged();
      shadowOpacity := Unstaged();
      shadowOffset := Unstaged();
      shadowRadius := Unstaged();
      shadowPath := Unstaged();
      clipsToBounds := Unstaged();
      masksToBounds := Unstaged();
      isExclusiveTouch := Unstaged();
      contentHorizontalAlignment := Unstaged();
      contentVerticalAlignment := Unstaged();
      titleEdgeInsets := Unstaged();
      contentEdgeInsets := Unstaged();
      imageEdgeInsets := Unstaged();
      reversesTitleShadowWhenHighlighted := Unstaged();
      adjustsImageWhenHighlighted := Unstaged();
      adjustsImageWhenDisabled := Unstaged();
      showsTouchWhenHighlighted := Unstaged();
    }

    /** `setButton`: retarget; nothing else changes. */
    method SetButton(button: Button)
      modifies this`button
      ensures this.button == button
    {
      this.button := button;
    }

    /** `setState`: move the cursor; nothing else changes. */
    method SetState(state: ButtonState)
      modifies this`state
      ensures this.state == state
    {
      this.state := state;
    }

    /**
     * The immediate setters (`setTitle` … `setAttributedTitle`): no staging;
     * the value goes straight into the button's per-state table, for the
     * cursor's state, or for all four states under `.all`.
     */
    method SetTitle(title: string)
      requires button != null
      modifies button`titles
      ensures button.titles == PerStateWrite(old(button.titles), state, title)
    {
      match GetState(state)
      case Some(s) =>
        button.SetTitle(title, s);
      case None =>
        button.SetTitle(title, ControlState.Normal);
        button.SetTitle(title, ControlState.Highlighted);
        button.SetTitle(title, ControlState.Selected);
        button.SetTitle(title, ControlState.Disabled);
    }

    method SetTitleColor(titleColor: Color)
      requires button != null
      modifies button`titleColors
      ensures button.titleColors == PerStateWrite(old(button.titleColors), state, titleColor)
    {
      match GetState(state)
      case Some(s) =>
        button.SetTitleColor(titleColor, s);
      case None =>
        button.SetTitleColor(titleColor, ControlState.Normal);
        button.SetTitleColor(titleColor, ControlState.Highlighted);
        button.SetTitleColor(titleColor, ControlState.Selected);
        button.SetTitleColor(titleColor, ControlState.Disabled);
    }

    method SetTitleShadowColor(titleShadowColor: Color)
      requires button != null
      modifies button`titleShadowColors
      ensures button.titleShadowColors == PerStateWrite(old(button.titleShadowColors), state, titleShadowColor)
    {
      match GetState(state)
      case Some(s) =>
        button.SetTitleShadowColor(titleShadowColor, s);
      case None =>
        button.SetTitleShadowColor(titleShadowColor, ControlState.Normal);
        button.SetTitleShadowColor(titleShadowColor, ControlState.Highlighted);
        button.SetTitleShadowColor(titleShadowColor, ControlState.Selected);
        button.SetTitleShadowColor(titleShadowColor, ControlState.Disabled);
    }

    method SetImage(image: Image)
      requires button != null
      modifies button`images
      ensures button.images == PerStateWrite(old(button.images), state, image)
    {
      match GetState(state)
      case Some(s) =>
        button.SetImage(image, s);
      case None =>
        button.SetImage(image, ControlState.Normal);
        button.SetImage(image, ControlState.Highlighted);
        button.SetImage(image, ControlState.Selected);
        button.SetImage(image, ControlState.Disabled);
    }

    method SetBackgroundImage(backgroundImage: Image)
      requires button != null
      modifies button`backgroundImages
      ensures button.backgroundImages == PerStateWrite(old(button.backgroundImages), state, backgroundImage)
    {
      match GetState(state)
      case Some(s) =>
        button.SetBackgroundImage(backgroundImage, s);
      case None =>
        button.SetBackgroundImage(backgroundImage, ControlState.Normal);
        button.SetBackgroundImage(backgroundImage, ControlState.Highlighted);
        button.SetBackgroundImage(backgroundImage, ControlState.Selected);
        button.SetBackgroundImage(backgroundImage, ControlState.Disabled);
    }

    method SetAttributedTitle(attributedTitle: AttributedString)
      requires button != null
      modifies button`attributedTitles
      ensures button.attributedTitles == PerStateWrite(old(button.attributedTitles), state, attributedTitle)
    {
      match GetState(state)
      case Some(s) =>
        button.SetAttributedTitle(attributedTitle, s);
      case None =>
        button.SetAttributedTitle(attributedTitle, ControlState.Normal);
        button.SetAttributedTitle(attributedTitle, ControlState.Highlighted);
        button.SetAttributedTitle(attributedTitle, ControlState.Selected);
        button.SetAttributedTitle(attributedTitle, ControlState.Disabled);
    }

    /**
     * The staged setters (`setFont` … `setShowsTouchWhenHighlighted`): stage
     * the value in that property's record under the cursor (`setProperty`);
     * the button is not touched until `Build`.
     */
    method SetFont(value: Font)
      modifies this`font
      ensures font == Stage(old(font), state, value)
    {
      font := Stage(font, state, value);
    }

    method SetBorderWidth(value: CGFloat)
      modifies this`borderWidth
      ensures borderWidth == Stage(old(borderWidth), state, value)
    {
      borderWidth := Stage(borderWidth, state, value);
    }

    method SetBorderColor(value: Color)
      modifies this`borderColor
      ensures borderColor == Stage(old(borderColor), state, value)
    {
      borderColor := Stage(borderColor, state, value);
    }

    method SetCornerRadius(value: CGFloat)
      modifies this`cornerRadius
      ensures cornerRadius == Stage(old(cornerRadius), state, value)
    {
      cornerRadius := Stage(cornerRadius, state, value);
    }

    method SetOpacity(value: Float)
      modifies this`opacity
      ensures opacity == Stage(old(opacity), state, value)
    {
      opacity := Stage(opacity, state, value);
    }

    method SetBackgroundColor(value: Color)
      modifies this`backgroundColor
      ensures backgroundColor == Stage(old(backgroundColor), state, value)
    {
      backgroundColor := Stage(backgroundColor, state, value);
    }

    method SetTintColor(value: Color)
      modifies this`tintColor
      ensures tintColor == Stage(old(tintColor), state, value)
    {
      tintColor := Stage(tintColor, state, value);
    }

    method SetShadowColor(value: Color)
      modifies this`shadowColor
      ensures shadowColor == Stage(old(shadowColor), state, value)
    {
      shadowColor := Stage(shadowColor, state, value);
    }

    method SetShadowOpacity(value: Float)
      modifies this`shadowOpacity
      ensures shadowOpacity == Stage(old(shadowOpacity), state, value)
    {
      shadowOpacity := Stage(shadowOpacity, state, value);
    }

    method SetShadowOffset(value: CGSize)
      modifies this`shadowOffset
      ensures shadowOffset == Stage(old(shadowOffset), state, value)
    {
      shadowOffset := Stage(shadowOffset, state, value);
    }

    method SetShadowRadius(value: CGFloat)
      modifies this`shadowRadius
      ensures shadowRadius == Stage(old(shadowRadius), state, value)
    {
      shadowRadius := Stage(shadowRadius, state, value);
    }

    method SetShadowPath(value: CGPath)
      modifies this`shadowPath
      ensures shadowPath == Stage(old(shadowPath), state, value)
    {
      shadowPath := Stage(shadowPath, state, value);
    }

    method SetMasksToBounds(value: bool)
      modifies this`masksToBounds
      ensures masksToBounds == Stage(old(masksToBounds), state, value)
    {
      masksToBounds := Stage(masksToBounds, state, value);
    }

    method SetClipsToBounds(value: bool)
      modifies this`clipsToBounds
      ensures clipsToBounds == Stage(old(clipsToBounds), state, value)
    {
      clipsToBounds := Stage(clipsToBounds, state, value);
    }

    method SetExclusiveTouch(value: bool)
      modifies this`isExclusiveTouch
      ensures isExclusiveTouch == Stage(old(isExclusiveTouch), state, value)
    {
      isExclusiveTouch := Stage(isExclusiveTouch, state, value);
    }

    method SetContentHorizontalAlignment(value: ContentHorizontalAlignment)
      modifies this`contentHorizontalAlignment
      ensures contentHorizontalAlignment == Stage(old(contentHorizontalAlignment), state, value)
    {
      contentHorizontalAlignment := Stage(contentHorizontalAlignment, state, value);
    }

    method SetContentVerticalAlignment(value: ContentVerticalAlignment)
      modifies this`contentVerticalAlignment
      ensures contentVerticalAlignment == Stage(old(contentVerticalAlignment), state, value)
    {
      contentVerticalAlignment := Stage(contentVerticalAlignment, state, value);
    }

    method SetTitleEdgeInsets(top: CGFloat, right: CGFloat, bottom: CGFloat, left: CGFloat)
      modifies this`titleEdgeInsets
      ensures titleEdgeInsets == Stage(old(titleEdgeInsets), state, EdgeInsets(top, left, bottom, right))
    {
      titleEdgeInsets := Stage(titleEdgeInsets, state, EdgeInsets(top, left, bottom, right));
    }

    method SetContentEdgeInsets(top: CGFloat, right: CGFloat, bottom: CGFloat, left: CGFloat)
      modifies this`contentEdgeInsets
      ensures contentEdgeInsets == Stage(old(contentEdgeInsets), state, EdgeInsets(top, left, bottom, right))
    {
      contentEdgeInsets := Stage(contentEdgeInsets, state, EdgeInsets(top, left, bottom, right));
    }

    method SetImageEdgeInsets(top: CGFloat, right: CGFloat, bottom: CGFloat, left: CGFloat)
      modifies this`imageEdgeInsets
      ensures imageEdgeInsets == Stage(old(imageEdgeInsets), state, EdgeInsets(top, left, bottom, right))
    {
      imageEdgeInsets := Stage(imageEdgeInsets, state, EdgeInsets(top, left, bottom, right));
    }

    method SetReversesTitleShadowWhenHighlighted(value: bool)
      modifies this`reversesTitleShadowWhenHighlighted
      ensures reversesTitleShadowWhenHighlighted == Stage(old(reversesTitleShadowWhenHighlighted), state, value)
    {
      reversesTitleShadowWhenHighlighted := Stage(reversesTitleShadowWhenHighlighted, state, value);
    }

    method SetAdjustsImageWhenHighlighted(value: bool)
      modifies this`adjustsImageWhenHighlighted
      ensures adjustsImageWhenHighlighted == Stage(old(adjustsImageWhenHighlighted), state, value)
    {
      adjustsImageWhenHighlighted := Stage(adjustsImageWhenHighlighted, state, value);
    }

    method SetAdjustsImageWhenDisabled(value: bool)
      modifies this`adjustsImageWhenDisabled
      ensures adjustsImageWhenDisabled == Stage(old(adjustsImageWhenDisabled), state, value)
    {
      adjustsImageWhenDisabled := Stage(adjustsImageWhenDisabled, state, value);
    }

    method SetShowsTouchWhenHighlighted(value: bool)
      modifies this`showsTouchWhenHighlighted
      ensures showsTouchWhenHighlighted == Stage(old(showsTouchWhenHighlighted), state, value)
    {
      showsTouchWhenHighlighted := Stage(showsTouchWhenHighlighted, state, value);
    }

    /**
     * `build`: resolve every property for the cursor and push it onto the
     * button. Properties with nothing staged for the cursor, and every
     * property when the cursor is `.all`, keep the button's current value.
     * Staging, the cursor and the button's per-state tables are not touched.
     * Every use of the target is behind a resolved slot, so with no target
     * the call is defined exactly when nothing resolves for the cursor (as
     * under `.all`, or on a fresh builder) and then does nothing.
     */
    method Build()
      requires button != null || NothingResolves(Staging(), state)
      modifies (if button == null then {} else {button})`look
      ensures button != null ==> button.look == Commit(old(button.look), Staging(), state)
    {
      if button == null {
        return;
      }
      var look := button.look;
      var font := Resolve(this.font, state, look.font);
      var borderWidth := Resolve(this.borderWidth, state, look.layerBorderWidth);
      var borderColor := ResolveColor(this.borderColor, state, look.layerBorderColor);
      var cornerRadius := Resolve(this.cornerRadius, state, look.layerCornerRadius);
      var opacity := Resolve(this.opacity, state, look.layerOpacity);
      var backgroundColor := ResolveColor(this.backgroundColor, state, look.layerBackgroundColor);
      var tintColor := Resolve(this.tintColor, state, look.tintColor);
      var shadowColor := ResolveColor(this.shadowColor, state, look.layerShadowColor);
      var shadowOpacity := Resolve(this.shadowOpacity, state, look.layerShadowOpacity);
      var shadowOffset := Resolve(this.shadowOffset, state, look.layerShadowOffset);
      var shadowRadius := Resolve(this.shadowRadius, state, look.layerShadowRadius);
      var shadowPath := Resolve(this.shadowPath, state, look.layerShadowPath);
      var clipsToBounds := Resolve(this.clipsToBounds, state, look.clipsToBounds);
      var masksToBounds := Resolve(this.masksToBounds, state, look.layerMasksToBounds);
      var isExclusiveTouch := Resolve(this.isExclusiveTouch, state, look.isExclusiveTouch);
      var contentHorizontalAlignment := Resolve(this.contentHorizontalAlignment, state, look.contentHorizontalAlignment);
      var contentVerticalAlignment := Resolve(this.contentVerticalAlignment, state, look.contentVerticalAlignment);
      var titleEdgeInsets := Resolve(this.titleEdgeInsets, state, look.titleEdgeInsets);
      var contentEdgeInsets := Resolve(this.contentEdgeInsets, state, look.contentEdgeInsets);
      var imageEdgeInsets := Resolve(this.imageEdgeInsets, state, look.imageEdgeInsets);
      var reversesTitleShadowWhenHighlighted := Resolve(this.reversesTitleShadowWhenHighlighted, state, look.reversesTitleShadowWhenHighlighted);
      var adjustsImageWhenHighlighted := Resolve(this.adjustsImageWhenHighlighted, state, look.adjustsImageWhenHighlighted);
      var adjustsImageWhenDisabled := Resolve(this.adjustsImageWhenDisabled, state, look.adjustsImageWhenDisabled);
      var showsTouchWhenHighlighted := Resolve(this.showsTouchWhenHighlighted, state, look.showsTouchWhenHighlighted);
      button.look := Appearance(
        font,
        borderWidth,
        borderColor,
        cornerRadius,
        opacity,
        backgroundColor,
        tintColor,
        shadowColor,
        shadowOpacity,
        shadowOffset,
        shadowRadius,
        shadowPath,
        clipsToBounds,
        masksToBounds,
        isExclusiveTouch,
        contentHorizontalAlignment,
        contentVerticalAlignment,
        titleEdgeInsets,
        contentEdgeInsets,
        imageEdgeInsets,
        reversesTitleShadowWhenHighlighted,
        adjustsImageWhenHighlighted,
        adjustsImageWhenDisabled,
        showsTouchWhenHighlighted);
    }

    /**
     * `apply`: with no target, nothing happens. Otherwise the cursor becomes
     * the button's current state and the button is built for it.
     */
    method Apply()
      modifies this`state, (if button == null then {} else {button})`look
      ensures old(button) == null ==> state == old(state)
      ensures old(button) != null ==>
                && state == old(button.CurrentState())
                && button.look == Commit(old(button.look), Staging(), state)
    {
      if button == null {
        return;
      }
      state := button.CurrentState();
      Build();
    }
  }
}
