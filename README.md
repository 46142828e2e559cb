# ButtonStyleBuilder, modelled in Dafny

`ButtonStyleBuilder` is the chainable style builder of the ButtonStyleKit
library (a `UIButton` subclass kit for iOS). The builder keeps, for each of 24
visual properties (font, layer border, corner radius, shadow, insets, …), a
`Property<T>` record with one optional slot per control state: normal,
highlighted, selected and disabled. A state cursor (default `.normal`, or
`.all` for all four at once) decides which slots a staged setter writes.
`build` pushes onto the target button every property whose slot for the
cursor is present and leaves the others alone. `apply` moves the cursor to
the button's current state and builds. Six further setters (title, title
colour, title shadow colour, image, background image, attributed title) skip
staging and write straight into the button's UIKit per-state tables.

The project has five modules:

- `Wrappers` (`wrappers.dfy`): `Option`, standing for Swift's optionals.
- `UIKit` (`uikit.dfy`): the platform values the builder only stores and copies, as opaque types, and `UIControl.State`.
- `ButtonStyleKit` (`buttonstylekit.dfy`):
  - the builder's `ButtonState` and its `getState()` mapping;
  - the per-state table write made by the immediate setters;
  - the target `Button` class, holding its per-state tables, its directly assignable appearance and its live state.
- `Staging` (`staging.dfy`):
  - `Property<T>`;
  - `setProperty` as `Stage` and `attachProperty` as `Attach`;
  - the staging properties, including last-write-wins over any chain of writes.
- `Builder` (`builder.dfy`):
  - the `ButtonStyleBuilder` class, with its target, cursor and 24 records;
  - all of its setters, `Build` and `Apply`;
  - the ghost specification `Commit` of what `build` leaves on the button, and the lemmas about it.

## Model

| member | source | states |
|---|---|---|
| ButtonStyleKit.GetState | ButtonStyleKitSample/ButtonStyleKit/ButtonStyleBuilder.swift:62-69 | `getState()` yields no UIKit state exactly for `.all`; for every other builder state it yields the one concrete state that state names |
| ButtonStyleKit.GetStateRoundTrip | ButtonStyleKitSample/ButtonStyleKit/ButtonStyleBuilder.swift:62-69 | each concrete UIKit state is named by exactly one builder state, and `getState()` recovers it |
| ButtonStyleKit.PerStateWrite | ButtonStyleKitSample/ButtonStyleKit/ButtonStyleBuilder.swift:61-71 | an immediate write under cursor `.all` sets the table entry of all four states to the value; under a concrete cursor it sets only that state's entry; every other entry (present or absent) is unchanged |
| ButtonStyleKit.FanOutReachesEveryState | ButtonStyleKitSample/ButtonStyleKit/ButtonStyleBuilder.swift:64-69 | the four writes of the `else` branch leave every state's entry holding the value |
| ButtonStyleKit.Button.CurrentState | ButtonStyleKitSample/ButtonStyleKit/ButtonStyleBuilder.swift:372 | `currentState` is always a concrete state, the button's live state, never `.all` |
| ButtonStyleKit.Button.SetTitle | ButtonStyleKitSample/ButtonStyleKit/ButtonStyleBuilder.swift:63 | UIKit's `setTitle(_:for:)`: the `titles` entry for that one state becomes the value; no other field of the button changes |
| ButtonStyleKit.Button.SetTitleColor | ButtonStyleKitSample/ButtonStyleKit/ButtonStyleBuilder.swift:75 | UIKit's `setTitleColor(_:for:)`: the `titleColors` entry for that one state becomes the value; no other field of the button changes |
| ButtonStyleKit.Button.SetTitleShadowColor | ButtonStyleKitSample/ButtonStyleKit/ButtonStyleBuilder.swift:87 | UIKit's `setTitleShadowColor(_:for:)`: the `titleShadowColors` entry for that one state becomes the value; no other field of the button changes |
| ButtonStyleKit.Button.SetImage | ButtonStyleKitSample/ButtonStyleKit/ButtonStyleBuilder.swift:99 | UIKit's `setImage(_:for:)`: the `images` entry for that one state becomes the value; no other field of the button changes |
| ButtonStyleKit.Button.SetBackgroundImage | ButtonStyleKitSample/ButtonStyleKit/ButtonStyleBuilder.swift:111 | UIKit's `setBackgroundImage(_:for:)`: the `backgroundImages` entry for that one state becomes the value; no other field of the button changes |
| ButtonStyleKit.Button.SetAttributedTitle | ButtonStyleKitSample/ButtonStyleKit/ButtonStyleBuilder.swift:123 | UIKit's `setAttributedTitle(_:for:)`: the `attributedTitles` entry for that one state becomes the value; no other field of the button changes |
| Staging.Unstaged | ButtonStyleKitSample/ButtonStyleKit/ButtonStyleBuilder.swift:11-16 | a fresh `Property` holds nothing in any of its four slots |
| Staging.Attach | ButtonStyleKitSample/ButtonStyleKit/ButtonStyleBuilder.swift:376-389 | `attachProperty` resolves nothing under `.all`, and under a concrete state returns exactly that state's slot |
| Staging.Stage | ButtonStyleKitSample/ButtonStyleKit/ButtonStyleBuilder.swift:253-269 | `setProperty` puts the value in every slot the cursor covers (all four for `.all`, exactly one otherwise) and leaves every other slot as it was |
| Staging.StageAllStates | ButtonStyleKitSample/ButtonStyleKit/ButtonStyleBuilder.swift:255-259 | after staging under `.all`, every concrete state resolves to the staged value |
| Staging.StageOneState | ButtonStyleKitSample/ButtonStyleKit/ButtonStyleBuilder.swift:260-267 | after staging under a concrete state, that state resolves to the value and each other concrete state resolves as before |
| Staging.StageLastWriteWins | ButtonStyleKitSample/ButtonStyleKit/ButtonStyleBuilder.swift:253-269 | staging v1 and then v2 under the same concrete state resolves that state to v2 |
| Staging.StageChainSnoc | ButtonStyleKitSample/ButtonStyleKit/ButtonStyleBuilder.swift:253-269 | staging a chain of writes and then one more write is the chain extended by that write |
| Staging.StageChainLastWriteWins | ButtonStyleKitSample/ButtonStyleKit/ButtonStyleBuilder.swift:253-269 | after any sequence of staged writes, each state's slot holds the value of the last write whose cursor covered that state, or its initial content if none did (checked against the independent back-to-front definition `LastCovering`) |
| Builder.NothingResolvesUnderAll | ButtonStyleKitSample/ButtonStyleKit/ButtonStyleBuilder.swift:377-379 | under cursor `.all` no property resolves, whatever is staged |
| Builder.NothingResolvesWhenNothingStaged | ButtonStyleKitSample/ButtonStyleKit/ButtonStyleBuilder.swift:23-46 | on the table a new builder starts with, no property resolves under any cursor |
| Builder.CommitWhenNothingResolves | ButtonStyleKitSample/ButtonStyleKit/ButtonStyleBuilder.swift:272-368 | when no property resolves for the cursor, `build` changes no button property |
| Builder.CommitUnderAllKeepsLook | ButtonStyleKitSample/ButtonStyleKit/ButtonStyleBuilder.swift:272-368 | `build` under cursor `.all` changes no button property, whatever is staged |
| Builder.CommitIdempotent | ButtonStyleKitSample/ButtonStyleKit/ButtonStyleBuilder.swift:272-368 | building twice with nothing staged in between leaves the button as building once does |
| Builder.CommitNothingStaged | ButtonStyleKitSample/ButtonStyleKit/ButtonStyleBuilder.swift:272-368 | with nothing staged, `build` leaves every button property as it was |
| Builder.CommitAfterStagingCornerRadius | ButtonStyleKitSample/ButtonStyleKit/ButtonStyleBuilder.swift:285-287 | a corner radius staged under a concrete cursor and then built under that cursor becomes the layer's corner radius; every other property ends as it would have without that write |
| Builder.CommitAfterStagingBorderColor | ButtonStyleKitSample/ButtonStyleKit/ButtonStyleBuilder.swift:281-283 | as for the corner radius, with the layer receiving the staged colour's `cgColor` |
| Builder.CommitOnlyCornerRadius | ButtonStyleKitSample/ButtonStyleKit/ButtonStyleBuilder.swift:272-368 | if only a corner radius is staged, for the state being built, the layer's corner radius is the only property that changes |
| Builder.CommitReadsOnlyCursorSlots | ButtonStyleKitSample/ButtonStyleKit/ButtonStyleBuilder.swift:272-368 | `build` depends only on what is staged for the cursor: two staging tables that agree on the cursor's slots build the same button |
| Builder.ButtonStyleBuilder.constructor | ButtonStyleKitSample/ButtonStyleKit/ButtonStyleBuilder.swift:20-48 | a new builder has no target, cursor `.normal`, and nothing staged in any of the 24 properties |
| Builder.ButtonStyleBuilder.SetButton | ButtonStyleKitSample/ButtonStyleKit/ButtonStyleBuilder.swift:51-54 | the target becomes the given button; cursor and staging are unchanged |
| Builder.ButtonStyleBuilder.SetState | ButtonStyleKitSample/ButtonStyleKit/ButtonStyleBuilder.swift:56-59 | the cursor becomes the given state; target and staging are unchanged |
| Builder.ButtonStyleBuilder.SetTitle | ButtonStyleKitSample/ButtonStyleKit/ButtonStyleBuilder.swift:61-71 | the button's `titles` table becomes `PerStateWrite` of the old one: all four states under `.all`, only the cursor's state otherwise; staging, cursor and every other button field are unchanged |
| Builder.ButtonStyleBuilder.SetTitleColor | ButtonStyleKitSample/ButtonStyleKit/ButtonStyleBuilder.swift:73-83 | the button's `titleColors` table becomes `PerStateWrite` of the old one: all four states under `.all`, only the cursor's state otherwise; staging, cursor and every other button field are unchanged |
| Builder.ButtonStyleBuilder.SetTitleShadowColor | ButtonStyleKitSample/ButtonStyleKit/ButtonStyleBuilder.swift:85-95 | the button's `titleShadowColors` table becomes `PerStateWrite` of the old one: all four states under `.all`, only the cursor's state otherwise; staging, cursor and every other button field are unchanged |
| Builder.ButtonStyleBuilder.SetImage | ButtonStyleKitSample/ButtonStyleKit/ButtonStyleBuilder.swift:97-107 | the button's `images` table becomes `PerStateWrite` of the old one: all four states under `.all`, only the cursor's state otherwise; staging, cursor and every other button field are unchanged |
| Builder.ButtonStyleBuilder.SetBackgroundImage | ButtonStyleKitSample/ButtonStyleKit/ButtonStyleBuilder.swift:109-119 | the button's `backgroundImages` table becomes `PerStateWrite` of the old one: all four states under `.all`, only the cursor's state otherwise; staging, cursor and every other button field are unchanged |
| Builder.ButtonStyleBuilder.SetAttributedTitle | ButtonStyleKitSample/ButtonStyleKit/ButtonStyleBuilder.swift:121-131 | the button's `attributedTitles` table becomes `PerStateWrite` of the old one: all four states under `.all`, only the cursor's state otherwise; staging, cursor and every other button field are unchanged |
| Builder.ButtonStyleBuilder.SetFont | ButtonStyleKitSample/ButtonStyleKit/ButtonStyleBuilder.swift:133-136 | the `font` record becomes `Stage` of the old one under the cursor, staging the value; no other record, the cursor and the button are unchanged |
| Builder.ButtonStyleBuilder.SetBorderWidth | ButtonStyleKitSample/ButtonStyleKit/ButtonStyleBuilder.swift:138-141 | the `borderWidth` record becomes `Stage` of the old one under the cursor, staging the value; no other record, the cursor and the button are unchanged |
| Builder.ButtonStyleBuilder.SetBorderColor | ButtonStyleKitSample/ButtonStyleKit/ButtonStyleBuilder.swift:143-146 | the `borderColor` record becomes `Stage` of the old one under the cursor, staging the value; no other record, the cursor and the button are unchanged |
| Builder.ButtonStyleBuilder.SetCornerRadius | ButtonStyleKitSample/ButtonStyleKit/ButtonStyleBuilder.swift:148-151 | the `cornerRadius` record becomes `Stage` of the old one under the cursor, staging the value; no other record, the cursor and the button are unchanged |
| Builder.ButtonStyleBuilder.SetOpacity | ButtonStyleKitSample/ButtonStyleKit/ButtonStyleBuilder.swift:153-156 | the `opacity` record becomes `Stage` of the old one under the cursor, staging the value; no other record, the cursor and the button are unchanged |
| Builder.ButtonStyleBuilder.SetBackgroundColor | ButtonStyleKitSample/ButtonStyleKit/ButtonStyleBuilder.swift:158-161 | the `backgroundColor` record becomes `Stage` of the old one under the cursor, staging the value; no other record, the cursor and the button are unchanged |
| Builder.ButtonStyleBuilder.SetTintColor | ButtonStyleKitSample/ButtonStyleKit/ButtonStyleBuilder.swift:163-166 | the `tintColor` record becomes `Stage` of the old one under the cursor, staging the value; no other record, the cursor and the button are unchanged |
| Builder.ButtonStyleBuilder.SetShadowColor | ButtonStyleKitSample/ButtonStyleKit/ButtonStyleBuilder.swift:168-171 | the `shadowColor` record becomes `Stage` of the old one under the cursor, staging the value; no other record, the cursor and the button are unchanged |
| Builder.ButtonStyleBuilder.SetShadowOpacity | ButtonStyleKitSample/ButtonStyleKit/ButtonStyleBuilder.swift:173-176 | the `shadowOpacity` record becomes `Stage` of the old one under the cursor, staging the value; no other record, the cursor and the button are unchanged |
| Builder.ButtonStyleBuilder.SetShadowOffset | ButtonStyleKitSample/ButtonStyleKit/ButtonStyleBuilder.swift:178-181 | the `shadowOffset` record becomes `Stage` of the old one under the cursor, staging the value; no other record, the cursor and the button are unchanged |
| Builder.ButtonStyleBuilder.SetShadowRadius | ButtonStyleKitSample/ButtonStyleKit/ButtonStyleBuilder.swift:183-186 | the `shadowRadius` record becomes `Stage` of the old one under the cursor, staging the value; no other record, the cursor and the button are unchanged |
| Builder.ButtonStyleBuilder.SetShadowPath | ButtonStyleKitSample/ButtonStyleKit/ButtonStyleBuilder.swift:188-191 | the `shadowPath` record becomes `Stage` of the old one under the cursor, staging the value; no other record, the cursor and the button are unchanged |
| Builder.ButtonStyleBuilder.SetMasksToBounds | ButtonStyleKitSample/ButtonStyleKit/ButtonStyleBuilder.swift:193-196 | the `masksToBounds` record becomes `Stage` of the old one under the cursor, staging the value; no other record, the cursor and the button are unchanged |
| Builder.ButtonStyleBuilder.SetClipsToBounds | ButtonStyleKitSample/ButtonStyleKit/ButtonStyleBuilder.swift:198-201 | the `clipsToBounds` record becomes `Stage` of the old one under the cursor, staging the value; no other record, the cursor and the button are unchanged |
| Builder.ButtonStyleBuilder.SetExclusiveTouch | ButtonStyleKitSample/ButtonStyleKit/ButtonStyleBuilder.swift:203-206 | the `isExclusiveTouch` record becomes `Stage` of the old one under the cursor, staging the value; no other record, the cursor and the button are unchanged |
| Builder.ButtonStyleBuilder.SetContentHorizontalAlignment | ButtonStyleKitSample/ButtonStyleKit/ButtonStyleBuilder.swift:208-211 | the `contentHorizontalAlignment` record becomes `Stage` of the old one under the cursor, staging the value; no other record, the cursor and the button are unchanged |
| Builder.ButtonStyleBuilder.SetContentVerticalAlignment | ButtonStyleKitSample/ButtonStyleKit/ButtonStyleBuilder.swift:213-216 | the `contentVerticalAlignment` record becomes `Stage` of the old one under the cursor, staging the value; no other record, the cursor and the button are unchanged |
| Builder.ButtonStyleBuilder.SetTitleEdgeInsets | ButtonStyleKitSample/ButtonStyleKit/ButtonStyleBuilder.swift:218-221 | the `titleEdgeInsets` record becomes `Stage` of the old one under the cursor, staging the insets built from (top, left, bottom, right); no other record, the cursor and the button are unchanged |
| Builder.ButtonStyleBuilder.SetContentEdgeInsets | ButtonStyleKitSample/ButtonStyleKit/ButtonStyleBuilder.swift:223-226 | the `contentEdgeInsets` record becomes `Stage` of the old one under the cursor, staging the insets built from (top, left, bottom, right); no other record, the cursor and the button are unchanged |
| Builder.ButtonStyleBuilder.SetImageEdgeInsets | ButtonStyleKitSample/ButtonStyleKit/ButtonStyleBuilder.swift:228-231 | the `imageEdgeInsets` record becomes `Stage` of the old one under the cursor, staging the insets built from (top, left, bottom, right); no other record, the cursor and the button are unchanged |
| Builder.ButtonStyleBuilder.SetReversesTitleShadowWhenHighlighted | ButtonStyleKitSample/ButtonStyleKit/ButtonStyleBuilder.swift:233-236 | the `reversesTitleShadowWhenHighlighted` record becomes `Stage` of the old one under the cursor, staging the value; no other record, the cursor and the button are unchanged |
| Builder.ButtonStyleBuilder.SetAdjustsImageWhenHighlighted | ButtonStyleKitSample/ButtonStyleKit/ButtonStyleBuilder.swift:238-241 | the `adjustsImageWhenHighlighted` record becomes `Stage` of the old one under the cursor, staging the value; no other record, the cursor and the button are unchanged |
| Builder.ButtonStyleBuilder.SetAdjustsImageWhenDisabled | ButtonStyleKitSample/ButtonStyleKit/ButtonStyleBuilder.swift:243-246 | the `adjustsImageWhenDisabled` record becomes `Stage` of the old one under the cursor, staging the value; no other record, the cursor and the button are unchanged |
| Builder.ButtonStyleBuilder.SetShowsTouchWhenHighlighted | ButtonStyleKitSample/ButtonStyleKit/ButtonStyleBuilder.swift:248-251 | the `showsTouchWhenHighlighted` record becomes `Stage` of the old one under the cursor, staging the value; no other record, the cursor and the button are unchanged |
| Builder.ButtonStyleBuilder.Build | ButtonStyleKitSample/ButtonStyleKit/ButtonStyleBuilder.swift:272-368 | callable with a target, or without one exactly when nothing resolves for the cursor (then it does nothing); with a target, the button's appearance becomes `Commit` of the old one: each property whose slot for the cursor is staged takes that value (colours as `cgColor`), every other property keeps its value; staging, the cursor and the button's per-state tables are unchanged |
| Builder.ButtonStyleBuilder.Apply | ButtonStyleKitSample/ButtonStyleKit/ButtonStyleBuilder.swift:370-374 | with no target nothing changes; otherwise the cursor becomes the button's current state and the button ends as `Build` leaves it for that state |

## Left out

- Button appearance: the 24 directly assignable properties of the button are one record-valued field, `Button.look`. Those are the ones on the button itself, on its `layer`, and the `titleLabel`'s font; the `layer.` properties are flattened into `layer`-prefixed record fields. `Build` computes every resolved property and assigns the record once. The source makes 24 separate conditional assignments. The final state is the same, because an absent slot keeps the current value. There is one exception: UIKit's `clipsToBounds` and `layer.masksToBounds` share one storage. When both are staged with different values, the source's `masksToBounds` write (line 326) overwrites the `clipsToBounds` write (line 322). The model keeps them as two independent fields. The order of the individual writes, and any side effect a UIKit property setter has, are not modelled.
- Builder.ButtonStyleBuilder.Build: the `titleLabel?` optional chain at line 274 is not modelled. The model assumes the button has a title label, so a staged font is always written.
- `.cgColor` is modelled as the constructor `CGColorOf`. It is a total, injective wrapper, and the conversion's platform semantics are not captured.
- `Property<T>` is a Swift class that `setProperty` mutates in place. The model makes it a value: `Stage` returns the new record and each staged setter reassigns its field. Each record is private to one builder and never shared, so no aliasing is lost.
- The setters' `-> Self` return values, used only for call chaining, are dropped.
- The weak reference to the button is modelled as `Button?`. ARC, and the button being deallocated behind the builder's back, are not modelled.
- Builder.ButtonStyleBuilder.Build: requires a target unless nothing resolves for the cursor. The source reaches `button` only inside a resolved `if let` branch, so it traps exactly when the target is `nil` and at least one slot resolves. The model excludes that call rather than modelling the trap.
- Builder.ButtonStyleBuilder.SetTitle: requires a target, as do the other five immediate setters. They use the implicitly unwrapped `button` on every path, so the source traps whenever it is `nil`.
- `ButtonStyleKit.swift` is not part of this model. So `ButtonState.getState()` is modelled as yielding no state exactly for `.all`, as the `else` fan-out branches imply. `currentState` is modelled as the button's live state (`liveState`), which is an input, so its precedence rule between UIKit states is not modelled.
- ButtonStyleKit.Button.SetTitle: UIKit's own per-state setters are modelled as plain table writes, and so are the other five. UIKit's fallback to the normal state's value when a state has no entry is not modelled.
- `createViewToImage` and both `createImageView` overloads (lines 395-439) are left out. They only build views and render bitmaps through UIKit.
- `CGFloat` and `Float` values are opaque. The builder only stores and copies them, so their floating-point meaning plays no part.
