# Resizable profile header: collapse and snap-back model

This project models the scroll-driven profile header of the SwiftUI demo
screen `ExampleView`. As the content scrolls up, the header shrinks from its
full height to a minimum height. The profile image and the user name shrink
and glide towards fixed collapsed positions, and all of this is driven by
one collapse progress value in [0, 1]. When a drag ends with the projected
rest point strictly inside the partially collapsed range, the screen
requests an animated scroll back to the top.

Two modules:

- `HeaderGeometry` (`header_geometry.dfy`) holds the pure arithmetic of
  `HeaderView()` and `moveText`: header metrics, collapse distance,
  progress, image and name scales and translations, header box height and
  shift, and the snap-back rule. Values are `real`.
- `ExampleViewModel` (`example_view.dfy`) holds the class `ExampleView`.
  Its one mutable field is `offsetY`, the negated raw scroll offset. It has
  the scroll callback `OnScroll`, the drag-end callback `OnDraggingEnd` and
  `Deliver`, which routes an event to the right callback. It also holds the
  function `Replay`, which folds `React` over an ordered event stream;
  `Deliver` is proved to match `React` event by event.

Measured on-screen frames (`GeometryReader` results) are parameters
(`MeasuredRect`). The animated scroll to the top is the boolean result of
`OnDraggingEnd`. Its eventual effect, a scroll report of offset 0, is an
ordinary `Scroll(0)` event.

Facts about the code that the model keeps:

- Progress is `clamp(-offsetY / T, 0, 1)`, where `T` is the collapse
  distance. Since `offsetY` is the negated raw offset, progress grows as the
  content scrolls up.
- The box height is `max(headerHeight + offsetY, minimumHeaderHeight)`.
- The collapse distance `headerHeight - minimumHeaderHeight` equals
  `height * 0.3 - 65`. The safe-area inset cancels out. The distance is
  positive exactly when `height * 0.3 > 65`.
- A negative collapse distance is a real division that the code performs,
  so the model allows it. Only a zero distance is excluded.
- The two drag-end callbacks pass different samples: the end of the drag
  passes the projected target offset with the scroll view's release
  velocity, and the end of the deceleration passes the resting offset with
  the pan gesture's velocity. The model takes each sample as given.

## Model

| member | source | states |
|---|---|---|
| `HeaderGeometry.HeaderHeight` | SwiftUI_ResizableHeaderExample/ExampleView.swift:56 | the full header height is 30% of the screen below the safe-area inset, and it reaches the minimum height exactly when 30% of the screen is at least 65 points |
| `HeaderGeometry.MinimumHeaderHeight` | SwiftUI_ResizableHeaderExample/ExampleView.swift:57 | the collapsed header height is 65 points below the safe-area inset, independent of the screen height |
| `HeaderGeometry.Threshold` | SwiftUI_ResizableHeaderExample/ExampleView.swift:56-57 | the collapse distance is `height*0.3 - 65`, does not depend on the safe-area inset, is positive iff `height*0.3 > 65`, and added to the minimum height gives the full height |
| `HeaderGeometry.Clamp01` | SwiftUI_ResizableHeaderExample/ExampleView.swift:60 | `max(min(x, 1), 0)` lies in [0, 1], is the identity on [0, 1], and is 0 below and 1 above |
| `HeaderGeometry.Progress` | SwiftUI_ResizableHeaderExample/ExampleView.swift:59-60 | progress lies in [0, 1] for every offset whenever the collapse distance is non-zero |
| `HeaderGeometry.ProgressClamps` | SwiftUI_ResizableHeaderExample/ExampleView.swift:60 | with a positive collapse distance, progress is 0 for raw offsets ≤ 0, 1 for raw offsets ≥ the distance, and the fraction travelled in between |
| `HeaderGeometry.ProgressMonotone` | SwiftUI_ResizableHeaderExample/ExampleView.swift:60 | progress is non-decreasing in the raw offset |
| `HeaderGeometry.ProgressStrictlyInside` | SwiftUI_ResizableHeaderExample/ExampleView.swift:60 | progress is strictly between 0 and 1 iff the raw offset is strictly between 0 and the collapse distance |
| `HeaderGeometry.ImageScale` | SwiftUI_ResizableHeaderExample/ExampleView.swift:85-86 | for progress in [0, 1] the image scale is in [0.3, 1]; it is 1 iff progress is 0 and 0.3 iff progress is 1 |
| `HeaderGeometry.ImageOffset` | SwiftUI_ResizableHeaderExample/ExampleView.swift:73-88 | the translated left edge and centre interpolate linearly, by progress, from the measured position to the 15-point margin and the collapsed centre; zero translation at progress 0; at progress 1 the image, at the smallest `ImageScale`, has its bottom edge 15 points above the bottom of the minimum header |
| `HeaderGeometry.TextScale` | SwiftUI_ResizableHeaderExample/ExampleView.swift:135-149 | for progress in [0, 1] the name scale is in [0.85, 1]; it is 1 iff progress is 0 and 0.85 iff progress is 1 |
| `HeaderGeometry.TextOffset` | SwiftUI_ResizableHeaderExample/ExampleView.swift:136-150 | the translated name centre interpolates linearly, by progress, from the measured centre to the collapsed centre; zero at progress 0; at progress 1 the centre is half the name at the smallest `TextScale`, the 4.5 gap and half the image frame at the smallest `ImageScale` above the bottom of the minimum header, whatever the measured position |
| `HeaderGeometry.BoxHeight` | SwiftUI_ResizableHeaderExample/ExampleView.swift:103-104 | the header box never goes below the minimum height; it is the full height plus `offsetY` unless that would be below the minimum, when it is the minimum |
| `HeaderGeometry.BoxShift` | SwiftUI_ResizableHeaderExample/ExampleView.swift:105 | the shift applied to the header box is the negation of `offsetY` |
| `HeaderGeometry.HeaderPinnedOverContent` | SwiftUI_ResizableHeaderExample/ExampleView.swift:104-107 | with the content's top at `-offset` on screen, the shifted box's top stays at the top of the screen; its bottom edge meets the top of the cards until the box reaches the minimum height, and overlaps them after that |
| `HeaderGeometry.BoxHeightFollowsProgress` | SwiftUI_ResizableHeaderExample/ExampleView.swift:60-104 | when scrolled up, box height is full height minus progress times the collapse distance; pulled down past the top, it stretches beyond the full height |
| `HeaderGeometry.Visuals` | SwiftUI_ResizableHeaderExample/ExampleView.swift:55-107 | the combined visual parameters keep all bounds; at or below the top everything is at rest, and past the collapse distance everything is at its collapsed value |
| `HeaderGeometry.TargetEnd` | SwiftUI_ResizableHeaderExample/ExampleView.swift:40 | the projected rest point equals the offset at zero velocity and lies ahead of it in the direction of the velocity |
| `HeaderGeometry.ShouldSnap` | SwiftUI_ResizableHeaderExample/ExampleView.swift:36-42 | a snap is requested iff `0 < offset + 45*velocity < headerHeight - minimumHeaderHeight`, both bounds strict, and never when the collapse distance is not positive |
| `HeaderGeometry.SnapIffPartiallyCollapsed` | SwiftUI_ResizableHeaderExample/ExampleView.swift:40-42 | a snap is requested iff the projected rest point would leave progress strictly between 0 and 1 |
| `HeaderGeometry.SnapExamples` | SwiftUI_ResizableHeaderExample/ExampleView.swift:40-42 | with a 200-point distance: rest point 50 snaps; 250, -10, 0 and 200 do not |
| `ExampleViewModel.React` | SwiftUI_ResizableHeaderExample/ExampleView.swift:31-47 | a scroll event stores the negated offset and requests nothing; a drag end keeps the offset and yields the snap decision |
| `ExampleViewModel.Replay` | SwiftUI_ResizableHeaderExample/ExampleView.swift:31-47 | folding the callbacks over an ordered stream never yields more decisions than events, and scroll reports alone request nothing |
| `ExampleViewModel.ReplayOffset` | SwiftUI_ResizableHeaderExample/ExampleView.swift:31-34 | after any event stream the stored offset is the negation of the last scrolled offset, or unchanged if there was no scroll event: drag ends never write it |
| `ExampleViewModel.ReplayRequests` | SwiftUI_ResizableHeaderExample/ExampleView.swift:34-46 | a stream yields exactly one decision per drag end, in order, each the snap rule applied to that sample alone |
| `ExampleViewModel.GestureDecisions` | SwiftUI_ResizableHeaderExample/ScrollDetector.swift:59-72 | a gesture (drag end with the projected target, the deceleration's scroll reports, deceleration end with the resting offset) yields two decisions, each on its own sample as given, and leaves the last scrolled offset stored |
| `ExampleViewModel.SnapBackExpandsHeader` | SwiftUI_ResizableHeaderExample/ExampleView.swift:42-45 | once the scroll to the top reports offset 0, the header is fully expanded whatever happened before |
| `ExampleViewModel.ExampleView.constructor` | SwiftUI_ResizableHeaderExample/ExampleView.swift:10-15 | the view starts with `offsetY` 0 and the given viewport |
| `ExampleViewModel.ExampleView.OnScroll` | SwiftUI_ResizableHeaderExample/ExampleView.swift:31-33 | the scroll callback sets `offsetY` to the negated offset and changes nothing else |
| `ExampleViewModel.ExampleView.OnDraggingEnd` | SwiftUI_ResizableHeaderExample/ExampleView.swift:34-47 | the drag-end callback changes no state; it requests a scroll to the top iff the projected rest point is strictly inside the collapse range, which is the same as strictly partial progress there |
| `ExampleViewModel.ExampleView.Deliver` | SwiftUI_ResizableHeaderExample/ScrollDetector.swift:53-72 | delivering an event through the callbacks has exactly the effect `React` specifies |
| `ExampleViewModel.ExampleView.Header` | SwiftUI_ResizableHeaderExample/ExampleView.swift:55-107 | the header drawn from the current state respects the minimum height and the scale bounds, and its shift cancels `offsetY` (which `HeaderPinnedOverContent` turns into the on-screen position) |

## Left out

- `ScrollDetector` plumbing is not part of this model. This covers the view-hierarchy walk, the main-queue dispatch, the delegate flag and UIKit delegate registration. Only its routing of both end callbacks to the drag-end handler is kept, in `Deliver` and `GestureDecisions`. The two callbacks' velocities come from different UIKit sources, with different units and sign conventions; the model takes each sample as given and does not convert them.
- The spring animation and `scrollTo` are framework calls. The request is a boolean, and its effect is the later scroll report of offset 0. Overlapping animations are not modelled.
- `GeometryReader` measurement: the measured frames are parameters.
- Rendering glue is not modelled: the gradient, image, clip shape, fonts, hidden text with its overlay, the card list and the preview.
- `CGFloat` rounding, NaN and infinity: all values are `real`, and Swift's `min`/`max` are modelled as ordinary min/max.
- HeaderGeometry.Progress: requires a non-zero collapse distance. The source divides without a guard, and at a zero distance the `CGFloat` result is infinite or NaN, which a `real` cannot express.
