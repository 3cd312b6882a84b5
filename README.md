# Running-tracker simulation and route projector, in Dafny

This project models the engine of a simulated running tracker. The tracker
fabricates elapsed time, distance and GPS-like positions, and shows them in
three layouts: wearable, smartphone and desktop.

- **Run simulation** (`run_context.dfy`, module `RunContext`). A
  `RunProvider` class owns the one run record: distance with a km/mi unit,
  hours:minutes:seconds with the `isRunning` flag, and a trail of at most 100
  positions plus the current position. There are four commands: start,
  pause, reset and toggle unit. A one-second `Tick` advances the clock with
  carries, adds a random distance increment rounded to two decimals, and
  moves the position by a random step. The new position is appended to the
  trail, which is cut to its last 100 entries. The three `Math.random()`
  draws are method parameters in `[0, 1)`, and the source's own arithmetic
  is applied to them. Distance is a whole number of hundredths, because
  every write goes through `toFixed(2)`. `toFixed(2)` is modelled as
  rounding the exact real value to the nearest hundredth, with ties going
  up.
- **Route projector** (`map_module.dfy`, module `MapModule`). This is the
  geometry of one redraw. It computes the bounds of the trail and the
  current position and widens each side by 0.001. It then maps
  coordinates onto the 300 x 300 surface with 20 units of padding, with the
  vertical axis inverted. It produces the 4 x 4 grid, the route polyline
  and the position marker. Coordinates are `real`.
- **View rules**: the width classifier (`use_device_type.dfy`), the
  wearable carousel and its swipe threshold (`wearable_view.dfy`), the
  zero-padded `HH:MM:SS` display and its buttons (`time_module.dfy`), and
  the desktop keyboard shortcuts (`desktop_view.dfy`).
- `types.dfy` mirrors the record shape of `src/types/index.ts`.

The km -> mi -> km round trip is not guaranteed to come back within 0.01
for every distance, because the two ratios multiply to 0.99999720514 and
not to 1. The model proves the 0.01 bound for distances up to 1000 km
(`KmMiKmWithinOneHundredth`). It also proves that the round trip is not the
identity: 0.01 km becomes 0.02 km (`KmMiKmNotIdentity`).

## Model

| member | source | states |
|---|---|---|
| `RunContext.RunProvider.constructor` | src/context/RunContext.tsx:12-35 | the record starts as the initial record: 0 km, 00:00:00 stopped, empty trail, position (40.7128, -74.0060) |
| `RunContext.RunProvider.UpdateTime` | src/context/RunContext.tsx:38-57 | one second later: the new clock is the carried clock showing the old total of hours*3600+minutes*60+seconds plus one, with the same running flag, and nothing else changes |
| `RunContext.FromTotalSeconds` | src/context/RunContext.tsx:38-57 | the reference clock the tick is stated against: for every count of seconds, a clock with minutes and seconds below 60 showing exactly that count |
| `RunContext.NormalizedTimeUnique` | src/context/RunContext.tsx:43-51 | a carried clock is fixed by its total seconds, so the carries in the tick leave no choice |
| `RunContext.TimeAfterAddsSeconds` | src/context/RunContext.tsx:38-57 | n ticks from a carried clock give the carried clock showing n more seconds |
| `RunContext.ClockAfter3661Ticks` | src/context/RunContext.tsx:38-57 | 3661 ticks from 00:00:00 read 01:01:01 |
| `RunContext.RoundToHundredths` | src/context/RunContext.tsx:68 | `toFixed(2)` gives the nearest hundredth, ties going up |
| `RunContext.AdvancedDistance` | src/context/RunContext.tsx:60-70 | a tick adds between 0.01 and 0.05 after rounding: distance strictly increases, stays non-negative and keeps its unit |
| `RunContext.RunProvider.UpdateDistance` | src/context/RunContext.tsx:60-71 | only the distance changes, by the rounded increment |
| `RunContext.MovedPosition` | src/context/RunContext.tsx:76-80 | each coordinate moves by at least -0.0005 and less than 0.0005 |
| `RunContext.KeepLast` | src/context/RunContext.tsx:82-85 | `slice(-100)` keeps the last min(n, 100) elements, in order |
| `RunContext.KeepLastAbsorbs` | src/context/RunContext.tsx:82-85 | cutting the trail on every tick gives the same result as cutting once at the end |
| `RunContext.TrailAfter` | src/context/RunContext.tsx:82-92 | the trail after appending positions one tick at a time stays at most 100 long, and its last entry is the latest position |
| `RunContext.TrailKeepsLastHundred` | src/context/RunContext.tsx:82-92 | after any number of ticks the trail is exactly the last 100 positions appended, in chronological order |
| `RunContext.RunProvider.UpdateRoute` | src/context/RunContext.tsx:73-95 | the moved position becomes the current position and the last trail entry; the trail stays at most 100 long |
| `RunContext.RunProvider.Tick` | src/context/RunContext.tsx:97-104 | while running, the clock moves to the carried clock one second further on, and distance and route advance in the same step; while stopped, nothing changes |
| `RunContext.RunProvider.StartRun` | src/context/RunContext.tsx:116-121 | only `isRunning` changes, to true, so a second start changes nothing |
| `RunContext.RunProvider.PauseRun` | src/context/RunContext.tsx:123-128 | only `isRunning` changes, to false, so a second pause changes nothing |
| `RunContext.RunProvider.ResetRun` | src/context/RunContext.tsx:130-132 | the record becomes the initial record, whatever it was before |
| `RunContext.ToggledDistance` | src/context/RunContext.tsx:134-154 | the unit flips, and the value becomes the nearest hundredth of value*0.621371 (km to mi) or value*1.60934 (mi to km) |
| `RunContext.RunProvider.ToggleUnit` | src/context/RunContext.tsx:134-155 | only the distance changes, as the toggled distance; time and route are untouched |
| `RunContext.ToggleTwiceRestoresUnit` | src/context/RunContext.tsx:136-137 | toggling twice restores the unit |
| `RunContext.KmMiKmWithinOneHundredth` | src/context/RunContext.tsx:141-145 | km -> mi -> km returns within 0.01 for distances up to 1000 km |
| `RunContext.MiKmMiExact` | src/context/RunContext.tsx:141-145 | mi -> km -> mi returns exactly the value for distances up to 600 mi |
| `RunContext.KmMiKmNotIdentity` | src/context/RunContext.tsx:141-145 | 0.01 km -> 0.01 mi -> 0.02 km, so the round trip is not exact |
| `MapModule.ComputeBounds` | src/components/MapModule.tsx:26-43 | before widening, the box is the smallest one that holds the trail and the current position; after widening, all those points are strictly inside and both spans are at least 0.002 |
| `MapModule.LatLngToXY` | src/components/MapModule.tsx:45-49 | the box's west and east sides land on x = 20 and x = 280, its south and north sides on y = 280 and y = 20 |
| `MapModule.TightBoxUnique` | src/components/MapModule.tsx:26-43 | the widened box is determined by the points it is computed from |
| `MapModule.ProjectionInsidePadding` | src/components/MapModule.tsx:45-48 | a point strictly inside the bounds projects into the open square (20, 280) x (20, 280) |
| `MapModule.ProjectionMonotone` | src/components/MapModule.tsx:46-47 | larger longitude if and only if larger x; larger latitude if and only if smaller y |
| `MapModule.EmptyTrailCentred` | src/components/MapModule.tsx:26-48 | with an empty trail the bounds are not degenerate and the current position projects to (150, 150) |
| `MapModule.GridLines` | src/components/MapModule.tsx:58-70 | ten lines: a vertical and a horizontal one at each of 20, 85, 150, 215 and 280, spanning the padded square |
| `MapModule.RoutePath` | src/components/MapModule.tsx:73-93 | no polyline for fewer than two points; otherwise a move to the first point and then a line to every later point in index order, n-1 segments |
| `MapModule.Render` | src/components/MapModule.tsx:14-123 | for the box tight around the current position and the trail, widened by 0.001: the marker is the projection of the current position, each polyline vertex the projection of the trail point at the same index, the grid is the ten grid lines; every vertex and the marker lie strictly inside the padding, and with an empty trail the marker is at the centre |
| `UseDeviceType.DeviceTypeState.constructor` | src/hooks/useDeviceType.ts:5 | the state starts as desktop |
| `UseDeviceType.DeviceTypeState.HandleResize` | src/hooks/useDeviceType.ts:8-18 | the state becomes the classification of the width |
| `UseDeviceType.DeviceTypeState.Mount` | src/hooks/useDeviceType.ts:20-21 | on mount the width is classified right away |
| `UseDeviceType.Classify` | src/hooks/useDeviceType.ts:11-17 | wearable if and only if width < 300, smartphone if and only if 300 <= width < 768, desktop if and only if width >= 768 |
| `UseDeviceType.ClassifyMonotone` | src/hooks/useDeviceType.ts:11-17 | a wider viewport never gets a smaller category in the order wearable < smartphone < desktop |
| `WearableView.Carousel.constructor` | src/components/WearableView.tsx:9 | the index starts at 0 |
| `WearableView.Carousel.NavigatePrev` | src/components/WearableView.tsx:20-22 | the index moves back, wrapping 0 to 2, and stays in [0, 3) |
| `WearableView.Carousel.NavigateNext` | src/components/WearableView.tsx:24-26 | the index moves forward, wrapping 2 to 0, and stays in [0, 3) |
| `WearableView.PrevIndex` | src/components/WearableView.tsx:21 | on a valid index, moving back is subtracting one modulo the three modules |
| `WearableView.NextIndex` | src/components/WearableView.tsx:25 | on a valid index, moving forward is adding one modulo the three modules |
| `WearableView.NavigationInRange` | src/components/WearableView.tsx:20-26 | both moves keep a valid index valid; prev wraps 0 to 2 and next wraps 2 to 0 |
| `WearableView.NavigationInverse` | src/components/WearableView.tsx:20-26 | next then prev, and prev then next, give the same index; three nexts are the identity |
| `WearableView.Carousel.HandleSwipe` | src/components/WearableView.tsx:31-39 | a travel start-end above 50 moves next, below -50 moves prev, anything in [-50, 50] leaves the index unchanged |
| `WearableView.Rendered` | src/components/WearableView.tsx:61-69 | at most one module is rendered, and none for an index outside 0..2 |
| `WearableView.ExactlyOneRendered` | src/components/WearableView.tsx:61-69 | for each valid index exactly one module is rendered: distance, time or route |
| `TimeModule.NatToString` | src/components/TimeModule.tsx:15 | `toString()` of a non-negative integer is a non-empty digit string without a leading zero |
| `TimeModule.PadStart` | src/components/TimeModule.tsx:15 | `padStart` keeps the string as its suffix and fills the front up to the target length |
| `TimeModule.NatToStringLength` | src/components/TimeModule.tsx:15 | one digit exactly below 10, two digits from 10 to 99 |
| `TimeModule.FormatTime` | src/components/TimeModule.tsx:14-16 | a field is at least two characters, all of them decimal digits |
| `TimeModule.FormatTimeShape` | src/components/TimeModule.tsx:14-16 | 0..9 get one leading '0', values from 10 are their plain digits, the result has length >= 2, and exactly 2 below 100 |
| `TimeModule.ParseNatToString` | src/components/TimeModule.tsx:15 | reading the digits of a value back as a decimal number gives the value |
| `TimeModule.ParseLeadingZero` | src/components/TimeModule.tsx:15 | a leading '0' does not change the number read |
| `TimeModule.FormatTimeRoundTrip` | src/components/TimeModule.tsx:15 | reading a formatted field back gives the value |
| `TimeModule.TimeDisplay` | src/components/TimeModule.tsx:28 | the display is at least eight characters: three fields of two or more and the two colons |
| `TimeModule.TimeDisplayFields` | src/components/TimeModule.tsx:28 | the display is HH ':' MM ':' SS, and with minutes and seconds below 60 the MM and SS fields are two characters that read back as the minutes and the seconds |
| `TimeModule.ControlButtons` | src/components/TimeModule.tsx:32-59 | pause is shown if and only if running, start otherwise, and reset always |
| `DesktopView.Theme.constructor` | src/components/DesktopView.tsx:11 | the view starts from the dark-mode flag the theme provider hands it |
| `DesktopView.Theme.ToggleDarkMode` | src/components/DesktopView.tsx:37-39 | the dark-mode flag is flipped |
| `DesktopView.HandleKeyDown` | src/components/DesktopView.tsx:23-40 | Space flips `isRunning` and changes nothing else; KeyR resets the record; KeyD toggles only dark mode; any other code changes nothing |
| `DesktopView.SpaceTwiceRestores` | src/components/DesktopView.tsx:24-31 | two Space presses in a row restore the run record and the theme |

## Left out

- Timer plumbing: the interval is not modelled. This covers `setInterval`, `clearInterval`, the effect lifecycle and the cleanup's handling of the stored timer id (src/context/RunContext.tsx:97-114). Instead, `Tick` is an explicit method that does nothing while stopped.
- Randomness: `Math.random()` is replaced by parameters whose range `[0, 1)` is a precondition.
- Binary floating point is not modelled. Distances are exact hundredths, and coordinates and projections are exact reals. Binary drift at rounding ties, and NaN or infinities, do not arise in the model.
- The km -> mi -> km round trip is proved only up to 1000 km. Beyond that, the error grows with the distance because the ratios' product is not 1.
- Canvas side effects are left out: clearing, gradients, colours, line widths, line caps, shadows, and the glow and dot radii. The pulse radius `12 + 4*sin(Date.now()/200)` is also left out, because it is trigonometry on wall-clock time. The marker's centre is modelled.
- The loading splash timeouts of each view and `LoadingAnimation.tsx` are left out. They are timers and markup.
- DOM listener registration and removal, and `preventDefault` on Space, are left out. They are event plumbing.
- `SmartphoneView.tsx` tabs and the view dispatch in `App.tsx` are left out. They are direct assignments from buttons, with no rule beyond `Classify`.
- The secondary text of `DistanceModule.tsx` is left out. It is display-only formatting with the same ratios as the unit toggle.
- `tailwind.config.js` is left out. It is styling only.
- The theme provider's source is not part of this model. Dark mode is a boolean that `ToggleDarkMode` flips.
- The `useRun` check outside a provider is left out. In the model, every command is a method of an existing `RunProvider`, so the failure cannot be expressed.
