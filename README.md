# Panorama, modelled in Dafny

Panorama is a SwiftUI helper library. This project models the parts of it that are ordinary
sequential logic once rendering is set aside, and proves what that logic promises:

- **`AnimationSequence`** (`animation_sequence.dfy`, module `AnimationSequencing`): a class
  holding a list of actions (animations, plain closures, delays and suspensions), the running
  total of their durations and delays, the index executed last and a stopped flag. Main-queue
  dispatch becomes a returned `Step`: "run action `index` after `after` seconds". A driver
  method plays the queue to show when each action starts.
- **Counter animation planning** (`counter.dfy`, module `Counter`):
  - choosing the number of steps and the direction for one rolling digit;
  - the digit loop that builds that digit's actions;
  - the `nil` padding of the digit lists;
  - the default duration;
  - the step-size plan and the clamped walk from the start value to the end value;
  - the three actions every value step appends for every digit.
- **Device tables** (`device_info.dfy`, module `DeviceInfo`):
  - identifier → model, and model → screen type;
  - screen type → corner radius, logical size, scale and safe-area insets;
  - the capability flags;
  - the simulator's first-match search, with the screen's metrics passed in.
- **`DynamicGrid`** (`dynamic_grid.dfy`, module `DynamicGridLayout`): greedy row wrapping in
  `sizeThatFits`, which fills a cache object in place, and the row-by-row placement in
  `placeSubviews`.
- **Status bar** (`status_bar.dfy`, module `StatusBar`): the configurator's style resolution
  and the application-wide stack of requested styles with its fallback.
- **`CustomTabView`** (`custom_tab_view.dfy`, module `CustomTab`): the page-index state
  machine, covering
  - transitions;
  - ping-pong and cyclic `switchToNextTab`;
  - the drag threshold;
  - the bounce clamp at the ends;
  - the screen parameters.
- **Codecs** (`swiftui_coding.dfy`, `icon_wrapper.dfy` and the shared `coding.dfy`):
  - the single-key encodings of `CGLineCap`, `CGLineJoin` and `IconWrapper`;
  - the six-field `StrokeStyle`;
  - the raw values of `ColorScheme`;
  - equality and hashing through the coding key.

  Encoders produce a small JSON-like `Value` datatype.
- **`AnimatableVector`** (`animatable_vector.dfy`, module `AnimatableVectors`): the in-place
  compound assignments over the common prefix on an `array`, and the pure operators. Also the
  three- and four-component tuples.
- **Shapes** (`path.dfy`, `triangle.dfy`, `parallelogram.dfy`, `edge_border.dfy`,
  `speech_bubble.dfy`): a `Path` class that records move, line and rectangle commands. Each
  shape's `path(in:)` is a method that fills a fresh path, and its result is tied to a
  specification function of the commands.

`geometry.dfy` holds `CGPoint`, `CGSize` and `CGRect`. Its `Width` and `Height` are never
negative, as CoreGraphics standardises them. `outcomes.dfy` holds `Option` and `Result`.

## Model

| member | source | states |
|---|---|---|
| AnimationSequencing.Action.StartDelay | Sources/Panorama/AnimationSequence.swift:30-41 | a suspension has no delay; animations, closures and delays report their own |
| AnimationSequencing.Action.RunDuration | Sources/Panorama/AnimationSequence.swift:44-51 | only an animation has a duration |
| AnimationSequencing.Action.Effect | Sources/Panorama/AnimationSequence.swift:54-63 | delays and suspensions run no closure; the other two run exactly theirs |
| AnimationSequencing.TotalOfConcat | Sources/Panorama/AnimationSequence.swift:98-126 | the total of two runs of actions is the sum of their totals |
| AnimationSequencing.TotalOfThree | Sources/Panorama/AnimationSequence.swift:120-126 | three appended actions add their durations and delays |
| AnimationSequencing.TotalIsDelaysPlusDurations | Sources/Panorama/AnimationSequence.swift:98-126 | the accumulated total is all delays plus all durations |
| AnimationSequencing.FirstStart | Sources/Panorama/AnimationSequence.swift:136-146 | the first action starts after its own delay |
| AnimationSequencing.StartTimeStep | Sources/Panorama/AnimationSequence.swift:212-226 | each scheduled step adds the running action's duration and the next action's delay |
| AnimationSequencing.LastFinishIsTotal | Sources/Panorama/AnimationSequence.swift:129-148 | without suspensions, the last action ends exactly at the total `execute()` returns |
| AnimationSequencing.AnimationSequence.constructor | Sources/Panorama/AnimationSequence.swift:82-85 | keeps the given actions, but the total starts at 0, so it is consistent only for an empty start |
| AnimationSequencing.AnimationSequence.AppendAnimation | Sources/Panorama/AnimationSequence.swift:98-108 | appends one animation, adds its duration and delay to the total, returns the same sequence, keeps consistency |
| AnimationSequencing.AnimationSequence.AppendFunction | Sources/Panorama/AnimationSequence.swift:111-117 | appends one closure, adds its delay, returns the same sequence |
| AnimationSequencing.AnimationSequence.Append | Sources/Panorama/AnimationSequence.swift:120-126 | appends the action and adds its duration plus delay, returns the same sequence |
| AnimationSequencing.AnimationSequence.Execute | Sources/Panorama/AnimationSequence.swift:129-149 | empty: returns 0 and schedules nothing; otherwise schedules action 0 after its delay and returns the total |
| AnimationSequencing.AnimationSequence.ExecuteWithoutAnimations | Sources/Panorama/AnimationSequence.swift:152-158 | runs every closure once, in order, skipping delays and suspensions |
| AnimationSequencing.AnimationSequence.ExecuteAt | Sources/Panorama/AnimationSequence.swift:191-227 | stopped and not forced: nothing happens; otherwise runs the action, records its index, schedules the next one after duration plus delay unless it is the last or a suspension |
| AnimationSequencing.AnimationSequence.Resume | Sources/Panorama/AnimationSequence.swift:161-169 | continues with the next action only when the current one is a suspension; otherwise nothing changes |
| AnimationSequencing.AnimationSequence.Stop | Sources/Panorama/AnimationSequence.swift:172-174 | sets the stopped flag and nothing else |
| AnimationSequencing.AnimationSequence.Skip | Sources/Panorama/AnimationSequence.swift:177-188 | an index past the end changes nothing; otherwise stops the chain and schedules a forced one at the index at once |
| AnimationSequencing.AnimationSequence.RunChain | Sources/Panorama/AnimationSequence.swift:129-227 | playing the queue without suspensions runs every action once, in order, at its start time, and the last ends at the total |
| Counter.DigitPlan | Sources/Panorama/Views/CounterView.swift:101-137 | decreasing takes (start − end) mod 10 steps, increasing (end − start) mod 10; closest picks the shorter way and prefers increasing on a tie |
| Counter.NextDigitAfter | Sources/Panorama/Views/CounterView.swift:147-159 | the loop's ±1 mod 10 step agrees with the closed form of the digit after k steps |
| Counter.DigitReachedExactly | Sources/Panorama/Views/CounterView.swift:145-177 | the end digit is reached at the last planned step and at no earlier one |
| Counter.DigitStep | Sources/Panorama/Views/CounterView.swift:161-173 | one step is three actions lasting the delay plus one step duration, the middle one animated, the last settling on the digit |
| Counter.AppendDigitStep | Sources/Panorama/Views/CounterView.swift:161-173 | the three appends of one loop pass add exactly that step's actions and keep the total duration consistent |
| Counter.DigitStepsTotal | Sources/Panorama/Views/CounterView.swift:139-177 | k steps are 3k actions lasting the delay plus k step durations |
| Counter.DigitStepsSettle | Sources/Panorama/Views/CounterView.swift:170-176 | step j settles on the digit j + 1 steps from the start in the chosen direction |
| Counter.DigitStepsStart | Sources/Panorama/Views/CounterView.swift:140-175 | the first step waits for the delay |
| Counter.DigitAnimationTotal | Sources/Panorama/Views/CounterView.swift:139-186 | one digit's sequence lasts the delay plus the whole animation duration when it moves at all |
| Counter.AnimateDigit | Sources/Panorama/Views/CounterView.swift:97-187 | builds exactly the planned steps in the planned direction, ends on the end digit and appends one completion action |
| Counter.PadDigits | Sources/Panorama/Views/CounterView.swift:280-289 | both digit lists become the longer length, the shorter one gaining leading nils, the digits kept as a suffix |
| Counter.DefaultAnimationDuration | Sources/Panorama/Views/CounterView.swift:298-310 | between 0.25 and 2.5 seconds, and d/20 for differences 5 to 50 |
| Counter.DefaultDurationOfDifference | Sources/Panorama/Views/CounterView.swift:298-310 | depends only on the difference: symmetric, shift-invariant, 2 seconds for equal values |
| Counter.InitCounter | Sources/Panorama/Views/CounterView.swift:265-295 | padded start and end digits of equal width, shown digits are the start digits, no digit animations yet |
| Counter.PlanSteps | Sources/Panorama/Views/CounterView.swift:318-353 | below 20 the step is 1 and the count is the difference; from 20 the tabulated step and d/step + 1 steps, with a first step that makes start + first a multiple of the step size |
| Counter.StepSizeBounds | Sources/Panorama/Views/CounterView.swift:330-350 | the chosen step divides a difference of 20 or more into 10 to 99 whole steps |
| Counter.FirstStepAligns | Sources/Panorama/Views/CounterView.swift:352 | start + first step is a multiple of the step size; for an increasing walk this is the first value shown |
| Counter.ShownDigit | Sources/Panorama/Views/CounterView.swift:385-396 | a visible digit is shown for every position within the value's digits, always one decimal digit |
| Counter.StepActions | Sources/Panorama/Views/CounterView.swift:390-415 | every value step gives every digit three actions; the middle one animates exactly when the digit changes |
| Counter.DigitTrackLength | Sources/Panorama/Views/CounterView.swift:386-416 | each digit's sequence has three actions per value step |
| Counter.DigitTrackTotal | Sources/Panorama/Views/CounterView.swift:386-416 | each digit's sequence lasts the first delay plus one step duration per value step |
| Counter.DigitTrackAt | Sources/Panorama/Views/CounterView.swift:386-416 | value step k contributes actions 3k to 3k + 2 of every digit's sequence |
| Counter.DigitTrackExtend | Sources/Panorama/Views/CounterView.swift:386-416 | one more value appends exactly that step's actions |
| Counter.WalkStep | Sources/Panorama/Views/CounterView.swift:359-383 | one clamped step keeps the walk monotone, within the plan and short of the end, and gets strictly closer |
| Counter.AppendValueStep | Sources/Panorama/Views/CounterView.swift:386-416 | the inner loop appends one value step's actions to every digit's sequence |
| Counter.StartAnimation | Sources/Panorama/Views/CounterView.swift:312-429 | the corrected walk is monotone, follows the plan and ends exactly at the end value; every digit gets its full track |
| Counter.CountdownFrom55Cycles | Sources/Panorama/Views/CounterView.swift:378-383 | as written, 55 → 1 goes down by 5 to 5, then cycles through 9, 4, 7, 2, 3 |
| Counter.CountdownFrom55NeverEnds | Sources/Panorama/Views/CounterView.swift:359-383 | as written, the walk from 55 never reaches 1 |
| DeviceInfo.CornerRadius | Sources/Panorama/DeviceInfo.swift:517-551 | never negative, and zero exactly for the home-button screens and `other` |
| DeviceInfo.LogicalSize | Sources/Panorama/DeviceInfo.swift:553-585 | unknown exactly for `other`; otherwise at least 320 wide and taller than wide |
| DeviceInfo.ScalingFactor | Sources/Panorama/DeviceInfo.swift:587-619 | unknown exactly for `other`; otherwise 2 or 3, and 2 exactly for the iPhone 4, 5, 6 and XR screens |
| DeviceInfo.SafeAreaInsets | Sources/Panorama/DeviceInfo.swift:621-653 | no side insets; rounded screens have a top inset of at least 44 and a bottom of 34, the others none |
| DeviceInfo.ScreenTypeOf | Sources/Panorama/DeviceInfo.swift:391-483 | the screen type is `other` exactly for the simulator and unknown models |
| DeviceInfo.HasHomeButton | Sources/Panorama/DeviceInfo.swift:217-261 | on real models, a home button exactly when the screen has square corners |
| DeviceInfo.SupportsHaptics | Sources/Panorama/DeviceInfo.swift:263-299 | haptics only on real models newer than the iPhone 4 screen |
| DeviceInfo.HasLimitedPerformance | Sources/Panorama/DeviceInfo.swift:321-353 | limited devices have no haptics and a home button |
| DeviceInfo.IsOldDevice | Sources/Panorama/DeviceInfo.swift:355-383 | every old device has limited performance |
| DeviceInfo.SupportsProMotion | Sources/Panorama/DeviceInfo.swift:301-319 | ProMotion only on rounded-screen models without a home button |
| DeviceInfo.ProMotionIsExpensive | Sources/Panorama/DeviceInfo.swift:385-387 | every ProMotion model's name contains "Pro" |
| DeviceInfo.HasSuperRetinaDisplay | Sources/Panorama/DeviceInfo.swift:485-487 | only real models have a super retina display |
| DeviceInfo.HasSmallScreen | Sources/Panorama/DeviceInfo.swift:490-507 | for real models, exactly the iPhone 5-sized or smaller screens, all 320 points wide |
| DeviceInfo.ScreenCornerRadius | Sources/Panorama/DeviceInfo.swift:510-512 | never negative; on real models zero exactly when there is a home button |
| DeviceInfo.FirstModelIndex | Sources/Panorama/DeviceInfo.swift:149-153 | the inner search returns a model of the screen type, or the end |
| DeviceInfo.FirstModelIndexIsFirst | Sources/Panorama/DeviceInfo.swift:149-153 | no model passed over has the screen type |
| DeviceInfo.FirstModelIndexFinds | Sources/Panorama/DeviceInfo.swift:149-153 | the search finds a model whenever one with the type lies ahead |
| DeviceInfo.FirstModelIndexAt | Sources/Panorama/DeviceInfo.swift:149-153 | the search stops exactly at the first model of the type when none before it has the type |
| DeviceInfo.FirstXScreenModel | Sources/Panorama/DeviceInfo.swift:149-153 | the iPhone X is the first model, in declaration order, with the iPhone X screen |
| DeviceInfo.SimulatorModelFrom | Sources/Panorama/DeviceInfo.swift:140-157 | the outer loop reports the simulator exactly when no later screen type both matches and has a model |
| DeviceInfo.SimulatorFromStartIsSimulator | Sources/Panorama/DeviceInfo.swift:134-158 | from the first screen type, the simulator is reported exactly when nothing is selected, and never `other` |
| DeviceInfo.SimulatorFromStartIsFirst | Sources/Panorama/DeviceInfo.swift:134-158 | a found model has the earliest selected screen type, is the model at the first index of that type, and no earlier model has it |
| DeviceInfo.SimulatorDeviceModel | Sources/Panorama/DeviceInfo.swift:134-158 | the simulator exactly when no screen type is selected; otherwise the model at the first index, in declaration order, of the earliest selected screen type |
| DeviceInfo.SimulatorPicksScreen | Sources/Panorama/DeviceInfo.swift:140-157 | when screen type s is selected and no earlier screen type matches, the loops return the first model of s |
| DeviceInfo.SimulatorOfXSizedScreen | Sources/Panorama/DeviceInfo.swift:134-158 | 375 × 812 at scale 3 also matches the 12 mini screen, but is taken for the iPhone X |
| DeviceInfo.SimulatorOfUnknownScreen | Sources/Panorama/DeviceInfo.swift:157 | a screen no model has is reported as the simulator |
| DeviceInfo.DeviceModelFor | Sources/Panorama/DeviceInfo.swift:161-207 | the simulator identifiers defer to the simulator lookup; only other identifiers can give `other` |
| DeviceInfo.IdentifierOfTwelveMini | Sources/Panorama/DeviceInfo.swift:188 | "iPhone13,1" is the iPhone 12 mini |
| DynamicGridLayout.GridCache.constructor | Sources/Panorama/Layouts/DynamicGrid.swift:165-167 | a new cache has no rows and zero height |
| DynamicGridLayout.GridCache.AppendRow | Sources/Panorama/Layouts/DynamicGrid.swift:116-117 | appends one row and adds its height to the total |
| DynamicGridLayout.GridCache.Reset | Sources/Panorama/Layouts/DynamicGrid.swift:169-171 | empties the cache |
| DynamicGridLayout.PlaceNext | Sources/Panorama/Layouts/DynamicGrid.swift:94-122 | a subview that fits joins the current row with its width plus spacing as advance; one that does not closes the row, even an empty one, and starts a new row with itself |
| DynamicGridLayout.TotalHeight | Sources/Panorama/Layouts/DynamicGrid.swift:131-133 | the row heights plus one vertical spacing between each pair of neighbours |
| DynamicGridLayout.MaxHeight | Sources/Panorama/Layouts/DynamicGrid.swift:82 | the greatest height among the subviews, and 0 for none |
| DynamicGridLayout.SizeThatFits | Sources/Panorama/Layouts/DynamicGrid.swift:76-136 | unbounded proposal: summed widths by greatest height; otherwise the proposed width by the stacked rows' height, with the cache holding exactly those rows |
| DynamicGridLayout.FinishRows | Sources/Panorama/Layouts/DynamicGrid.swift:125-133 | stores the last row only if it holds anything, and leaves the cached height as the stacked height with spacing |
| DynamicGridLayout.PlaceNextIndices | Sources/Panorama/Layouts/DynamicGrid.swift:108-122 | one pass adds the subview's index after those already listed |
| DynamicGridLayout.WrapAllCoversIndices | Sources/Panorama/Layouts/DynamicGrid.swift:94-123 | after n subviews the rows and the pending row list 0 … n − 1 in order |
| DynamicGridLayout.RowsCoverIndices | Sources/Panorama/Layouts/DynamicGrid.swift:88-128 | reading the stored rows in order lists every subview exactly once, in index order |
| DynamicGridLayout.WrapAllFits | Sources/Panorama/Layouts/DynamicGrid.swift:109-121 | every row is within the proposed width unless it holds a single subview |
| DynamicGridLayout.WideRowIsSingle | Sources/Panorama/Layouts/DynamicGrid.swift:99-121 | a row wider than the proposal holds exactly one subview |
| DynamicGridLayout.WrapAllShaped | Sources/Panorama/Layouts/DynamicGrid.swift:112-121 | every row's entries carry width plus spacing and its height is its tallest subview's |
| DynamicGridLayout.RowsShapedStep | Sources/Panorama/Layouts/DynamicGrid.swift:114-117 | a pass of the loop keeps every finished row's entries and height, and closes the pending row unchanged |
| DynamicGridLayout.PendingShapedStep | Sources/Panorama/Layouts/DynamicGrid.swift:109-121 | a pass of the loop keeps the pending row's height the tallest of its subviews |
| DynamicGridLayout.RowHeightIsMax | Sources/Panorama/Layouts/DynamicGrid.swift:112-121 | each stored row's height is the tallest of its subviews |
| DynamicGridLayout.WrapAllEmptyRows | Sources/Panorama/Layouts/DynamicGrid.swift:99-120 | only the first row can be empty, and only when the first subview is wider than the proposal |
| DynamicGridLayout.LeadingEmptyRow | Sources/Panorama/Layouts/DynamicGrid.swift:99-120 | a first subview wider than the proposal produces a leading empty row of size zero, and only then |
| DynamicGridLayout.RowStartX | Sources/Panorama/Layouts/DynamicGrid.swift:141-151 | leading rows start at minX, trailing rows end at the right edge, others are centred |
| DynamicGridLayout.PlaceRow | Sources/Panorama/Layouts/DynamicGrid.swift:153-158 | one placement per entry of the row |
| DynamicGridLayout.PlaceRowAt | Sources/Panorama/Layouts/DynamicGrid.swift:153-158 | subview j of a row sits at the row start plus the advances of those before it |
| DynamicGridLayout.PlaceRowIndices | Sources/Panorama/Layouts/DynamicGrid.swift:153-158 | a row places its subviews in its own order |
| DynamicGridLayout.PlaceSubviews | Sources/Panorama/Layouts/DynamicGrid.swift:138-163 | places the cached rows row by row, each row one height plus spacing below the last |
| DynamicGridLayout.PlaceRowsIndices | Sources/Panorama/Layouts/DynamicGrid.swift:140-162 | the placements visit the rows' subviews in the rows' order |
| DynamicGridLayout.LayoutPlacesEverySubviewOnce | Sources/Panorama/Layouts/DynamicGrid.swift:88-162 | sizing then placing places every subview exactly once, in index order |
| StatusBar.ResolvedStyle | Sources/Panorama/StatusBar.swift:58-73 | the style is kept unless it is `.default` under a set scheme: light gives dark content, dark gives light content |
| StatusBar.ResolvedStyleIdempotent | Sources/Panorama/StatusBar.swift:58-73 | resolving twice changes nothing, and `.default` survives only without a scheme |
| StatusBar.PreferredStyle | Sources/Panorama/StatusBar.swift:75-90 | `.default` exactly without a scheme; otherwise the scheme's resolved default |
| StatusBar.StatusBarConfigurator.constructor | Sources/Panorama/StatusBar.swift:13-37 | default style, nothing hidden, no scheme, default fallback |
| StatusBar.StatusBarConfigurator.SetStatusBarStyle | Sources/Panorama/StatusBar.swift:58-73 | stores the resolved style and changes nothing else |
| StatusBar.StatusBarConfigurator.SetPreferredColorScheme | Sources/Panorama/StatusBar.swift:75-90 | sets both the style and the fallback for the scheme, never the scheme itself |
| StatusBar.StyleAfterPop | Sources/Panorama/StatusBar.swift:166-173 | after a pop the new top is applied, or the fallback when the stack empties |
| StatusBar.Application.constructor | Sources/Panorama/StatusBar.swift:146 | the style stack starts empty |
| StatusBar.Application.PushStatusBarStyle | Sources/Panorama/StatusBar.swift:152-159 | with a home button nothing changes; otherwise the style goes on top and is applied |
| StatusBar.Application.PopStatusBarStyle | Sources/Panorama/StatusBar.swift:161-174 | with a home button nothing changes; otherwise the top is dropped (if any) and the new top or the fallback is applied |
| StatusBar.Application.AppearThenDisappear | Sources/Panorama/StatusBar.swift:135-141 | a push then a pop restores the stack and re-applies the previous top or the fallback |
| SwiftUICoding.LineCapKeyRaw | Sources/Panorama/SwiftUICoding.swift:7-9 | every cap key's raw value is one the decoder recognises |
| SwiftUICoding.EncodeLineCap | Sources/Panorama/SwiftUICoding.swift:21-33 | a single key naming the case, with a null value |
| SwiftUICoding.DecodeLineCap | Sources/Panorama/SwiftUICoding.swift:35-55 | a type mismatch exactly for a non-container, data corrupted exactly when no key is recognised, otherwise the case of the first recognised key |
| SwiftUICoding.LineCapRoundTrip | Sources/Panorama/SwiftUICoding.swift:21-55 | decoding an encoded cap gives it back |
| SwiftUICoding.LineCapHash | Sources/Panorama/SwiftUICoding.swift:68-72 | the hash is the coding key's raw value alone |
| SwiftUICoding.LineCapEqualityAndHash | Sources/Panorama/SwiftUICoding.swift:58-72 | equality through the key is identity, and equal hashes exactly for equal caps |
| SwiftUICoding.LineJoinKeyRaw | Sources/Panorama/SwiftUICoding.swift:77-79 | every join key's raw value is one the decoder recognises |
| SwiftUICoding.EncodeLineJoin | Sources/Panorama/SwiftUICoding.swift:91-103 | a single key naming the case, with a null value |
| SwiftUICoding.DecodeLineJoin | Sources/Panorama/SwiftUICoding.swift:105-125 | a type mismatch exactly for a non-container, data corrupted exactly when no key is recognised, otherwise the case of the first recognised key |
| SwiftUICoding.LineJoinRoundTrip | Sources/Panorama/SwiftUICoding.swift:91-125 | decoding an encoded join gives it back |
| SwiftUICoding.LineJoinHash | Sources/Panorama/SwiftUICoding.swift:138-142 | the hash is the coding key's raw value alone |
| SwiftUICoding.LineJoinEqualityAndHash | Sources/Panorama/SwiftUICoding.swift:128-142 | equality through the key is identity, and equal hashes exactly for equal joins |
| SwiftUICoding.EncodeStrokeStyle | Sources/Panorama/SwiftUICoding.swift:151-159 | six fields under the six stroke-style keys, in order |
| SwiftUICoding.NumberField | Sources/Panorama/SwiftUICoding.swift:161-171 | a missing key is reported by name |
| SwiftUICoding.DecodeStrokeStyle | Sources/Panorama/SwiftUICoding.swift:161-171 | a non-container is a type mismatch, and a missing `lineWidth` is reported first |
| SwiftUICoding.StrokeStyleRoundTrip | Sources/Panorama/SwiftUICoding.swift:151-171 | decoding an encoded style gives back an equal style |
| SwiftUICoding.StrokeStyleHash | Sources/Panorama/SwiftUICoding.swift:174-183 | the hash combines all six fields |
| SwiftUICoding.StrokeStyleHashDistinguishes | Sources/Panorama/SwiftUICoding.swift:174-183 | two styles hash alike exactly when they are equal |
| SwiftUICoding.RawValue | Sources/Panorama/SwiftUICoding.swift:293-302 | a known scheme never has the unknown raw value |
| SwiftUICoding.FromRawValue | Sources/Panorama/SwiftUICoding.swift:304-313 | only the unknown raw value has no scheme |
| SwiftUICoding.RawValueRoundTrip | Sources/Panorama/SwiftUICoding.swift:293-313 | raw value and scheme are inverse in both directions |
| SwiftUICoding.EncodeColorScheme | Sources/Panorama/SwiftUICoding.swift:315-318 | a scheme encodes as the string "light" or "dark" |
| SwiftUICoding.DecodeColorSchemeRaw | Sources/Panorama/SwiftUICoding.swift:289-291 | a decoded raw value came from its own string |
| SwiftUICoding.DecodeColorScheme | Sources/Panorama/SwiftUICoding.swift:320-330 | succeeds exactly on "light" and "dark"; "unknown" is data corrupted |
| SwiftUICoding.ColorSchemeRoundTrip | Sources/Panorama/SwiftUICoding.swift:315-330 | decoding an encoded scheme gives it back |
| Icons.IconKeyRaw | Sources/Panorama/Views/IconWrapper.swift:168-174 | every icon key's raw value is one the decoder recognises |
| Icons.CodingKey | Sources/Panorama/Views/IconWrapper.swift:176-186 | each case has its own key, in both directions |
| Icons.Equals | Sources/Panorama/Views/IconWrapper.swift:105-137 | different keys are unequal; the same key compares the case's fields |
| Icons.EqualsIsIdentity | Sources/Panorama/Views/IconWrapper.swift:105-137 | `==` holds exactly for identical icons |
| Icons.Hash | Sources/Panorama/Views/IconWrapper.swift:141-164 | the hash begins with the coding key's raw value |
| Icons.HashAgreesWithEquals | Sources/Panorama/Views/IconWrapper.swift:105-164 | two icons hash alike exactly when `==` holds |
| Icons.Encode | Sources/Panorama/Views/IconWrapper.swift:188-204 | a single field under the case's key |
| Icons.DecodeNamed | Sources/Panorama/Views/IconWrapper.swift:208-231 | a decoded icon is built from a string, an angle in degrees and a scale |
| Icons.Decode | Sources/Panorama/Views/IconWrapper.swift:206-243 | a non-container is a type mismatch, no recognised key is data corrupted, otherwise the first key's case |
| Icons.RoundTrip | Sources/Panorama/Views/IconWrapper.swift:188-243 | decoding an encoded icon gives back an equal icon, with rotation carried in degrees |
| Icons.NilImageDataIsPlaceholder | Sources/Panorama/Views/IconWrapper.swift:216-225 | a loaded image with null data decodes as the placeholder |
| Coding.FirstKnownKey | Sources/Panorama/SwiftUICoding.swift:37 | the first field whose key the decoder recognises, or none |
| Coding.EncodeValues | Sources/Panorama/Views/IconWrapper.swift:192 | three values as one list under the key |
| Coding.DecodeValues | Sources/Panorama/Views/IconWrapper.swift:210 | a missing key is reported by name; a success is exactly the three-value list under the key |
| Coding.NilUnder | Sources/Panorama/SwiftUICoding.swift:25 | a container with one key and a null value |
| Coding.NumbersRoundTrip | Sources/Panorama/SwiftUICoding.swift:157 | a list of numbers decodes back to the same numbers |
| AnimatableVectors.Plus | Sources/Panorama/Animation.swift:9-13 | the left operand's length, sums on the common prefix, the left entries beyond it |
| AnimatableVectors.Minus | Sources/Panorama/Animation.swift:20-24 | the left operand's length, differences on the common prefix, the left entries beyond it |
| AnimatableVectors.Scaled | Sources/Panorama/Animation.swift:37-39 | every entry multiplied, the length kept |
| AnimatableVectors.MagnitudeSquared | Sources/Panorama/Animation.swift:41-43 | the sum of squares is never negative |
| AnimatableVectors.MinusUndoesPlus | Sources/Panorama/Animation.swift:9-29 | subtracting what was added gives the original vector back |
| AnimatableVectors.ZeroSums | Sources/Panorama/Animation.swift:7-18 | adding `zero` changes nothing, and `zero` plus a vector has length one |
| AnimatableVectors.MagnitudeConcat | Sources/Panorama/Animation.swift:41-43 | the squared magnitude adds up over concatenation |
| AnimatableVectors.ScaleLaws | Sources/Panorama/Animation.swift:37-39 | scaling by 1 is the identity, scalings compose, and scaling distributes over addition |
| AnimatableVectors.AnimatableVector.constructor | Sources/Panorama/Animation.swift:33-35 | the buffer holds the given values |
| AnimatableVectors.AnimatableVector.AddAssign | Sources/Panorama/Animation.swift:15-18 | the buffer becomes the sum on the common prefix, in place |
| AnimatableVectors.AnimatableVector.SubAssign | Sources/Panorama/Animation.swift:26-29 | the buffer becomes the difference on the common prefix, in place |
| AnimatableVectors.AnimatableVector.Scale | Sources/Panorama/Animation.swift:37-39 | every entry of the buffer is multiplied, in place |
| AnimatableVectors.MagnitudeSquared3 | Sources/Panorama/Animation.swift:120-122 | the components' magnitudes add up to a non-negative total |
| AnimatableVectors.Tuple3Inverse | Sources/Panorama/Animation.swift:88-112 | subtraction undoes addition and adding `zero` changes nothing, component by component |
| AnimatableVectors.Tuple3Scale | Sources/Panorama/Animation.swift:114-122 | scaling by 1 is the identity, distributes over addition, and `zero` has magnitude 0 |
| AnimatableVectors.MagnitudeSquared4 | Sources/Panorama/Animation.swift:173-175 | the components' magnitudes add up to a non-negative total |
| AnimatableVectors.Tuple4Inverse | Sources/Panorama/Animation.swift:138-164 | subtraction undoes addition and adding `zero` changes nothing, component by component |
| AnimatableVectors.Tuple4Scale | Sources/Panorama/Animation.swift:166-175 | scaling by 1 is the identity, distributes over addition, and `zero` has magnitude 0 |
| Paths.Lines | Sources/Panorama/Shapes/Triangle.swift:53 | one line command per point, in order |
| Paths.Path.constructor | Sources/Panorama/Shapes/Triangle.swift:25 | a new path has no commands |
| Paths.Path.Move | Sources/Panorama/Shapes/Triangle.swift:47 | appends one move |
| Paths.Path.AddLine | Sources/Panorama/Shapes/Triangle.swift:53 | appends one line |
| Paths.Path.AddRectangle | Sources/Panorama/Shapes/ShapeUtils.swift:105 | appends one rectangle |
| Triangles.Vertices | Sources/Panorama/Shapes/Triangle.swift:28-45 | the apex for each direction, and the two base corners on the opposite side |
| Triangles.TrianglePath | Sources/Panorama/Shapes/Triangle.swift:24-57 | a move to the last vertex, then a line to each kept vertex: all three, or the first two for an arrowhead |
| Triangles.WholeTriangleIsClosed | Sources/Panorama/Shapes/Triangle.swift:52-54 | drawn whole, one closed subpath of three lines through apex and base |
| Triangles.ArrowheadIsOpen | Sources/Panorama/Shapes/Triangle.swift:48-54 | an arrowhead is the whole path minus its last line, and is open on a non-degenerate rectangle |
| Triangles.VerticesInBox | Sources/Panorama/Shapes/Triangle.swift:29-44 | every vertex lies between (0, 0) and the width and height, whatever the origin |
| Parallelograms.UnitPoints | Sources/Panorama/Shapes/Parallelogram.swift:13-20 | the unit corners (0, 1), (e, 0), (1, 0), (1 − e, 1) |
| Parallelograms.StretchAll | Sources/Panorama/Shapes/Parallelogram.swift:36 | each unit point scaled by the width and height |
| Parallelograms.ParallelogramPath | Sources/Panorama/Shapes/Parallelogram.swift:29-40 | a move to the last stretched corner, then a line to each corner |
| Parallelograms.PathIsClosed | Sources/Panorama/Shapes/Parallelogram.swift:33-37 | one closed subpath of four lines, whatever the offset |
| Parallelograms.DiagonalsBisect | Sources/Panorama/Shapes/Parallelogram.swift:13-20 | opposite corners sum to the width and height, so the diagonals meet at the centre |
| Parallelograms.CornersInBox | Sources/Panorama/Shapes/Parallelogram.swift:13-20 | offset 0 gives the rectangle's corners; offsets in [0, 1] keep every corner in the box |
| EdgeBorders.Band | Sources/Panorama/Shapes/ShapeUtils.swift:78-104 | top and bottom bands span the width, leading and trailing bands span the height, `width` deep |
| EdgeBorders.Commands | Sources/Panorama/Shapes/ShapeUtils.swift:77-106 | one rectangle per listed edge, in order, repeats included |
| EdgeBorders.EdgeBorderPath | Sources/Panorama/Shapes/ShapeUtils.swift:75-108 | the loop adds exactly those rectangles to a fresh path |
| EdgeBorders.BandOnItsSide | Sources/Panorama/Shapes/ShapeUtils.swift:78-105 | a band no deeper than the rectangle lies inside it, flush with its own side |
| EdgeBorders.DrawsExactlyTheListedEdges | Sources/Panorama/Shapes/ShapeUtils.swift:77-106 | a band is drawn exactly when an edge giving that band is listed |
| SpeechBubbles.Walk | Sources/Panorama/Shapes/SpeechBubble.swift:36-77 | seven line targets for every arrow position |
| SpeechBubbles.SpeechBubblePath | Sources/Panorama/Shapes/SpeechBubble.swift:26-80 | a move to (0, 0), then the four sides as written |
| SpeechBubbles.DrawTop | Sources/Panorama/Shapes/SpeechBubble.swift:36-44 | around the arrow if it is on top, otherwise straight to the top-right corner |
| SpeechBubbles.DrawRight | Sources/Panorama/Shapes/SpeechBubble.swift:47-55 | around the arrow if it is on the right, otherwise straight to the bottom-right corner |
| SpeechBubbles.DrawBottom | Sources/Panorama/Shapes/SpeechBubble.swift:58-66 | around the arrow if it is at the bottom, otherwise straight to the bottom-left corner |
| SpeechBubbles.DrawLeft | Sources/Panorama/Shapes/SpeechBubble.swift:69-77 | as written, both branches end at the bottom-left corner |
| SpeechBubbles.AsWrittenNeverCloses | Sources/Panorama/Shapes/SpeechBubble.swift:62-77 | as written, eight commands ending at (0, height); without a left arrow the last line has zero length; never closed when the height is not zero |
| SpeechBubbles.OutlineIsClosed | Sources/Panorama/Shapes/SpeechBubble.swift:33-77 | the corrected outline is closed, has eight commands, and agrees with the code up to its last line |
| SpeechBubbles.TipIndex | Sources/Panorama/Shapes/SpeechBubble.swift:38-71 | the tip is drawn within the arrow's side, lines 2 to 5 |
| SpeechBubbles.ArrowShape | Sources/Panorama/Shapes/SpeechBubble.swift:37-72 | the tip per position, base points on the edge symmetric about the middle and one arrow width apart, the tip outside the box |
| SpeechBubbles.VisitsCorners | Sources/Panorama/Shapes/SpeechBubble.swift:33-77 | the corrected outline passes through all four corners of the box |
| CustomTab.SwiftRem | Sources/Panorama/Views/CustomTabView.swift:320-323 | Swift's remainder agrees with the mathematical one on non-negative operands |
| CustomTab.OffsetFor | Sources/Panorama/Views/CustomTabView.swift:197-208 | zero before the item width is known |
| CustomTab.OffsetSpacing | Sources/Panorama/Views/CustomTabView.swift:197-203 | tab 0 needs no shift, neighbours are one item width apart, later tabs lie further left |
| CustomTab.ScrollThreshold | Sources/Panorama/Views/CustomTabView.swift:142-148 | a third of the item width, or 0 before it is known |
| CustomTab.ScreenParamsSymmetric | Sources/Panorama/Views/CustomTabView.swift:180-194 | the tabs share the content width equally and the first tab is centred |
| CustomTab.Bounce | Sources/Panorama/Views/CustomTabView.swift:274-282 | on the last tab the bounce is at least −0.3 item widths, on the first at most +0.3, elsewhere the translation |
| CustomTab.EdgeBounceWithinThreshold | Sources/Panorama/Views/CustomTabView.swift:269-283 | the clamped bounce at either end stays short of the scroll threshold |
| CustomTab.TransitionTarget | Sources/Panorama/Views/CustomTabView.swift:210-234 | a target outside the tabs is ignored; any other is taken |
| CustomTab.NextTabAim | Sources/Panorama/Views/CustomTabView.swift:319-343 | cyclic: (index + 1) mod count; ping-pong: one step in the current direction, turning at either end |
| CustomTab.DragEndAim | Sources/Panorama/Views/CustomTabView.swift:236-263 | past the threshold to the right moves back one tab, to the left forward one, within the tabs; otherwise nothing |
| CustomTab.NavigationKeepsIndexInRange | Sources/Panorama/Views/CustomTabView.swift:211 | no navigation takes a valid selection out of range |
| CustomTab.PingPongAdd | Sources/Panorama/Views/CustomTabView.swift:325-342 | a + b taps are a taps followed by b taps |
| CustomTab.ForwardRun | Sources/Panorama/Views/CustomTabView.swift:325-342 | moving forward, k taps go k tabs forward while the last tab is not passed |
| CustomTab.BackwardRun | Sources/Panorama/Views/CustomTabView.swift:325-342 | moving back, k taps go k tabs back while the first tab is not passed |
| CustomTab.PingPongCycle | Sources/Panorama/Views/CustomTabView.swift:325-342 | from the second tab, the taps reach the last tab, turn back to the first and return after 2·count − 2 taps |
| CustomTab.CycleAdd | Sources/Panorama/Views/CustomTabView.swift:320-323 | a + b cyclic switches are a switches followed by b |
| CustomTab.CycleForward | Sources/Panorama/Views/CustomTabView.swift:320-323 | k cyclic switches move k tabs forward while that is a tab |
| CustomTab.CycleReturns | Sources/Panorama/Views/CustomTabView.swift:320-323 | the last tab is followed by the first, and count switches return to the start |
| CustomTab.TabView.constructor | Sources/Panorama/Views/CustomTabView.swift:161-177 | the selection starts at the binding's value, with no offsets and no item width |
| CustomTab.TabView.UpdateScreenParams | Sources/Panorama/Views/CustomTabView.swift:180-194 | item width is the content width over the tab count, the first tab is centred, the offset follows the selection |
| CustomTab.TabView.Transition | Sources/Panorama/Views/CustomTabView.swift:210-234 | a target outside the tabs changes nothing; otherwise both indices, the offset and the bounce are set |
| CustomTab.TabView.OnDragEnded | Sources/Panorama/Views/CustomTabView.swift:236-263 | moves as the drag aims, setting the direction, or only resets the bounce |
| CustomTab.TabView.DragChanged | Sources/Panorama/Views/CustomTabView.swift:269-283 | sets the clamped bounce once the item width is known |
| CustomTab.TabView.SwitchToNextTab | Sources/Panorama/Views/CustomTabView.swift:319-343 | takes the next tab as aimed and records the new direction, keeping the selection in range |

## Left out

- Rendering is not modelled. This covers every SwiftUI view body, modifier and preview, along with `Color`, the trigonometric shapes, `Lines.swift`, `RoundedCorner` and the `border` helpers. All of it is framework drawing or floating-point colour and angle arithmetic.
- Real time, threads and animation curves are not modelled. `DispatchQueue` scheduling becomes the returned `Step` values. The `animation: Animation?` value each sequence step carries, and the `withAnimation` curves of `CustomTabView` (`easeInOut`, `easeOut` and the remaining-time curve), are not modelled at all: an action keeps only its delay, its duration and its effect.
- Device runtime queries become parameters. `uname`, `UIScreen`, `ProcessInfo` and the display corner radius key are system calls, so the simulator lookup takes the screen's width, height and scale as inputs, and the status-bar methods take the device model.
- The simulator branch of `hasSmallScreen` asks the live screen; the model passes the screen width in.
- `digits`, `**`, `requiredDigits`, `encodeValues` and `decodeValues` come from a toolbox library that is not part of this model. Each is given a small definition of its own: decimal digits of the absolute value, powers of ten, the digit count, and three values stored as one list.
- The window `StatusBarConfigurator` installs, the hiding of the status bar and home indicator, and the logging of `Log.reportCriticalError` are not modelled.
- The deinitialiser log line of `AnimationSequence` is not modelled.
- `Path` string encoding, `CodableShape`, and the `Gradient.Stop` and `Color` coding rely on the framework's path parser and colour components, and are not modelled.
- `randomPointOnEdge` uses a random number generator and is not modelled.
- Swift `Int` overflow is not modelled. `int` is unbounded, so the traps Swift raises on overflow are absent. This affects `abs(endValue - startValue)`, `currentValue ± step`, `digits` and `**` on values near the ends of the 64-bit range.
- Coding.FirstKnownKey: fixes an order for `container.allKeys`, namely container order. Foundation leaves that order unspecified, and `JSONDecoder` takes it from a dictionary. So for a container with two or more recognised keys, the source's choice of case is not determined, while the model picks the first. With exactly one recognised key, which is what every modelled encoder writes, the two agree, and the round trips are unaffected.
- AnimationSequencing.AnimationSequence.AppendAnimation: the caller always passes the duration and the delay. The source's defaults of 0.35 seconds and 0 are not modelled, and neither is its `animation` argument. The same holds for AppendFunction's default delay of 0.
- Floating point is modelled as exact reals: `Double` and `CGFloat` become `real`, so rounding is not captured.
- DeviceInfo.DeviceModelFor: the identifier table is modelled in full, but only the simulator identifiers, `other` and one sample row are proved about; no lemma states that every model has an identifier.
- AnimationSequencing.AnimationSequence.Resume: requires a valid current index, and a next action after a suspension when not stopped. Out of range, the source's array access traps.
- AnimationSequencing.AnimationSequence.ExecuteAt: requires a valid index whenever the action runs. The source traps on an invalid one.
- CustomTab.TabView.UpdateScreenParams: requires at least one tab. With none, the source divides by zero and produces an infinite item width.
- CustomTab.TabView.SwitchToNextTab: requires at least one tab for the cyclic mode, where the source's `%` by zero traps.
- AnimatableVectors.MagnitudeSquared: only non-negativity and additivity over concatenation are proved; the law that scaling by k multiplies the squared magnitude by k² is left unstated.
- AnimatableVectors.Tuple3Inverse: the tuples are modelled with vector components only, not with every `VectorArithmetic` type.
- Counter.StartAnimation: models the evidently intended clamp for a decreasing walk, not the code as written, which can loop forever (see Findings). The as-written step is `Counter.NextValueAsWritten`.
- The `AnimationSequence` objects of each digit in the value walk are modelled as lists of actions rather than as class instances. Their timing is stated through `TotalOf` on those lists.

## Findings

| source | as written | input that shows it | evidently intended | confidence | as-written member | corrected member |
|---|---|---|---|---|---|---|
| Sources/Panorama/Views/CounterView.swift:378-382 | a decreasing walk that overshoots `endValue` sets `step = endValue - currentValue`, which is negative, so `currentValue - step` moves away from the end value | `startValue` 55, `endValue` 1: the values go 55, 50, …, 5, then 9, 4, 7, 2, 3, 5, 9, … and never reach 1 | clamp the next value to `endValue`, as the increasing branch does | not executed | Counter.CountdownFrom55NeverEnds | Counter.StartAnimation |
| Sources/Panorama/Shapes/SpeechBubble.swift:73-76 | both branches of the left border end at `(0, rect.height)`, the bottom-left corner the bottom border already reached | any rect of non-zero height, arrow at the top: the last line has zero length and the path never returns to (0, 0) | the left border climbs to `(0, 0)` and closes the outline | not executed | SpeechBubbles.AsWrittenNeverCloses | SpeechBubbles.OutlineIsClosed |
