# Portfolio site interaction logic in Dafny

This project models the small pieces of sequential logic in a personal
portfolio site built with React and an animation library. The pieces are:

- **The shared interaction kit.**
  - The glitch-text hover effect.
  - The ripple button's list of click ripples.
  - The magnetic button and the tilt card.
  - The scroll progress bar and the reveal-on-scroll direction table.
- **The motion presets.** The easing curves, the duration presets, the variant records, and the builders `createSlide`, `createStaggerContainer` and `withReducedMotion`.
- **The image effects.** The RGB split, the pixelated image and the glitch image.
- **The landing page's navigation.** The button action dispatcher, `scrollToSection`, and the active-section scan on scroll.
- **The works site's home page.** The same scan over its five fixed sections, the mobile menu toggle, and the highlighted desktop navigation item.
- **The graphic-design gallery.** The sixteen projects, the category filter, the tag badges and the image modal.
- **The works site's root component.** The session-storage authentication flag and the gate it controls.

### How the browser is modelled

- **Stateful components are classes.** A component whose handlers update state is a Dafny `class`. Its fields are the component's state, and its methods are the handlers. Each method's `ensures` gives the whole new state. Where the state has an invariant, it is `Valid()`.
- **Pure parts are functions.** The pure parts (geometry, tables, builders, filters) are functions, with lemmas about them.
- **The browser is explicit.** It enters the model as parameters and values:
  - Bounding boxes are a `Rect`. `None` stands for a ref that is not mounted.
  - The document's sections are a map from id to `offsetTop`/`offsetHeight`.
  - Scroll position, `Date.now()` and the preference `prefers-reduced-motion` are plain parameters.
  - `Math.random()` draws are a sequence of reals in [0, 1).
  - Session storage is a `map<string, string>` held in a class.
  - Effects such as navigation, opening a window or logging are returned as an `Effect` value.
- **Timers are events.** The 30 ms glitch interval is a `Tick` event and the 600 ms ripple timeout is an `Expire` event.
- **The glitch counter is exact.** The glitch counter `iterations`, which grows by 1/3 per tick, is the exact rational `ticks / 3`. Position `i` is therefore solved exactly when `3 * i < ticks`.

### Where the model follows the code

- **The scroll progress bar has no clamp and no zero guard.** Its scale is `scrollY / (scrollHeight - innerHeight)` with no clamp to [0, 1] and no guard for a page that fits the window. The model keeps both gaps:
  - `Progress` requires a positive scrollable distance.
  - `ScaleXNotClamped` proves that an overscroll gives a scale above 1.
- **A scrambled character may match the original.** At a scrambled position the glitch text shows the alphabet character drawn for it, and that character may happen to equal the original one. `Scramble` therefore states two implications:
  - a solved position holds the original character;
  - an unsolved position holds the drawn character.
- **The landing page never opens its menu.** Its component keeps an `isMenuOpen` flag but no handler ever sets it to `true`. `LandingApp.App.Valid` therefore includes `!isMenuOpen`.
- **Ripple ids can collide.** A ripple's id is `Date.now()`. Two clicks in the same millisecond get the same id, and the first timer then removes both ripples. `RemoveId` models this as written (every ripple with the id goes), and `RemoveIdUnique` gives the one-ripple case under distinct ids.

## Model

| member | source | states |
|---|---|---|
| GlitchTextEffect.PickIndex | src/shared/kinetic-interactions.jsx:112 | a random draw selects a valid index into the 44-character alphabet |
| GlitchTextEffect.SolvedIff | src/shared/kinetic-interactions.jsx:109 | position `i` is below the counter after `k` ticks exactly when `3i < k` |
| GlitchTextEffect.StopIff | src/shared/kinetic-interactions.jsx:116 | the stop test `iterations >= length` holds exactly from tick `3 * length` on |
| GlitchTextEffect.Scramble | src/shared/kinetic-interactions.jsx:107-114 | a rewrite keeps the text's length; solved positions hold the original character, the others the drawn alphabet character; every character is original or from the alphabet |
| GlitchTextEffect.Idle | src/shared/kinetic-interactions.jsx:99-101 | no contract of its own: the state before any hover, the original text and not glitching; `GlitchText.constructor` states it |
| GlitchTextEffect.Enter | src/shared/kinetic-interactions.jsx:124-129 | no contract of its own; `EnterPreservesInv` states that it is ignored while glitching and otherwise starts a session at counter 0 |
| GlitchTextEffect.Tick | src/shared/kinetic-interactions.jsx:106-121 | a tick keeps the text's length and does nothing when no session is running |
| GlitchTextEffect.Run | src/shared/kinetic-interactions.jsx:104-121 | any number of interval firings keeps the text's length; `RunIdle`, `RunGlitching` and `GlitchSessionEnds` state where the session is after them |
| GlitchTextEffect.EnterPreservesInv | src/shared/kinetic-interactions.jsx:124-129 | mouse-enter while glitching changes nothing; otherwise it starts a session at counter 0 over the original text |
| GlitchTextEffect.TickPreservesInv | src/shared/kinetic-interactions.jsx:107-120 | a tick keeps the invariant (length, solved prefix, alphabet), and it ends the session exactly at tick `3N`, leaving the original text |
| GlitchTextEffect.RunIdle | src/shared/kinetic-interactions.jsx:116-119 | once the interval is cleared, further ticks change nothing |
| GlitchTextEffect.RunGlitching | src/shared/kinetic-interactions.jsx:104-121 | a running session counts its ticks until tick `3N`, and one tick later it is idle showing the original text |
| GlitchTextEffect.GlitchSessionEnds | src/shared/kinetic-interactions.jsx:104-129 | a hover keeps glitching through `3N` ticks and is over with the original text from tick `3N+1` on; an empty text stops on its first tick |
| GlitchTextEffect.GlitchText.constructor | src/shared/kinetic-interactions.jsx:99-101 | the component starts idle, showing its text |
| GlitchTextEffect.GlitchText.MouseEnter | src/shared/kinetic-interactions.jsx:124-129 | the handler's new state is `Enter` of the old one, and the invariant is kept |
| GlitchTextEffect.GlitchText.IntervalTick | src/shared/kinetic-interactions.jsx:106-121 | one interval firing's new state is `Tick` of the old one, and the invariant is kept |
| RippleEffect.NewRipple | src/shared/kinetic-interactions.jsx:406-418 | the ripple's size is the larger side, its centre is the click point relative to the button, and its id is the click time |
| RippleEffect.RemoveId | src/shared/kinetic-interactions.jsx:423 | expiry keeps exactly the ripples whose id differs, and the length drops by the number carrying the id |
| RippleEffect.RemoveIdAppend | src/shared/kinetic-interactions.jsx:423 | filtering distributes over concatenation, so kept ripples keep their order |
| RippleEffect.RemoveIdAbsent | src/shared/kinetic-interactions.jsx:423 | an id no ripple carries leaves the list unchanged |
| RippleEffect.RemoveIdUnique | src/shared/kinetic-interactions.jsx:413-423 | with distinct ids, expiring ripple `j`'s id removes exactly that ripple |
| RippleEffect.ExpireOldest | src/shared/kinetic-interactions.jsx:420-424 | with distinct ids, the oldest timer removes exactly the first ripple and keeps the rest in order |
| RippleEffect.CollidingRipplesExpireTogether | src/shared/kinetic-interactions.jsx:413-423 | two ripples created in the same millisecond share an id, and the first of their timers removes both |
| RippleEffect.ExpireAllEmpties | src/shared/kinetic-interactions.jsx:420-424 | when every ripple has a pending timer, firing all of them empties the list |
| RippleEffect.RippleButton.constructor | src/shared/kinetic-interactions.jsx:404 | the button starts with no ripple and no pending timer, with the timers in ripple order |
| RippleEffect.RippleButton.Click | src/shared/kinetic-interactions.jsx:406-425 | a click appends exactly one new ripple at the end, leaves the others unchanged, and schedules its timer; when its time is new the timers stay the ripples' ids in order |
| RippleEffect.RippleButton.Expire | src/shared/kinetic-interactions.jsx:422-424 | the oldest timer fires and removes the ripples with its id, and with no timer pending nothing changes; while the timers are the ripples' ids in order, this removes exactly the oldest ripple |
| RippleEffect.RippleButton.Drained | src/shared/kinetic-interactions.jsx:420-424 | after all pending timers fire no ripple is left |
| RippleEffect.TwoClicksOneExpiry | src/shared/kinetic-interactions.jsx:406-425 | two clicks at different times and one expiry leave exactly the second ripple and its timer |
| PointerEffects.MagneticTarget | src/shared/kinetic-interactions.jsx:21-30 | the button's centre closes 30% of its distance to the pointer on each axis, and the offset is zero exactly at the centre |
| PointerEffects.MagneticBounded | src/shared/kinetic-interactions.jsx:24-27 | over the button the offset stays within 30% of half its size |
| PointerEffects.TiltTarget | src/shared/kinetic-interactions.jsx:59-68 | no contract of its own; `TiltFacesPointer` and `TiltBounded` state the direction and the bound of the angles |
| PointerEffects.TiltFacesPointer | src/shared/kinetic-interactions.jsx:59-68 | the card turns towards the pointer: `rotateY` has the sign of the horizontal offset, `rotateX` the opposite sign of the vertical one, and both are zero exactly at the centre |
| PointerEffects.TiltBounded | src/shared/kinetic-interactions.jsx:64-68 | over the card neither angle exceeds half the intensity |
| PointerEffects.MagneticButton.constructor | src/shared/kinetic-interactions.jsx:14-15 | both motion values start at 0 |
| PointerEffects.MagneticButton.MouseMove | src/shared/kinetic-interactions.jsx:21-30 | an unmounted ref changes nothing; otherwise the motion values become the magnetic target |
| PointerEffects.MagneticButton.MouseLeave | src/shared/kinetic-interactions.jsx:32-35 | both motion values return to exactly 0 |
| PointerEffects.TiltCard.constructor | src/shared/kinetic-interactions.jsx:54-57 | intensity defaults to 15 and both angles start at 0 |
| PointerEffects.TiltCard.MouseMove | src/shared/kinetic-interactions.jsx:59-69 | an unmounted ref changes nothing; otherwise the angles become the tilt target |
| PointerEffects.TiltCard.MouseLeave | src/shared/kinetic-interactions.jsx:71-74 | both angles return to exactly 0 |
| ScrollEffects.ScaleXIsScrolledShare | src/shared/kinetic-interactions.jsx:226-238 | the bar's scale is `scrollY / (scrollHeight - innerHeight)`: 0 at the top, 1 at the bottom, within [0, 1] in between |
| ScrollEffects.ScaleXMonotone | src/shared/kinetic-interactions.jsx:226-238 | scrolling further down never shortens the bar |
| ScrollEffects.ScaleXNotClamped | src/shared/kinetic-interactions.jsx:226-238 | nothing clamps the bar: an overscroll gives a scale above 1 and a negative position a negative one |
| ScrollEffects.Progress | src/shared/kinetic-interactions.jsx:226-228 | no contract of its own; `ScaleXIsScrolledShare` states that the percentage is the scrolled share of the page |
| ScrollEffects.ScaleX | src/shared/kinetic-interactions.jsx:237 | no contract of its own; `ScaleXIsScrolledShare`, `ScaleXMonotone` and `ScaleXNotClamped` state the bar's scale |
| ScrollEffects.ScrollProgress.constructor | src/shared/kinetic-interactions.jsx:222 | the progress starts at 0 |
| ScrollEffects.ScrollProgress.HandleScroll | src/shared/kinetic-interactions.jsx:225-229 | the stored progress is the scrolled percentage, so the bar's scale is the scrolled share |
| ScrollEffects.RevealTravelsInDirection | src/shared/kinetic-interactions.jsx:253-271 | for up, down, left and right the element fades from 0 to 1 and travels 60 pixels in the named direction |
| ScrollEffects.RevealInitial | src/shared/kinetic-interactions.jsx:253-266 | no contract of its own; `RevealTravelsInDirection` and `RevealUnknownOnlyFades` state the start pose |
| ScrollEffects.RevealUnknownOnlyFades | src/shared/kinetic-interactions.jsx:263-266 | a direction outside the table only fades in |
| KineticMotion.DurationsIncrease | src/shared/kinetic-motion.js:12-17 | instant < fast < base < slow, all positive |
| KineticMotion.PresetsExitWhereTheyStart | src/shared/kinetic-motion.js:24-99 | every entrance preset exits to its start pose, starts at opacity 0 and animates to opacity 1 |
| KineticMotion.CreateStaggerContainer | src/shared/kinetic-motion.js:147-154 | the record carries the given stagger and initial delays |
| KineticMotion.DefaultStaggerIsPreset | src/shared/kinetic-motion.js:82-89 | the builder with its defaults gives the preset (0.08 s stagger, 0.1 s delay) |
| KineticMotion.CreateSlide | src/shared/kinetic-motion.js:162-172 | all three poses are present, exit equals initial, and the transition is the given duration with the snap curve |
| KineticMotion.CreateSlideAxis | src/shared/kinetic-motion.js:163 | a slide animates opacity and one axis, `y` exactly for up and down, `x` otherwise |
| KineticMotion.CreateSlidePoses | src/shared/kinetic-motion.js:164-169 | the slide starts invisible `distance` away, on the positive side exactly for right and down, and animates to opacity 1 at 0 |
| KineticMotion.PresetsAgreeWithCreateSlide | src/shared/kinetic-motion.js:24-49 | slide-in-left and slide-in-right equal the builder's defaults; slide-up differs from the builder's `up` (+40, kinetic curve) |
| KineticMotion.ReducedMotionIsStill | src/shared/kinetic-motion.js:178-187 | under reduced motion all three poses are the target pose (or empty) and there is no transition; otherwise the variants are unchanged; the wrapper is idempotent |
| KineticMotion.WithReducedMotion | src/shared/kinetic-motion.js:178-187 | no contract of its own; `ReducedMotionIsStill` states what it returns |
| ImageEffects.SplitOffsetRange | src/shared/kinetic-image-effects.jsx:160-166 | the split offset is 0 at the centre, -intensity at the left edge, +intensity at the right, and within intensity over the image |
| ImageEffects.SplitOffset | src/shared/kinetic-image-effects.jsx:160-166 | no contract of its own; `SplitOffsetRange` states its values and bound |
| ImageEffects.SplitLayersSymmetric | src/shared/kinetic-image-effects.jsx:170-195 | red targets `-offset` and blue `+offset`, symmetric about the green layer, which never moves |
| ImageEffects.SplitLayers | src/shared/kinetic-image-effects.jsx:170-195 | no contract of its own; `SplitLayersSymmetric` states the three layers' targets |
| ImageEffects.SplitRGBImage.constructor | src/shared/kinetic-image-effects.jsx:154-155 | intensity defaults to 5 and the offset starts at 0 |
| ImageEffects.SplitRGBImage.MouseMove | src/shared/kinetic-image-effects.jsx:160-166 | the offset becomes the split offset of the pointer |
| ImageEffects.SplitRGBImage.MouseLeave | src/shared/kinetic-image-effects.jsx:167 | the offset returns to exactly 0 and the layers line up |
| ImageEffects.PixelateExactlyWhenPixelated | src/shared/kinetic-image-effects.jsx:109-113 | the pixelation stage is present exactly in the pixelated state, tiles of `pixelSize` dilated by half; contrast and saturation are the same in both states |
| ImageEffects.PixelatedFilter | src/shared/kinetic-image-effects.jsx:109-113 | no contract of its own; `PixelateExactlyWhenPixelated` states the filter in both states |
| ImageEffects.PixelatedImage.constructor | src/shared/kinetic-image-effects.jsx:96-97 | the image starts pixelated, with pixel size 10 by default |
| ImageEffects.PixelatedImage.MouseEnter | src/shared/kinetic-image-effects.jsx:102 | hovering removes the pixelation |
| ImageEffects.PixelatedImage.MouseLeave | src/shared/kinetic-image-effects.jsx:103 | leaving restores the pixelation |
| ImageEffects.GlitchLayersAtRest | src/shared/kinetic-image-effects.jsx:57-87 | at rest both channel layers target opacity 0 and nothing repeats; while glitching every track loops seamlessly and cyan jitters opposite to red |
| ImageEffects.GlitchImageLayers | src/shared/kinetic-image-effects.jsx:57-87 | no contract of its own; `GlitchLayersAtRest` states the layers at rest and while glitching |
| ImageEffects.GlitchImage.constructor | src/shared/kinetic-image-effects.jsx:44 | the image starts not glitching |
| ImageEffects.GlitchImage.MouseEnter | src/shared/kinetic-image-effects.jsx:49 | hovering starts the glitch |
| ImageEffects.GlitchImage.MouseLeave | src/shared/kinetic-image-effects.jsx:50 | leaving stops it and both channel layers target opacity 0 |
| Navigation.FirstHit | src/App.jsx:111-126 | the result is the first section in list order whose element exists and contains the position (half-open box); none exactly when no section does |
| Navigation.Scan | src/App.jsx:111-126 | the loop with its early exit finds exactly `FirstHit` at `scrollY + 100` |
| Navigation.ScrollTarget | src/App.jsx:101-107 | a section is scrolled to exactly when its element exists |
| Navigation.HighlightCount | works/src/pages/HomePage.jsx:183-189 | over distinct items exactly one is highlighted when the active id is among them, none otherwise |
| LandingApp.HrefRoundTrip | src/App.jsx:86-94 | the `mailto:` and `tel:` links give back their target, and neither scheme can be mistaken for the other |
| LandingApp.ButtonEffectKinds | src/App.jsx:81-98 | scroll scrolls to an existing target or does nothing; email and phone navigate to their link; link opens a new window with no opener; any other action is only logged |
| LandingApp.ButtonEffect | src/App.jsx:81-98 | no contract of its own; `ButtonEffectKinds` states the effect of every action |
| LandingApp.App.constructor | src/App.jsx:63-64 | the menu starts closed and the active section is `home` |
| LandingApp.App.ScrollToSection | src/App.jsx:101-107 | it scrolls only to an existing element and always closes the menu |
| LandingApp.App.HandleButtonAction | src/App.jsx:81-98 | the effect is the dispatcher's, only `scroll` touches the menu (closing it), and the active section is unchanged |
| LandingApp.App.HandleScroll | src/App.jsx:111-126 | the first containing section becomes active and no match keeps the old value, so the active section stays `home` or a listed section |
| WorksHomePage.DesktopNavHighlightsOne | works/src/pages/HomePage.jsx:183-189 | exactly one desktop navigation item is highlighted |
| WorksHomePage.HomePage.constructor | works/src/pages/HomePage.jsx:40-41 | the menu starts closed and the active section is `home` |
| WorksHomePage.HomePage.ScrollToSection | works/src/pages/HomePage.jsx:44-50 | it scrolls only to an existing element and always closes the menu |
| WorksHomePage.HomePage.ToggleMenu | works/src/pages/HomePage.jsx:206 | the menu button flips the menu and changes nothing else |
| WorksHomePage.HomePage.HandleScroll | works/src/pages/HomePage.jsx:54-67 | the first of the five sections containing `scrollY + 100` becomes active; no match keeps the old value, so it is always one of the five |
| WorksHomePage.ToggleTwice | works/src/pages/HomePage.jsx:206 | two presses of the menu button restore the menu |
| WorksHomePage.ScrollKeepsOneHighlight | works/src/pages/HomePage.jsx:54-67 | after any scroll exactly one desktop item is highlighted |
| GraphicDesign.Filter | works/src/pages/GraphicDesignPortfolio.jsx:198 | the filtered list holds exactly the projects of the category |
| GraphicDesign.FilterAppend | works/src/pages/GraphicDesignPortfolio.jsx:198 | filtering distributes over concatenation, so the original order is kept |
| GraphicDesign.FilterIdempotent | works/src/pages/GraphicDesignPortfolio.jsx:198 | filtering twice by a category is filtering once |
| GraphicDesign.FilterLength | works/src/pages/GraphicDesignPortfolio.jsx:198 | the filtered list is as long as the number of projects in the category |
| GraphicDesign.FiltersPartition | works/src/pages/GraphicDesignPortfolio.jsx:196-198 | when every project has one of a list of distinct categories, the filtered lists' lengths add up to the number of projects |
| GraphicDesign.FilteredProjects | works/src/pages/GraphicDesignPortfolio.jsx:196-198 | `all` shows the whole list in order; any other id shows exactly the projects of that category |
| GraphicDesign.ProjectCategoriesKnown | works/src/pages/GraphicDesignPortfolio.jsx:40-194 | every project's category is one of the five non-`all` filter ids |
| GraphicDesign.CategoriesPartitionProjects | works/src/pages/GraphicDesignPortfolio.jsx:40-194 | the five category views hold the sixteen projects between them without overlap |
| GraphicDesign.UnknownCategoryShowsNothing | works/src/pages/GraphicDesignPortfolio.jsx:196-198 | an id outside the filter buttons shows an empty grid |
| GraphicDesign.OneFilterButtonSelected | works/src/pages/GraphicDesignPortfolio.jsx:243-248 | exactly one filter button is drawn as selected |
| GraphicDesign.CardTagsAccountForAll | works/src/pages/GraphicDesignPortfolio.jsx:296-305 | a card shows a prefix of at most three tags and a `+n` badge exactly when tags are hidden, counting them |
| GraphicDesign.CardTags | works/src/pages/GraphicDesignPortfolio.jsx:296-305 | no contract of its own; `CardTagsAccountForAll` states the badges a card shows |
| GraphicDesign.EveryCardShowsThreeAndOneMore | works/src/pages/GraphicDesignPortfolio.jsx:49-194 | every project has four tags, so each card shows three and `+1` |
| GraphicDesign.Portfolio.constructor | works/src/pages/GraphicDesignPortfolio.jsx:37-38 | the gallery starts on `all` with no image selected |
| GraphicDesign.Portfolio.SelectCategory | works/src/pages/GraphicDesignPortfolio.jsx:247 | a filter button selects its category and changes nothing else |
| GraphicDesign.Portfolio.ClickCard | works/src/pages/GraphicDesignPortfolio.jsx:276 | a card click selects that card's project |
| GraphicDesign.Portfolio.ModalClick | works/src/pages/GraphicDesignPortfolio.jsx:319-337 | the backdrop and the close button close the modal; a click on its content leaves it open |
| WorksApp.StoreAuthRoundTrip | works/src/App.jsx:17-24 | recording a status and reading it back gives that status, no other key changes, and recording is idempotent |
| WorksApp.StoreAuth | works/src/App.jsx:17-24 | no contract of its own; `StoreAuthRoundTrip` states what reading back gives and that no other key changes |
| WorksApp.Render | works/src/App.jsx:26-30 | the router renders exactly when authenticated, the password gate otherwise |
| WorksApp.SessionStorage.GetItem | works/src/App.jsx:11 | the stored value under the key, or none exactly when the key is absent |
| WorksApp.SessionStorage.SetItem | works/src/App.jsx:20 | the key now holds the value and every other key is unchanged |
| WorksApp.SessionStorage.RemoveItem | works/src/App.jsx:22 | the key is gone and every other key is unchanged |
| WorksApp.App.constructor | works/src/App.jsx:7 | the component starts not authenticated |
| WorksApp.App.Mount | works/src/App.jsx:10-15 | mounting authenticates exactly when the stored value is `"true"`, and otherwise leaves the flag as it is |
| WorksApp.App.HandleAuthenticate | works/src/App.jsx:17-24 | the flag becomes the given status; `true` writes `"true"` under the key and `false` removes the key |
| WorksApp.ReloadRemembers | works/src/App.jsx:10-24 | after authenticating with a status, a fresh mount over the same storage has that status |

## Left out

- **Animation playback.** Springs, easing playback, durations over time, keyframe interpolation and `layout` animations belong to the animation library. The model keeps only the target values and the configuration records.
- **Other kit components.** These are presentational or driven by the animation library:
  - `KineticCursor` (direct style writes and DOM ancestor queries);
  - the `StaggerContainer` and `StaggerItem` components, `SplitText` and `FloatingElement`;
  - `DuotoneImage`, `HalftoneImage`, `BrutalistFrame`, `ScanlineImage` and `ParallaxImage`.
- **Other motion presets.** `scaleOnHover`, `liftOnHover`, `snapTo`, the `scrollReveal` presets and the spring presets in src/shared/kinetic-motion.js are plain configuration records that nothing computes with.
- **Other parts of the site.**
  - src/shared/reflection-scroll.jsx is scroll interpolation by the animation library, and is not part of this model.
  - works/src/components/Router.jsx is a route table read by the router library, and is not part of this model.
  - The case-study pages and the work-only page are static content, and are not part of this model.
  - The password gate component is not part of this model, so its password check is not modelled. `WorksApp.App.HandleAuthenticate` takes its answer as a parameter.
- **Floating point.** Every number is an exact `real`. The model does not capture:
  - the IEEE drift of adding 1/3 repeatedly to the glitch counter;
  - the Infinity/NaN a zero-width box or a page that fits the window would give.

  `TiltTarget`, `SplitOffset` and `Progress` therefore require a positive divisor.
- **Time and randomness.**
  - The 30 ms interval and the 600 ms timeout are explicit events.
  - `Date.now()` is a parameter.
  - `Math.random()` is a sequence of draws.
- **Timer order.** `RippleEffect.RippleButton.Expire` fires the oldest pending timer, because every timer has the same delay. Timers firing out of creation order are not modelled.
- **React scheduling.** Batching and deferred updater functions are not modelled. Each state update applies at once, in program order.
- **Browser APIs.** Listener registration and removal, smooth scrolling, and the CSS filter and style strings are not modelled. Element positions are a fixed map while one handler runs.
- **Server rendering.** `KineticMotion.WithReducedMotion` takes the result of `(typeof window !== 'undefined' && matchMedia(...).matches)` as one boolean. The case without a browser window is the `false` case.
- **Content data.** The landing page's section list comes from its content file, which is not part of this model; it is a parameter of `LandingApp.App`. Project images and descriptions, and the text of the year badge, are not modelled.
- **Reveal behaviour.** The reveal wrapper's trigger-once viewport behaviour, its delay and its timing belong to the animation library.
- GlitchTextEffect.Scramble: a string is a sequence of Unicode code points, while JavaScript's `split('')`, `length` and indexing count UTF-16 code units. Positions, indices and the length N are therefore code points, and text with characters outside the Basic Multilingual Plane (an emoji, say) is not modelled. The site imports `GlitchText` in src/App.jsx but never renders it, so no page shows this.
- **Changing props.** A glitch text whose `children` prop changes after mounting is not modelled. `GlitchTextEffect.GlitchText` fixes the text for the component's life.
- **Gallery sizes.** `GraphicDesign.CategoriesPartitionProjects` proves that the five category views together hold the sixteen projects. It does not state each category's own count, which is 3, 3, 3, 2 and 5.
