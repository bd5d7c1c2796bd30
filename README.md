# Gallery lightbox controller — a Dafny model

This project models the navigation core of the `GalleryApp` controller of a
client-side image gallery (`js/script.js`). The gallery shows thumbnail grids
in sections that expand and collapse, and a lightbox overlay that shows one
full-size image of a section at a time. The user moves through the images with
the previous/next buttons, the arrow keys and Space, or a horizontal swipe.
Escape, a downward swipe or a click on the backdrop closes the overlay.

With the document tree, timers and image fetches taken away, what is left is a
small state machine:

- `Gallery.GalleryApp` is a class whose fields are the controller's own
  `currentImages`, `currentImageIndex` and `isLoading`. It also holds the
  overlay chrome those handlers set, each reduced to the flag or text it
  encodes: overlay shown, scroll lock, displayed image, caption, error banner,
  button and counter visibility, counter text. Last, it keeps a log of the
  full-size loads started.
- The handlers are methods: open, navigate, close, load success (after the
  200 ms fade), load failure and error dismissal (the 3000 ms timer).
  Navigation and the two load completions are proved against the value-level
  functions `Navigated` and `LoadCompleted` of `Navigation`. Opening is proved
  against the `Images` functions `ImagesOf` and `StartIndex` and against
  `Neighbours`. Closing and error dismissal state the flags they set directly.
- `Images` reads the cards of a section into image descriptors, with the alt
  and title defaults, and finds the index the overlay opens at.
- `Display` holds the counter text `"{i+1} / {N}"`, with the decimal numerals
  it needs, and the caption rule `title || alt`.
- `Input` holds the keydown dispatch, the touchend swipe classifier and the
  touch tracker that holds the touch-start coordinates.
- `Sections` holds the expand/collapse toggle of a section, as a value function
  and as a class over the control's classes and label.

Some quirks of the source are modelled as written:

- The counter badge is created at start-up only when the modal markup is
  already in the page (`hasCounter`). The default markup is injected by a
  DOMContentLoaded listener that runs after the controller is built, so on such
  a page the counter never appears.
- `openModal` on a card outside any section, or on an empty section, raises a
  TypeError. It has already set the loading flag, and for an empty section it
  has also cleared the list. The model returns `Threw` in both cases.
- A zero start coordinate counts as "no touch", because the handlers test the
  coordinates for truthiness.
- Load completions are not tied to the overlay being shown. A completion that
  arrives after a close, or after a later navigation, still swaps its own image
  in and clears the loading flag.

Two behaviours of the code worth stating:

- `navigateImage(d)` wraps an index below 0 to the last image and an index at
  or past the end to the first. This equals `(i + d) mod N` only for `d = ±1`,
  the only steps the handlers take. It does not equal it for an arbitrary `d`.
- The closing swipe needs `startY - endY < -100`, so the finger moves down the
  screen, not up.

## Model

| member | source | states |
|---|---|---|
| Images.ImageRefOf | js/script.js:169-173 | a card's descriptor keeps its source; alt is the img's alt, or 'Gallery image' when the img or its alt is missing, so it is never empty; title is the img's title or '' |
| Images.ImagesOf | js/script.js:168-173 | the image list has one descriptor per card of the section, in document order |
| Images.FirstIndexOf | js/script.js:176 | findIndex: -1 exactly when no image has the source; otherwise the index of an image with that source and no earlier one has it |
| Images.StartIndex | js/script.js:176-177 | the opening index is the first image with the clicked source, or 0 when none has it; in range for a non-empty list |
| Display.Digits | js/script.js:340 | the numeral of a number is a non-empty string of decimal digits with no leading zero |
| Display.ValueOfDigits | js/script.js:340 | reading the numeral back gives the number |
| Display.DigitsInjective | js/script.js:340 | different numbers have different numerals |
| Display.CounterTextInjective | js/script.js:340 | two counter texts "{i+1} / {N}" are equal only for the same position and count |
| Display.CounterTextReadsBack | js/script.js:340 | the counter text CounterText(i, N) is a numeral, " / ", and a second numeral; the first reads back as index + 1 and the second as the total |
| Display.TitleText | js/script.js:220 | the caption `title \|\| alt` is the title when it is non-empty and the alt otherwise; it is empty only when both are |
| Display.TitleShown | js/script.js:221 | the caption is displayed exactly when the title is non-empty: a displayed caption is the title, a hidden one holds the alt |
| Display.CardCaption | js/script.js:220-221 | for an image read from a card the caption `title \|\| alt` is never empty; it is the title when displayed and the alt otherwise |
| Navigation.WrapIndex | js/script.js:280-287 | the stepped index is always within [0, N); for targets in [-1, N] it is the target mod N |
| Navigation.Navigated | js/script.js:277-290 | navigation leaves the list alone; it is a no-op with no image or with a load in flight; otherwise the index lands in range and a load is in flight |
| Navigation.LoadCompleted | js/script.js:227-232 | a completed load, successful or failed, clears the loading flag and changes nothing else |
| Navigation.NavigatedInBounds | js/script.js:280-287 | navigating or completing a load keeps the index in bounds |
| Navigation.NavigatedWraps | js/script.js:280-287 | an accepted ±1 step gives (old + d) mod N: the last image goes to the first and the first to the last |
| Navigation.SecondNavigationDropped | js/script.js:278 | after an accepted step a second step before the load completes changes nothing |
| Navigation.StepBackUndoesStep | js/script.js:280-287 | a step, its load completing, then the opposite step returns to the starting index |
| Navigation.WalkIndex | js/script.js:277-290 | k completed ±1 steps move the index by k positions modulo N and keep it in bounds |
| Navigation.WalkAroundReturns | js/script.js:277-290 | N completed steps in one direction return to the starting state |
| Navigation.KeptInRange | js/script.js:355-364 | the forEach over the candidate indexes (Kept) wraps each one as navigateImage wraps and keeps those that are not the current index: at most one entry per candidate, each in [0, N) and different from the current index |
| Navigation.NeighboursChosen | js/script.js:350-364 | Neighbours, the preload choice for the indexes before and after the current one, never picks the current index and stays in range: nothing for one image, the other image twice for two, the two distinct wrapped neighbours for three or more |
| Input.KeyCommand | js/script.js:55-71 | Escape closes, ArrowLeft steps back, ArrowRight and Space step forward, and every other key does nothing |
| Input.PreventsDefault | js/script.js:60-68 | the default is suppressed only for a key the handler acts on |
| Input.PreventsDefaultOnlyWhenNavigating | js/script.js:56-70 | the browser default is suppressed exactly for the keys that navigate |
| Input.ClassifySwipe | js/script.js:103-121 | forward iff \|diffX\| > \|diffY\| and diffX > 50, back iff \|diffX\| > \|diffY\| and diffX < -50, no step otherwise; close iff diffY < -100 and \|diffX\| < 50, which is always a mostly vertical move |
| Input.SwipeOutcomesExclusive | js/script.js:110-121 | a gesture never both navigates and closes |
| Input.TouchTracker.constructor | js/script.js:83-85 | tracking starts with no start point and no drag |
| Input.TouchTracker.TouchStart | js/script.js:87-91 | touchstart records the start point and clears the drag flag |
| Input.TouchTracker.TouchMove | js/script.js:93-96 | touchmove marks a drag only once a start with non-zero coordinates is recorded |
| Input.TouchTracker.TouchEnd | js/script.js:98-126 | with no recorded start or no drag, touchend does nothing and leaves the tracker as it was; otherwise it classifies the displacement and resets the tracker |
| Sections.Toggled | js/script.js:129-146 | no-op when the grid or the button is missing; otherwise the grid flips and the button and label follow it: 'Show Less' when expanded, 'View All' when collapsed |
| Sections.ToggleTwiceRestores | js/script.js:133-145 | toggling twice restores a control whose button and label agree with its grid |
| Sections.ToggleTwiceResyncs | js/script.js:133-145 | toggling twice brings any control back into agreement with its grid, which keeps its original state |
| Sections.ExpandControl.Toggle | js/script.js:129-155 | the control's new classes and label are Toggled of the old ones; one scroll is scheduled for each expansion |
| Gallery.GalleryApp.constructor | js/script.js:2-8 | start-up: empty list, index 0, not loading, overlay hidden; the counter exists iff the modal existed at start-up |
| Gallery.GalleryApp.ShowLoading | js/script.js:239-247 | sets the loading flag to the argument |
| Gallery.GalleryApp.LoadModalImage | js/script.js:197-236 | raises the loading flag and starts one full-size load of the given descriptor |
| Gallery.GalleryApp.LoadSucceeded | js/script.js:209-229 | after the fade the displayed source and alt are the loaded image's, the caption follows `title \|\| alt` and is shown iff the title is non-empty, and loading ends; list and index unchanged |
| Gallery.GalleryApp.LoadFailed | js/script.js:231-234 | loading ends, the banner shows 'Failed to load image', and the displayed image, list and index are unchanged |
| Gallery.GalleryApp.ShowError | js/script.js:249-259 | the banner shows the message |
| Gallery.GalleryApp.ErrorDismissed | js/script.js:256-258 | the dismissal timer hides the banner |
| Gallery.GalleryApp.UpdateNavigationButtons | js/script.js:300-311 | prev/next are displayed iff there is more than one image |
| Gallery.GalleryApp.UpdateImageCounter | js/script.js:335-345 | the counter is displayed iff it exists and N > 1, and then reads exactly "{index+1} / {N}"; otherwise its text is kept |
| Gallery.GalleryApp.PreloadAdjacentImages | js/script.js:347-365 | the indices fetched ahead are exactly Neighbours of the current index, and none for an empty list |
| Gallery.GalleryApp.OpenModal | js/script.js:157-195 | fails iff the section is missing or empty, with the loading flag raised; otherwise the list is replaced by the section's cards, the index is the first match or 0, that image's load starts, the overlay is shown, the buttons and counter are in sync and the neighbours are preloaded |
| Gallery.GalleryApp.CloseModal | js/script.js:262-275 | hides the overlay, unlocks scrolling and hides the banner; list, index, loading flag and loads are untouched |
| Gallery.GalleryApp.NavigateImage | js/script.js:277-298 | the navigation state becomes Navigated of the old one; a dropped step changes nothing at all; an accepted one starts the new image's load, syncs buttons and counter and preloads the neighbours |
| Gallery.GalleryApp.Execute | js/script.js:56-69 | a close command hides the overlay and banner, unlocks scrolling, starts no load and keeps the navigation state, buttons and counter; a navigate command that the guard drops changes nothing; otherwise it moves the navigation state to Navigated of the old one and keeps the overlay, scroll lock and banner; on an accepted step the buttons and counter are in sync and a hidden counter keeps its text |
| Gallery.GalleryApp.HandleKey | js/script.js:52-73 | nothing happens while the overlay is hidden or for an unbound key; otherwise Escape hides the overlay and banner, unlocks scrolling, starts no load and keeps the buttons and counter; a navigation key the guard drops changes nothing; ArrowLeft steps back, and ArrowRight or Space step forward, keeping the overlay, scroll lock and banner; the default is suppressed iff shown and a navigation key |
| Gallery.GalleryApp.OnTouchEnd | js/script.js:98-126 | a touch without a start and a drag changes nothing; otherwise the tracker is reset and the classified swipe steps with the navigation rule (overlay, scroll lock and banner kept) or closes (overlay and banner hidden, scrolling unlocked, no load started, buttons and counter kept), and never both; a step the guard drops leaves the gallery state unchanged |
| Gallery.ThreeImageCounters | js/script.js:340 | the counter texts of three images read "1 / 3", "2 / 3", "3 / 3" |

## Left out

- Document queries, class toggles and styles are not modelled. This covers the fade opacity and scale, the loading-indicator display and the body overflow. Each is kept only as the flag it encodes (`shown`, `scrollLocked`, `isLoading`, `buttonsVisible`, `counterVisible`, `titleVisible`, `errorVisible`).
- The model assumes the modal and its sub-elements exist whenever a handler runs; the default markup is injected on DOMContentLoaded. The early returns for a missing modal or sub-element (lines 162, 202, 243, 253, 264, 305) are therefore not modelled. The counter is the exception: whether it exists is `hasCounter`.
- The backdrop, close, previous and next listeners (lines 36-49) and the touch listeners (lines 79-81) exist only when the modal is in the page at start-up. The model's input handlers assume they are bound. A button click is a direct call of `CloseModal` or `NavigateImage(-1 / +1)` and has no member of its own.
- Timers become discrete events with no modelled time. The 200 ms fade is folded into `LoadSucceeded` and the 3000 ms dismissal is `ErrorDismissed`. The 100 ms smooth scroll is only counted in `scrollsScheduled`; the scroll itself is not modelled.
- Load completions may arrive in any order, including stale ones. `LoadSucceeded` takes the descriptor its load was started with, and the model does not tie it to an entry of `requests`.
- The thumbnail preload with its Promise batch and console message (lines 367-386), the thumbnail fade-in and placeholder substitution (lines 388-417), the focus trap (lines 419-437 and 274) and the section entrance animations (lines 487-509) are pure I/O or UI side effects. They are not modelled.
- `openImageModal` and `addImagesToSection` (lines 440-476) only look up or build elements around `openModal`. They are not modelled.
- Touch coordinates are browser floats; the model uses integers, since the classifier only compares them with thresholds.
- A card without a `data-src` attribute, whose source would be `undefined`, is not modelled; every card carries a source string.
- Gallery.GalleryApp.HandleKey: on a navigation key it states the navigation state, that the overlay, scroll lock and banner are kept, and that buttons and counter already in sync stay in sync. The loads and preloads a step starts are stated by `NavigateImage`, not repeated here.
- Gallery.GalleryApp.Execute: on a navigate command it leaves the loads and preloads to `NavigateImage`'s contract.
- Gallery.GalleryApp.OnTouchEnd: like HandleKey, on a navigating swipe it states the navigation state and the kept overlay, scroll lock and banner, and leaves the loads and preloads to `NavigateImage`'s contract.
