# Spice Berg carousel and theme controller, in Dafny

This project models the interactive core of the Spice Berg landing page
(`script.js`). That core is the dish carousel. It wraps around at both ends
and moves one slide at a time, driven by the previous/next buttons, the arrow
keys, touch swipes and mouse drags. The active dish picks the page's colour
theme, and applying a theme rewrites:

- the seven page-wide style variables;
- the theme label;
- the colour of every ambient particle.

The state the script keeps in closure variables and in the DOM is a class,
`Page.Controller`. Its handlers are methods, and each is proved against a
pure specification function on an abstract `Screen` value:

- **index**: the slide index;
- **offset**: the track offset;
- **progress**: the width of the progress bar;
- **cards**: one style per card;
- **theme**: the themed part of the page, a `ThemeView`.

The pure modules prove what those functions mean:

- wrap-around is arithmetic modulo the number of cards;
- exactly one card is highlighted after every navigation;
- a navigation leaves the theme coherent: the current key is a table entry
  and, once a palette has been applied, the style variables, label and
  particles all show that key's palette. Until the first theme switch they
  keep their load-time values, for example when the first card is "truffle";
- each input moves at most one slide;
- the swipe and drag thresholds are strict.

Modules:

- `Wrappers`: `Option`.
- `Themes`: the four-theme table, the style variables, and applying or
  following a theme.
- `Carousel`: index wrapping, track offset, progress, card highlighting, and
  the `Navigated` specification of one `goToSlide` call.
- `Gestures`: how keys, swipes and drags become a `Nav` (previous, next or
  stay), and the `Step` each one takes.
- `Page`: the `Controller` class and its event handlers.

Three behaviours of `script.js` that the model follows and a reader may not
expect:

- **Leaving the track does not cancel a drag.** `mouseleave` clears the drag
  flag, but no handler reads that flag. A release after leaving and
  re-entering still navigates from the recorded press position
  (`Page.LeaveThenRelease`).
- **The thresholds are strict.** A swipe of exactly 50 pixels, or a drag
  whose doubled distance is exactly 50, does not move the carousel
  (`Page.SwipeScenario` for the swipe, `Gestures.DragNav` for the drag).
- **A drag with no press moves nothing.** In the script, a release before any
  press computes with an undefined start position, so nothing matches and
  nothing moves. The model records the press position as an `Option`.

## Model

| member | source | states |
|---|---|---|
| Themes.Table | script.js:5-46 | definition: the four palettes under the keys "truffle", "saffron", "ocean" and "ember", with the script's names and colour strings; the initial key `InitialKey` is "truffle" (script.js:48) |
| Themes.Palette | script.js:99-106 | all seven style variables are set from a theme, no more and no fewer |
| Themes.PaletteWrites | script.js:99-106 | the seven successive `setProperty` writes leave exactly the theme's palette, whatever was there before |
| Themes.CssNameInjective | script.js:100-106 | the seven style variables are seven distinct custom properties, so no write of a palette overwrites another |
| Themes.Switches | script.js:147 | definition: the card's key is non-empty, differs from the current theme and names a theme in the table |
| Themes.SwitchChangesTheme | script.js:147 | a card switches the palette exactly when it changes which theme is current |
| Themes.Painted | script.js:126-127 | definition: a painted particle has the colour as background and a 10-pixel glow of it |
| Themes.NextTheme | script.js:95-97 | the current theme becomes the requested key when the table has it and stays otherwise, and a current theme in the table stays in the table |
| Themes.Repainted | script.js:123-129 | repainting keeps the number of particles and gives every particle the theme's particle colour and glow |
| Themes.Paint | script.js:99-120 | painting a theme makes its key current and shows its palette on the style variables, label and particles; it starts one more flash and keeps the particle count |
| Themes.Applied | script.js:95-121 | a key that is not one of the four theme names changes nothing; a known key becomes current and its palette is shown; a coherent themed page stays coherent |
| Themes.Followed | script.js:144-149 | a card's theme is applied exactly when it is non-empty, differs from the current one and is in the table; otherwise nothing changes; coherence is preserved |
| Themes.FollowedIdempotent | script.js:144-149 | following the same card's theme a second time changes nothing |
| Carousel.WrapIndex | script.js:132-134 | the index ends up in range: an index in range is kept, one below zero goes to the last card, one past the end goes to the first |
| Carousel.WrapNext | script.js:132-134 | from a valid slide, wrapping the next index is adding one modulo the number of cards |
| Carousel.WrapPrev | script.js:132-134 | from a valid slide, wrapping the previous index is subtracting one modulo the number of cards |
| Carousel.NextPrevInverse | script.js:164-165 | "next" then "previous" (and the reverse) return to the starting slide |
| Carousel.NextSteps | script.js:165 | k presses of "next" from a valid slide stay in range |
| Carousel.PrevSteps | script.js:164 | k presses of "previous" from a valid slide stay in range |
| Carousel.NextStepsIsMod | script.js:165 | k presses of "next" land on (start + k) modulo the number of cards |
| Carousel.PrevStepsIsMod | script.js:164 | k presses of "previous" land on (start - k) modulo the number of cards |
| Carousel.FullCircle | script.js:164-165 | as many presses of either button as there are cards return to the start |
| Carousel.TrackOffset | script.js:137 | the track is unshifted exactly on the first slide and shifted left on every later one |
| Carousel.TrackOffsetSteps | script.js:137 | the track shifts by 398 pixels (card width 350 plus gap 48) for each slide |
| Carousel.Progress | script.js:141 | the progress bar is strictly positive and at most 100 percent; it is full on the last slide and one card's share on the first |
| Carousel.ProgressIncreasing | script.js:141 | a later slide always shows strictly more progress than an earlier one |
| Carousel.CardStyles | script.js:151-160 | one style per card: the active card is the only one scaled 1.05 at full opacity, every other is scaled 0.95 at 0.6 |
| Carousel.ActiveCount | script.js:151-160 | the number of highlighted cards is one when the active index is in range and zero otherwise |
| Carousel.ExactlyOneActive | script.js:151-160 | after a highlight pass with a valid slide, exactly one card is highlighted, and it is the active one |
| Carousel.Navigated | script.js:132-161 | after a navigation the slide is the wrapped target; the track, the progress bar and the cards match it; exactly one card is highlighted; the theme follows the card's key when the table has it and is kept otherwise; coherence is preserved |
| Carousel.NavigatedFixpoint | script.js:132-161 | navigating again to the slide already shown changes nothing |
| Gestures.Delta | script.js:164-165 | a navigation moves the index by at most one, and by zero exactly when it is "stay" |
| Gestures.SwipeNav | script.js:180-191 | a touch asks for the next slide exactly when it moved left by more than 50 pixels, for the previous one exactly when it moved right by more than 50, and for nothing otherwise |
| Gestures.DragNav | script.js:210-216 | a release asks for the previous slide exactly when twice the distance right of the press exceeds 50, for the next one exactly when twice the distance left exceeds 50, and for nothing otherwise or when there was no press |
| Gestures.DragIsDoubledSwipe | script.js:210-216 | a drag from press to release navigates exactly as a touch swipe between the doubled positions would: in both, moving right asks for the previous slide and moving left for the next |
| Gestures.KeyNav | script.js:274-277 | the left arrow asks for the previous slide, the right arrow for the next, and any other key for nothing |
| Gestures.Step | script.js:164-165 | one navigation input, as the `goToSlide(currentIndex ± 1)` calls of the buttons, swipe, drag and arrow keys make it: "stay" keeps the screen, and any other input leaves it settled on the wrapped neighbouring slide |
| Gestures.StepMovesOnce | script.js:164-191 | from a settled screen, one input lands on (index + its delta) modulo the number of cards and stays settled; "stay" changes nothing; with more than one card, any other input changes the slide |
| Page.LoadScreen | script.js:48-49 | the page before the first render: slide 0, one unstyled card per dish, the "truffle" theme current, 30 unpainted particles, no flash yet, and a coherent themed page |
| Page.SwipeScenario | script.js:180-191 | a 100-pixel leftward swipe from the first slide shows the second; a swipe of exactly 50 pixels leaves the screen as it was |
| Page.Controller.constructor | script.js:269-271 | page load starts from the "truffle" theme and slide 0, with 30 unthemed particles and unstyled cards, then renders slide 0; the result is that navigation applied to the load screen |
| Page.Controller.UpdateParticles | script.js:123-129 | every particle gets the colour as background and a 10-pixel glow of it |
| Page.Controller.SetStyleVariables | script.js:99-106 | the root's style variables become exactly the theme's palette |
| Page.Controller.ApplyTheme | script.js:95-121 | the themed page becomes `Applied` of the old one: a key that is not one of the four theme names changes nothing; the slide, the track, the progress bar and the gesture state are untouched; the invariant is kept |
| Page.Controller.PaintTheme | script.js:99-120 | the themed page becomes `Paint` of the old one with the given palette; nothing outside the themed page changes |
| Page.Controller.FollowCardTheme | script.js:144-149 | the themed page becomes `Followed` of the old one for the active card's key; the invariant is kept |
| Page.Controller.HighlightCards | script.js:151-160 | the card styles become `CardStyles` for the active index |
| Page.Controller.GoToSlide | script.js:132-161 | the whole screen becomes `Navigated` of the old one for the requested index; the page is rendered and the gesture state is untouched |
| Page.Controller.Next | script.js:165 | the screen is navigated to the next index, which is the old one plus one modulo the number of cards |
| Page.Controller.Prev | script.js:164 | the screen is navigated to the previous index, which is the old one minus one modulo the number of cards |
| Page.Controller.KeyDown | script.js:274-277 | a key press takes exactly the step `KeyNav` assigns to the key |
| Page.Controller.TouchStart | script.js:171-173 | the touch start position is recorded and nothing else changes |
| Page.Controller.TouchEnd | script.js:175-178 | the end position is recorded and the screen takes the swipe's step |
| Page.Controller.HandleSwipe | script.js:180-191 | the screen takes the step `SwipeNav` assigns to the recorded touch |
| Page.Controller.MouseDown | script.js:198-200 | a drag starts, with the press position recorded relative to the track; the screen is unchanged |
| Page.Controller.MouseLeave | script.js:205-208 | only the drag flag is cleared; the press position and the screen are kept |
| Page.Controller.MouseUp | script.js:210-217 | the drag flag is cleared and the screen takes the step `DragNav` assigns to the press and release positions |
| Page.LeaveThenRelease | script.js:198-217 | press, leave and release 100 pixels to the right still go back one slide |

## Left out

- Hero parallax and fade on scroll (script.js:62-92): floating-point animation driven by animation frames and scroll events, with no effect on the carousel or the theme. The ambient background element is looked up (script.js:59) and never used.
- Hover tilt on dish cards (script.js:279-302): it overwrites a card's transform with a floating-point perspective rotation, and restores the highlight scale on leave. The model's card styles are those of the last highlight pass.
- Random placement, duration and delay of particles (script.js:220-230): randomness. Only the count of 30 particles is modelled, as the particle array's length.
- The intersection observer fade-in (script.js:232-253) and smooth scrolling of in-page links (script.js:255-267): browser services unrelated to the carousel.
- The 500 ms flash timer (script.js:113-115): a clock. The flash is modelled as a counter of started flashes, `flashes`.
- DOM element lookup (script.js:51-60): the cards are given to the constructor as their theme keys, and at least one card is required. The script would fail on an empty carousel, because it reads `dishCards[0].dataset`.
- The cursor style (script.js:202, 207, 212), the recorded `scrollLeft` (script.js:201), which nothing reads, and the console message (script.js:304): no effect on the modelled state.
- Mouse and touch coordinates are integers, and progress is an exact rational number rather than a floating-point one. The CSS text the script builds (`translateX(...px)`, `...%`) is modelled by its numbers: `trackOffset` and `progress`.
- The initial text of the theme label, and the initial style variables, come from the page markup and the stylesheet, which are not part of this model. Both start empty, and they are written by the first theme switch.
- Themes.Table: the lookup `themes[themeName]` (script.js:96-97) is modelled as a lookup among the four own keys of the theme table. A card key naming a property inherited from `Object.prototype` counts as an unknown key and changes nothing. Examples are "constructor", "toString", "valueOf", "hasOwnProperty" and "__proto__". In the script such a key passes the guard: the style variables become "undefined", the label shows "Object" or similar, a flash starts, and that key becomes the current theme.
- Themes.Applied: "unknown key" means a key other than the four theme names, as above; for inherited property names the script behaves differently.
- Carousel.Progress: stated on exact reals, so it does not capture floating-point rounding of the percentage.
