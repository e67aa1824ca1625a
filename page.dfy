/** The landing page's carousel and theme controller: the active slide, the
    active theme, everything on the page that the two decide, and the input
    handlers that move between slides. */
module Page {
  import opened Wrappers
  import opened Themes
  import opened Carousel
  import opened Gestures

  /** The number of ambient particles created when the page loads. */
  const ParticleCount: nat := 30

  /** The screen as the page loads, before the first slide is shown. */
  function LoadScreen(n: nat): (r: Screen)
    ensures r.index == 0 && |r.cards| == n
    ensures r.theme.key == InitialKey && |r.theme.particles| == ParticleCount
    ensures Coherent(r.theme)
    ensures forall j :: 0 <= j < n ==> r.cards[j] == Unstyled
    ensures r.theme.flashes == 0 && forall i :: 0 <= i < ParticleCount ==> r.theme.particles[i] == ParticleStyle("", "")
  {
    Screen(0, 0, 0.0, seq(n, _ => Unstyled),
           ThemeView(InitialKey, map[], Indicator("", "", ""), 0, seq(ParticleCount, _ => ParticleStyle("", ""))))
  }

  /** A touch from x = 300 to x = 200 moves on by exactly one dish; one that
      travels exactly the threshold does not move. */
  lemma SwipeScenario(s: Screen, keys: seq<string>)
    requires |keys| > 1 && Settled(s, |keys|) && s.index == 0
    ensures Step(s, SwipeNav(300, 200), keys).index == 1
    ensures Step(s, SwipeNav(300, 250), keys) == s
  {
  }

  class Controller {
    /** The theme key of each dish card, in carousel order ("" when a card has none). */
    const cards: seq<string>
    var currentIndex: int
    var currentTheme: string
    /** The page-wide style variables set inline on the document root. */
    var style: map<StyleVar, string>
    var indicator: Indicator
    /** How many times the full-page palette flash was started. */
    var flashes: nat
    /** The track's translation in pixels and the progress bar's width in percent. */
    var trackOffset: int
    var progress: real
    const cardStyles: array<CardStyle>
    const particles: array<ParticleStyle>
    // Gesture state.
    var touchStartX: int
    var touchEndX: int
    var isDragging: bool
    var startX: Option<int>

    /** The themed part of the page. */
    ghost function View(): ThemeView
      reads this, particles
    {
      ThemeView(currentTheme, style, indicator, flashes, particles[..])
    }

    /** Everything on the page the controller decides. */
    ghost function Shown(): Screen
      reads this, particles, cardStyles
    {
      Screen(currentIndex, trackOffset, progress, cardStyles[..], View())
    }

    /** The controller's invariant: at least one card, one style slot per
        card, a valid slide, and a coherent theme. */
    ghost predicate Valid()
      reads this, particles
    {
      |cards| > 0 &&
      cardStyles.Length == |cards| &&
      0 <= currentIndex < |cards| &&
      Coherent(View())
    }

    /** The track, the progress bar and the cards all show the current slide. */
    ghost predicate Rendered()
      reads this, particles, cardStyles
    {
      Valid() && Settled(Shown(), |cards|)
    }

    /** The gesture state is as it was. */
    twostate predicate GestureKept()
      reads this
    {
      touchStartX == old(touchStartX) &&
      touchEndX == old(touchEndX) &&
      isDragging == old(isDragging) &&
      startX == old(startX)
    }

    /** Page load: the initial theme and slide, the unstyled cards and
        particles, and the first render of slide 0. */
    constructor (cards: seq<string>)
      requires |cards| > 0
      ensures Rendered()
      ensures this.cards == cards && fresh(cardStyles) && fresh(particles)
      ensures Shown() == Navigated(LoadScreen(|cards|), 0, cards)
      ensures touchStartX == 0 && touchEndX == 0 && !isDragging && startX == None
    {
      this.cards := cards;
      currentTheme := InitialKey;
      currentIndex := 0;
      style := map[];
      indicator := Indicator("", "", "");
      flashes := 0;
      trackOffset := 0;
      progress := 0.0;
      cardStyles := new CardStyle[|cards|](_ => Unstyled);
      particles := new ParticleStyle[ParticleCount](_ => ParticleStyle("", ""));
      touchStartX, touchEndX := 0, 0;
      isDragging := false;
      startX := None;
      new;
      assert cardStyles[..] == seq(|cards|, _ => Unstyled);
      assert particles[..] == seq(ParticleCount, _ => ParticleStyle("", ""));
      GoToSlide(0);
    }

    /** Paints every particle in `color`. */
    method UpdateParticles(color: string)
      modifies particles
      ensures particles[..] == Repainted(particles.Length, color)
    {
      var i := 0;
      while i < particles.Length
        invariant 0 <= i <= particles.Length
        invariant forall j :: 0 <= j < i ==> particles[j] == Painted(color)
      {
        particles[i] := Painted(color);
        i := i + 1;
      }
      assert particles[..] == Repainted(particles.Length, color);
    }

    /** Sets the seven page-wide style variables to palette `t`. */
    method SetStyleVariables(t: Theme)
      modifies this`style
      ensures style == Palette(t)
    {
      style := style[PrimaryBg := t.primaryBg];
      style := style[SecondaryBg := t.secondaryBg];
      style := style[Accent := t.accent];
      style := style[TextPrimary := t.textPrimary];
      style := style[TextSecondary := t.textSecondary];
      style := style[Glow := t.glow];
      style := style[ParticleColor := t.particle];
      PaletteWrites(old(style), t);
    }

    /** Applies theme `key`; a key missing from the table changes nothing. */
    method ApplyTheme(key: string)
      requires Valid()
      modifies this, particles
      ensures Valid()
      ensures View() == Applied(old(View()), key)
      ensures currentIndex == old(currentIndex) && trackOffset == old(trackOffset)
      ensures progress == old(progress) && GestureKept()
    {
      if key in Table() {
        PaintTheme(key, Table()[key]);
      }
    }

    /** Writes palette `t` to the style variables and the label, starts the
        flash, repaints the particles and makes `key` current. */
    method PaintTheme(key: string, t: Theme)
      modifies this, particles
      ensures View() == Paint(old(View()), key, t)
      ensures currentIndex == old(currentIndex) && trackOffset == old(trackOffset)
      ensures progress == old(progress) && GestureKept()
    {
      SetStyleVariables(t);
      indicator := Indicator(t.name, t.accent, t.accent);
      flashes := flashes + 1;
      UpdateParticles(t.particle);
      currentTheme := key;
    }

    /** Applies the active card's theme when it names one other than the current theme. */
    method FollowCardTheme()
      requires Valid()
      modifies this, particles
      ensures Valid()
      ensures View() == Followed(old(View()), cards[currentIndex])
      ensures currentIndex == old(currentIndex) && trackOffset == old(trackOffset)
      ensures progress == old(progress) && GestureKept()
    {
      var newTheme := cards[currentIndex];
      if newTheme != "" && newTheme != currentTheme {
        ApplyTheme(newTheme);
      }
    }

    /** Draws card `active` enlarged and opaque and every other card shrunk and faded. */
    method HighlightCards(active: int)
      modifies cardStyles
      ensures cardStyles[..] == CardStyles(cardStyles.Length, active)
    {
      var j := 0;
      while j < cardStyles.Length
        invariant 0 <= j <= cardStyles.Length
        invariant forall k :: 0 <= k < j ==> cardStyles[k] == if k == active then Active else Inactive
      {
        if j == active {
          cardStyles[j] := Active;
        } else {
          cardStyles[j] := Inactive;
        }
        j := j + 1;
      }
    }

    /** Shows slide `index`, wrapped into range, and brings the theme, the
        track, the progress bar and the card styles in line with it. */
    method GoToSlide(index: int)
      requires Valid()
      modifies this, particles, cardStyles
      ensures Rendered()
      ensures Shown() == Navigated(old(Shown()), index, cards)
      ensures GestureKept()
    {
      var i := index;
      if i < 0 {
        i := |cards| - 1;
      }
      if i >= |cards| {
        i := 0;
      }
      currentIndex := i;
      trackOffset := TrackOffset(currentIndex);
      progress := Progress(currentIndex, |cards|);
      FollowCardTheme();
      HighlightCards(currentIndex);
    }

    /** The "next" button: one slide forward, from the last back to the first. */
    method Next()
      requires Valid()
      modifies this, particles, cardStyles
      ensures Rendered() && GestureKept()
      ensures Shown() == Navigated(old(Shown()), old(currentIndex) + 1, cards)
      ensures currentIndex == (old(currentIndex) + 1) % |cards|
    {
      WrapNext(currentIndex, |cards|);
      GoToSlide(currentIndex + 1);
    }

    /** The "previous" button: one slide back, from the first round to the last. */
    method Prev()
      requires Valid()
      modifies this, particles, cardStyles
      ensures Rendered() && GestureKept()
      ensures Shown() == Navigated(old(Shown()), old(currentIndex) - 1, cards)
      ensures currentIndex == (old(currentIndex) - 1 + |cards|) % |cards|
    {
      WrapPrev(currentIndex, |cards|);
      GoToSlide(currentIndex - 1);
    }

    /** A key press: the arrow keys move one slide, any other key does nothing. */
    method KeyDown(key: string)
      requires Valid()
      modifies this, particles, cardStyles
      ensures Valid() && GestureKept()
      ensures Shown() == Step(old(Shown()), KeyNav(key), cards)
    {
      ghost var before := Shown();
      if key == "ArrowLeft" {
        GoToSlide(currentIndex - 1);
        assert |key| != |"ArrowRight"|;
      }
      assert key != "ArrowLeft" ==> Shown() == before;
      if key == "ArrowRight" {
        GoToSlide(currentIndex + 1);
      }
    }

    /** A touch begins at horizontal screen position `x`. */
    method TouchStart(x: int)
      modifies this
      ensures touchStartX == x
      ensures touchEndX == old(touchEndX) && isDragging == old(isDragging) && startX == old(startX)
      ensures Shown() == old(Shown())
    {
      touchStartX := x;
    }

    /** A touch ends at horizontal screen position `x` and is classified as a swipe. */
    method TouchEnd(x: int)
      requires Valid()
      modifies this, particles, cardStyles
      ensures touchEndX == x
      ensures touchStartX == old(touchStartX) && isDragging == old(isDragging) && startX == old(startX)
      ensures Valid()
      ensures Shown() == Step(old(Shown()), SwipeNav(touchStartX, x), cards)
    {
      touchEndX := x;
      HandleSwipe();
    }

    /** Navigates at most one slide according to the recorded touch. */
    method HandleSwipe()
      requires Valid()
      modifies this, particles, cardStyles
      ensures Valid() && GestureKept()
      ensures Shown() == Step(old(Shown()), SwipeNav(touchStartX, touchEndX), cards)
    {
      var diff := touchStartX - touchEndX;
      if Abs(diff) > SwipeThreshold {
        if diff > 0 {
          GoToSlide(currentIndex + 1);
        } else {
          GoToSlide(currentIndex - 1);
        }
      }
    }

    /** The mouse is pressed at page position `pageX` on a track whose left
        edge is at `offsetLeft`. */
    method MouseDown(pageX: int, offsetLeft: int)
      modifies this
      ensures isDragging && startX == Some(pageX - offsetLeft)
      ensures touchStartX == old(touchStartX) && touchEndX == old(touchEndX)
      ensures Shown() == old(Shown())
    {
      isDragging := true;
      startX := Some(pageX - offsetLeft);
    }

    /** The mouse leaves the track. The drag flag is cleared but the recorded
        press position is kept, so a later release still navigates from it. */
    method MouseLeave()
      modifies this
      ensures !isDragging
      ensures touchStartX == old(touchStartX) && touchEndX == old(touchEndX) && startX == old(startX)
      ensures Shown() == old(Shown())
    {
      isDragging := false;
    }

    /** The mouse is released at page position `pageX`: at most one slide,
        decided by the doubled distance from the recorded press. */
    method MouseUp(pageX: int, offsetLeft: int)
      requires Valid()
      modifies this, particles, cardStyles
      ensures !isDragging
      ensures touchStartX == old(touchStartX) && touchEndX == old(touchEndX) && startX == old(startX)
      ensures Valid()
      ensures Shown() == Step(old(Shown()), DragNav(startX, pageX - offsetLeft), cards)
    {
      isDragging := false;
      var x := pageX - offsetLeft;
      if startX.Some? {
        var walk := (x - startX.value) * DragFactor;
        ghost var before := Shown();
        if walk > DragThreshold {
          GoToSlide(currentIndex - 1);
        }
        assert walk <= DragThreshold ==> Shown() == before;
        if walk < -DragThreshold {
          GoToSlide(currentIndex + 1);
        }
      }
    }
  }

  /** Pressing on the track, leaving it and releasing 100 pixels to the right
      of the press still goes back one slide: leaving clears the drag flag,
      which no handler reads. */
  method LeaveThenRelease(c: Controller)
    requires c.Valid()
    modifies c, c.particles, c.cardStyles
    ensures c.Valid()
    ensures c.Shown() == Step(old(c.Shown()), Prev, c.cards)
  {
    c.MouseDown(0, 0);
    c.MouseLeave();
    c.MouseUp(100, 0);
  }
}
