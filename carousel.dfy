/** The index arithmetic and the presentation values of the dish carousel. */
module Carousel {
  import opened Themes

  /** Width of one card and the gap between two cards, in pixels. */
  const CardWidth: int := 350
  const CardGap: int := 48

  /** The slide a navigation request lands on in a carousel of `n` cards:
      a request below the first card wraps to the last, a request at or past
      the end wraps to the first, and any other request is kept. */
  function WrapIndex(target: int, n: nat): (i: nat)
    requires n > 0
    ensures i < n
    ensures 0 <= target < n ==> i == target
    ensures target < 0 ==> i == n - 1
    ensures target >= n ==> i == 0
  {
    var t := if target < 0 then n - 1 else target;
    if t >= n then 0 else t
  }

  lemma ModSucc(a: int, n: nat)
    requires n > 0
    ensures (a % n + 1) % n == (a + 1) % n
  {
    var q, r := a / n, a % n;
    assert a == q * n + r;
    if r + 1 < n {
      ModUnique(a + 1, q, r + 1, n);
      ModUnique(r + 1, 0, r + 1, n);
    } else {
      assert a + 1 == (q + 1) * n + 0;
      ModUnique(a + 1, q + 1, 0, n);
      ModUnique(r + 1, 1, 0, n);
    }
  }

  lemma ModPred(a: int, n: nat)
    requires n > 0
    ensures (a % n - 1) % n == (a - 1) % n
  {
    var q, r := a / n, a % n;
    assert a == q * n + r;
    if r > 0 {
      ModUnique(a - 1, q, r - 1, n);
      ModUnique(r - 1, 0, r - 1, n);
    } else {
      assert a - 1 == (q - 1) * n + (n - 1);
      ModUnique(a - 1, q - 1, n - 1, n);
      ModUnique(-1, -1, n - 1, n);
    }
  }

  /** Euclidean remainders are unique. */
  lemma ModUnique(a: int, q: int, r: int, n: nat)
    requires n > 0 && a == q * n + r && 0 <= r < n
    ensures a % n == r
  {
    var q', r' := a / n, a % n;
    assert a == q' * n + r';
    var d := q - q';
    assert d * n == r' - r by {
      assert q * n - q' * n == (q - q') * n;
    }
    if d > 0 {
      MulAtLeast(d, n);
    } else if d < 0 {
      MulAtLeast(-d, n);
    }
  }

  lemma MulAtLeast(d: int, n: nat)
    requires d >= 1
    ensures d * n >= n
  {
  }

  /** From a valid slide, "next" is addition modulo the card count. */
  lemma WrapNext(p: nat, n: nat)
    requires p < n
    ensures WrapIndex(p + 1, n) == (p + 1) % n
  {
  }

  /** From a valid slide, "previous" is subtraction modulo the card count. */
  lemma WrapPrev(p: nat, n: nat)
    requires p < n
    ensures WrapIndex(p - 1, n) == (p - 1 + n) % n
    ensures WrapIndex(p - 1, n) == (p - 1) % n
  {
  }

  /** "Previous" undoes "next" and "next" undoes "previous". */
  lemma NextPrevInverse(p: nat, n: nat)
    requires p < n
    ensures WrapIndex(WrapIndex(p + 1, n) - 1, n) == p
    ensures WrapIndex(WrapIndex(p - 1, n) + 1, n) == p
  {
  }

  /** The slide reached from `p` after `k` presses of "next". */
  function NextSteps(p: nat, k: nat, n: nat): (q: nat)
    requires p < n
    ensures q < n
  {
    if k == 0 then p else WrapIndex(NextSteps(p, k - 1, n) + 1, n)
  }

  /** The slide reached from `p` after `k` presses of "previous". */
  function PrevSteps(p: nat, k: nat, n: nat): (q: nat)
    requires p < n
    ensures q < n
  {
    if k == 0 then p else WrapIndex(PrevSteps(p, k - 1, n) - 1, n)
  }

  /** `k` presses of "next" from slide `p` reach slide (p + k) mod n. */
  lemma {:induction false} NextStepsIsMod(p: nat, k: nat, n: nat)
    requires p < n
    ensures NextSteps(p, k, n) == (p + k) % n
  {
    if k == 0 {
      ModUnique(p, 0, p, n);
    } else {
      NextStepsIsMod(p, k - 1, n);
      WrapNext(NextSteps(p, k - 1, n), n);
      ModSucc(p + k - 1, n);
    }
  }

  /** `k` presses of "previous" from slide `p` reach slide (p - k) mod n. */
  lemma {:induction false} PrevStepsIsMod(p: nat, k: nat, n: nat)
    requires p < n
    ensures PrevSteps(p, k, n) == (p - k) % n
  {
    if k == 0 {
      ModUnique(p, 0, p, n);
    } else {
      PrevStepsIsMod(p, k - 1, n);
      WrapPrev(PrevSteps(p, k - 1, n), n);
      ModPred(p - k + 1, n);
    }
  }

  /** `n` presses of "next" go once around the carousel. */
  lemma FullCircle(p: nat, n: nat)
    requires p < n
    ensures NextSteps(p, n, n) == p
    ensures PrevSteps(p, n, n) == p
  {
    NextStepsIsMod(p, n, n);
    PrevStepsIsMod(p, n, n);
    ModUnique(p + n, 1, p, n);
    ModUnique(p - n, -1, p, n);
  }

  /** Horizontal translation of the card track, in pixels, showing slide `i`. */
  function TrackOffset(i: int): (x: int)
    ensures x == 0 <==> i == 0
    ensures i > 0 ==> x < 0
  {
    -i * (CardWidth + CardGap)
  }

  /** The first slide is not shifted and each further slide shifts the track
      left by one card and one gap; this determines TrackOffset. */
  lemma TrackOffsetSteps(i: int)
    ensures TrackOffset(0) == 0
    ensures TrackOffset(i + 1) == TrackOffset(i) - (CardWidth + CardGap)
    ensures i > 0 ==> TrackOffset(i) < 0
  {
  }

  /** The progress bar's width, in percent, with slide `i` of `n` shown. */
  function Progress(i: int, n: nat): (r: real)
    requires n > 0
    ensures 0 <= i < n ==> 0.0 < r <= 100.0
    ensures i == n - 1 ==> r == 100.0
    ensures i == 0 ==> r == 100.0 / n as real
  {
    ((i + 1) as real / n as real) * 100.0
  }

  /** A later slide always shows more progress. */
  lemma ProgressIncreasing(i: int, j: int, n: nat)
    requires n > 0 && i < j
    ensures Progress(i, n) < Progress(j, n)
  {
    var d := n as real;
    assert (i + 1) as real / d < (j + 1) as real / d;
  }

  /** The inline style a card carries: none before the first render, or a
      scale factor and an opacity. */
  datatype CardStyle = Unstyled | Styled(scale: real, opacity: real)

  const Active: CardStyle := Styled(1.05, 1.0)
  const Inactive: CardStyle := Styled(0.95, 0.6)

  /** The styles of `n` cards when slide `active` is shown. */
  function CardStyles(n: nat, active: int): (s: seq<CardStyle>)
    ensures |s| == n
    ensures forall j :: 0 <= j < n ==> (s[j] == Active <==> j == active)
    ensures forall j :: 0 <= j < n && j != active ==> s[j] == Inactive
  {
    seq(n, j => if j == active then Active else Inactive)
  }

  /** The number of cards drawn in the active style. */
  function CountActive(s: seq<CardStyle>): nat
  {
    if s == [] then 0 else CountActive(s[..|s| - 1]) + (if s[|s| - 1] == Active then 1 else 0)
  }

  lemma {:induction false} ActiveCount(n: nat, active: int)
    ensures CountActive(CardStyles(n, active)) == if 0 <= active < n then 1 else 0
  {
    if n > 0 {
      assert CardStyles(n, active)[..n - 1] == CardStyles(n - 1, active);
      ActiveCount(n - 1, active);
    }
  }

  /** With a valid slide shown, exactly one card is active, and it is that slide. */
  lemma ExactlyOneActive(n: nat, active: int)
    requires 0 <= active < n
    ensures CountActive(CardStyles(n, active)) == 1
    ensures CardStyles(n, active)[active] == Active
  {
    ActiveCount(n, active);
  }

  /** Everything on the page the carousel decides: the current slide, the
      track's translation, the progress bar's width, each card's style and
      the themed part of the page. */
  datatype Screen = Screen(
    index: int,
    offset: int,
    progress: real,
    cards: seq<CardStyle>,
    theme: ThemeView)

  /** The screen shows a valid slide of `n`, and track, progress bar and cards agree with it. */
  predicate Settled(s: Screen, n: nat)
    requires n > 0
  {
    0 <= s.index < n &&
    s.offset == TrackOffset(s.index) &&
    s.progress == Progress(s.index, n) &&
    s.cards == CardStyles(n, s.index)
  }

  /** The screen after navigating to `target` in a carousel whose cards carry
      theme keys `keys`: the wrapped slide is shown with exactly one card
      active, and the theme follows that slide's card. */
  function Navigated(s: Screen, target: int, keys: seq<string>): (r: Screen)
    requires |keys| > 0
    ensures Settled(r, |keys|)
    ensures r.index == WrapIndex(target, |keys|)
    ensures CountActive(r.cards) == 1 && r.cards[r.index] == Active
    ensures keys[r.index] in Table() ==> r.theme.key == keys[r.index]
    ensures keys[r.index] !in Table() ==> r.theme == s.theme
    ensures Coherent(s.theme) ==> Coherent(r.theme)
  {
    var i := WrapIndex(target, |keys|);
    ExactlyOneActive(|keys|, i);
    Screen(i, TrackOffset(i), Progress(i, |keys|), CardStyles(|keys|, i), Followed(s.theme, keys[i]))
  }

  /** Navigating again to the slide already shown changes nothing. */
  lemma NavigatedFixpoint(s: Screen, target: int, keys: seq<string>)
    requires |keys| > 0
    ensures var r := Navigated(s, target, keys); Navigated(r, r.index, keys) == r
  {
  }
}
