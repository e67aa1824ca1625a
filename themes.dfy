/** The fixed table of colour palettes and the rule that decides when the
    carousel replaces the page's palette by the active card's one. */
module Themes {

  /** One palette: a display name and seven colour values, kept as opaque strings. */
  datatype Theme = Theme(
    name: string,
    primaryBg: string,
    secondaryBg: string,
    accent: string,
    textPrimary: string,
    textSecondary: string,
    glow: string,
    particle: string)

  /** The theme key the page holds before any card has been shown. */
  const InitialKey: string := "truffle"

  const Truffle: Theme := Theme("Midnight Truffle", "#0a0a0a", "#1a1a1a", "#d4af37",
                                "#ffffff", "#b0b0b0", "rgba(212, 175, 55, 0.3)", "#d4af37")
  const Saffron: Theme := Theme("Sunset Saffron", "#1a0f0a", "#2d1f14", "#ff6b35",
                                "#fff8f0", "#ffb088", "rgba(255, 107, 53, 0.4)", "#ff6b35")
  const Ocean: Theme := Theme("Ocean Pearl", "#001a33", "#003366", "#00d9ff",
                              "#e6f7ff", "#80d4ff", "rgba(0, 217, 255, 0.4)", "#00d9ff")
  const Ember: Theme := Theme("Ember & Smoke", "#1a0505", "#330a0a", "#ff4500",
                              "#fff0f0", "#ff9980", "rgba(255, 69, 0, 0.4)", "#ff4500")

  /** The four palettes, keyed by the short name a card carries. */
  function Table(): map<string, Theme>
  {
    map["truffle" := Truffle, "saffron" := Saffron, "ocean" := Ocean, "ember" := Ember]
  }

  /** The page-wide style variables a palette is written to. */
  datatype StyleVar = PrimaryBg | SecondaryBg | Accent | TextPrimary | TextSecondary | Glow | ParticleColor

  /** The custom-property name under which a style variable is set on the document root. */
  function CssName(v: StyleVar): string
  {
    match v
    case PrimaryBg => "--primary-bg"
    case SecondaryBg => "--secondary-bg"
    case Accent => "--accent-color"
    case TextPrimary => "--text-primary"
    case TextSecondary => "--text-secondary"
    case Glow => "--glow-color"
    case ParticleColor => "--particle-color"
  }

  /** Distinct style variables are distinct custom properties, so the seven
      writes of a palette never overwrite one another. */
  lemma CssNameInjective(a: StyleVar, b: StyleVar)
    ensures CssName(a) == CssName(b) ==> a == b
  {
  }

  const StyleVars: set<StyleVar> :=
    {PrimaryBg, SecondaryBg, Accent, TextPrimary, TextSecondary, Glow, ParticleColor}

  /** The seven variables as a palette sets them: every variable gets the
      palette's colour of the same name. */
  function Palette(t: Theme): (m: map<StyleVar, string>)
    ensures m.Keys == StyleVars
  {
    map[
      PrimaryBg := t.primaryBg,
      SecondaryBg := t.secondaryBg,
      Accent := t.accent,
      TextPrimary := t.textPrimary,
      TextSecondary := t.textSecondary,
      Glow := t.glow,
      ParticleColor := t.particle
    ]
  }

  /** Setting the seven variables one by one, whatever they held before,
      leaves exactly the palette: no earlier theme shows through. */
  lemma PaletteWrites(m: map<StyleVar, string>, t: Theme)
    ensures m[PrimaryBg := t.primaryBg][SecondaryBg := t.secondaryBg][Accent := t.accent]
             [TextPrimary := t.textPrimary][TextSecondary := t.textSecondary][Glow := t.glow]
             [ParticleColor := t.particle] == Palette(t)
  {
    var w := m[PrimaryBg := t.primaryBg][SecondaryBg := t.secondaryBg][Accent := t.accent]
             [TextPrimary := t.textPrimary][TextSecondary := t.textSecondary][Glow := t.glow]
             [ParticleColor := t.particle];
    forall v | v in m
      ensures v in StyleVars
    {
      match v
      case PrimaryBg =>
      case SecondaryBg =>
      case Accent =>
      case TextPrimary =>
      case TextSecondary =>
      case Glow =>
      case ParticleColor =>
    }
    assert w.Keys == Palette(t).Keys;
  }

  /** The page switches palette when the shown card names a theme that is
      non-empty, different from the current one and present in the table. */
  predicate Switches(current: string, key: string)
  {
    key != "" && key != current && key in Table()
  }

  /** The theme key held after a card with theme key `key` becomes active. */
  function NextTheme(current: string, key: string): (r: string)
    ensures key in Table() ==> r == key
    ensures key !in Table() ==> r == current
    ensures current in Table() ==> r in Table()
  {
    if Switches(current, key) then key else current
  }

  /** A card switches the palette exactly when it changes which theme is current. */
  lemma SwitchChangesTheme(current: string, key: string)
    ensures Switches(current, key) <==> NextTheme(current, key) != current
  {
  }

  /** The inline colours of one ambient particle ("" before the first palette). */
  datatype ParticleStyle = ParticleStyle(background: string, boxShadow: string)

  /** A particle painted in `color`: that background and a glow of the same colour. */
  function Painted(color: string): ParticleStyle
  {
    ParticleStyle(color, "0 0 10px " + color)
  }

  /** The theme-name label: its text, its border colour and its text colour. */
  datatype Indicator = Indicator(text: string, borderColor: string, color: string)

  /** Everything on the page a theme decides: the current key, the style
      variables, the label, how many palette flashes were started and the
      particles' colours. */
  datatype ThemeView = ThemeView(
    key: string,
    style: map<StyleVar, string>,
    indicator: Indicator,
    flashes: nat,
    particles: seq<ParticleStyle>)

  /** The page is painted in palette `t`. */
  predicate Shows(v: ThemeView, t: Theme)
  {
    v.style == Palette(t) &&
    v.indicator == Indicator(t.name, t.accent, t.accent) &&
    forall i :: 0 <= i < |v.particles| ==> v.particles[i] == Painted(t.particle)
  }

  /** The current key is a table entry and, once any palette has been
      applied, the page is painted in that entry's palette. */
  predicate Coherent(v: ThemeView)
  {
    v.key in Table() && (v.flashes > 0 ==> Shows(v, Table()[v.key]))
  }

  /** `n` particles all painted in `color`. */
  function Repainted(n: nat, color: string): (r: seq<ParticleStyle>)
    ensures |r| == n
    ensures forall i :: 0 <= i < n ==> r[i] == Painted(color)
  {
    seq(n, _ => Painted(color))
  }

  /** The page after palette `t` has been applied under key `key`: the
      palette in the style variables, its name in its accent colour on the
      label, one more flash, every particle in its particle colour. */
  function Paint(v: ThemeView, key: string, t: Theme): (w: ThemeView)
    ensures w.key == key && Shows(w, t)
    ensures w.flashes == v.flashes + 1 && |w.particles| == |v.particles|
  {
    ThemeView(key, Palette(t), Indicator(t.name, t.accent, t.accent), v.flashes + 1,
              Repainted(|v.particles|, t.particle))
  }

  /** The page after applying theme `key`: a key missing from the table
      changes nothing; a table entry is painted and becomes the current key. */
  function Applied(v: ThemeView, key: string): (w: ThemeView)
    ensures key !in Table() ==> w == v
    ensures key in Table() ==> w.key == key && Shows(w, Table()[key])
    ensures key in Table() ==> w.flashes == v.flashes + 1 && |w.particles| == |v.particles|
    ensures Coherent(v) ==> Coherent(w)
  {
    if key !in Table() then v else Paint(v, key, Table()[key])
  }

  /** The page after a card with theme key `key` becomes active: the theme is
      applied exactly when it switches, and otherwise nothing changes. */
  function Followed(v: ThemeView, key: string): (w: ThemeView)
    ensures w.key == NextTheme(v.key, key)
    ensures Switches(v.key, key) ==> w == Applied(v, key)
    ensures !Switches(v.key, key) ==> w == v
    ensures w.flashes == if Switches(v.key, key) then v.flashes + 1 else v.flashes
    ensures Coherent(v) ==> Coherent(w)
  {
    if key != "" && key != v.key then Applied(v, key) else v
  }

  /** Showing the same card twice switches at most once. */
  lemma FollowedIdempotent(v: ThemeView, key: string)
    ensures Followed(Followed(v, key), key) == Followed(v, key)
  {
  }
}
