/** The `StatusCard` component: a title and value, an optional trend badge,
    an optional description line, and a border style chosen by variant.
    Optional props are `Option`s; a string prop counts as given only when it
    is non-empty, as JavaScript's `&&` treats "" as false. */
module StatusCard {
  import opened Wrappers

  datatype Variant = Default | Success | Warning | Danger

  datatype Trend = Up | Down | Stable

  /** The `variant = "default"` parameter default. */
  function VariantOrDefault(v: Option<Variant>): (r: Variant)
    ensures v.Some? ==> r == v.value
    ensures v.None? ==> r == Default
  {
    v.GetOr(Default)
  }

  /** `variantClasses[variant]`. */
  function VariantClass(v: Variant): string {
    match v
    case Default => "border-white/10 bg-black/30"
    case Success => "border-honeywell-green/30 bg-honeywell-green/5"
    case Warning => "border-honeywell-amber/30 bg-honeywell-amber/5"
    case Danger => "border-honeywell-red/30 bg-honeywell-red/5"
  }

  /** The four variants are told apart by their class strings. */
  lemma VariantClassInjective(a: Variant, b: Variant)
    ensures VariantClass(a) == VariantClass(b) <==> a == b
  {
    VariantClassTag(a);
    VariantClassTag(b);
  }

  /** Two characters that tell the class strings apart. */
  function Tag(v: Variant): (char, char) {
    match v
    case Default => ('w', 'g')
    case Success => ('h', 'g')
    case Warning => ('h', 'a')
    case Danger => ('h', 'r')
  }

  lemma VariantClassTag(v: Variant)
    ensures |VariantClass(v)| > 17
    ensures (VariantClass(v)[7], VariantClass(v)[17]) == Tag(v)
  {
    match v
    case Default =>
    case Success =>
    case Warning =>
    case Danger =>
  }

  /** `trendClasses[trend]`. */
  function TrendClass(t: Trend): string {
    match t
    case Up => "text-honeywell-green"
    case Down => "text-honeywell-red"
    case Stable => "text-honeywell-amber"
  }

  /** A `{cond && "x"}` child: the text when the condition holds, nothing
      otherwise. */
  function When(cond: bool, text: string): string {
    if cond then text else ""
  }

  /** The three conditional glyph children of the badge, in order. */
  function Glyphs(t: Trend): (g: string)
    ensures |g| == 1
    ensures g[0] == (match t case Up => '↑' case Down => '↓' case Stable => '→')
  {
    When(t == Up, "↑") + When(t == Down, "↓") + When(t == Stable, "→")
  }

  /** Different trends show different glyphs. */
  lemma GlyphsInjective(a: Trend, b: Trend)
    ensures Glyphs(a) == Glyphs(b) <==> a == b
  {
    if Glyphs(a) == Glyphs(b) {
      assert Glyphs(a)[0] == Glyphs(b)[0];
    }
  }

  /** A string prop as JavaScript's `&&` sees it: present and non-empty. */
  predicate Truthy(s: Option<string>) {
    s.Some? && s.value != ""
  }

  /** The rendered trend badge: its colour class and its text. */
  datatype Badge = Badge(tint: string, text: string)

  /** `{trend && trendValue && (...)}`: the badge shows the glyph, a space and
      the trend value, coloured by trend. */
  function TrendBadge(trend: Option<Trend>, trendValue: Option<string>): (b: Option<Badge>)
    ensures b.Some? <==> trend.Some? && Truthy(trendValue)
    ensures b.Some? ==> b.value.tint == TrendClass(trend.value)
    ensures b.Some? ==> |b.value.text| == |trendValue.value| + 2 && b.value.text[1] == ' '
    ensures b.Some? ==> b.value.text[2..] == trendValue.value && b.value.text[..1] == Glyphs(trend.value)
  {
    if trend.Some? && Truthy(trendValue) then
      Some(Badge(TrendClass(trend.value), Glyphs(trend.value) + " " + trendValue.value))
    else None
  }

  /** What a card renders. */
  datatype Card = Card(
    variantClass: string,
    title: string,
    value: string,
    badge: Option<Badge>,
    description: Option<string>)

  /** The whole component for the given props. */
  function Render(
    title: string,
    value: string,
    trend: Option<Trend>,
    trendValue: Option<string>,
    description: Option<string>,
    variant: Option<Variant>): (c: Card)
    ensures c.badge.Some? <==> trend.Some? && Truthy(trendValue)
    ensures c.description.Some? <==> Truthy(description)
    ensures c.description.Some? ==> c.description == description
    ensures c.variantClass == VariantClass(VariantOrDefault(variant))
    ensures variant.None? ==> c.variantClass == VariantClass(Default)
    ensures c.badge == TrendBadge(trend, trendValue)
    ensures c.title == title && c.value == value
  {
    Card(
      VariantClass(VariantOrDefault(variant)),
      title,
      value,
      TrendBadge(trend, trendValue),
      if Truthy(description) then description else None)
  }

  /** Two cards with different variants look different; the variant shown
      is the given one, or `Default` when none is given. */
  lemma RenderVariant(title: string, value: string, v: Option<Variant>, w: Option<Variant>)
    ensures var a := Render(title, value, None, None, None, v);
            var b := Render(title, value, None, None, None, w);
            a == b <==> VariantOrDefault(v) == VariantOrDefault(w)
  {
    VariantClassInjective(VariantOrDefault(v), VariantOrDefault(w));
  }
}
