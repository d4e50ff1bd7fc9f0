/**
 * The views the style grid computes from the catalogue: the styles of one
 * category, most used first; the icon shown for a style; and the background
 * gradient of a card, cycling through its category's palette.
 */
module ArtStyleGrid {
  import opened Values

  /** Copies of `s` in `c`: how many times `s` occurs there. */
  function Count(c: seq<ArtStyle>, s: ArtStyle): nat
  {
    multiset(c)[s]
  }

  /** Non-increasing `usageCount` from front to back. */
  predicate ByUsageDescending(c: seq<ArtStyle>)
  {
    forall i, j :: 0 <= i < j < |c| ==> c[i].usageCount >= c[j].usageCount
  }

  /** `styles.filter(style => style.category === category)`: every copy of a style of the category, and nothing else. */
  function FilterCategory(styles: seq<ArtStyle>, category: string): (r: seq<ArtStyle>)
    ensures forall s :: Count(r, s) == if s.category == category then Count(styles, s) else 0
    ensures forall i :: 0 <= i < |r| ==> r[i].category == category
  {
    if styles == [] then []
    else
      var rest := FilterCategory(styles[1..], category);
      assert styles == [styles[0]] + styles[1..];
      if styles[0].category == category then [styles[0]] + rest else rest
  }

  /**
   * Puts `x` in front of the first style of `c` that is used at most as
   * often as `x`.  Within equal counts `x` goes first, which is where an
   * element that came before the others belongs in a stable sort.
   */
  function Insert(x: ArtStyle, c: seq<ArtStyle>): (r: seq<ArtStyle>)
    requires ByUsageDescending(c)
    ensures ByUsageDescending(r)
    ensures multiset(r) == multiset(c) + multiset{x}
    ensures |r| > 0 && (r[0] == x || (c != [] && r[0] == c[0]))
  {
    if c == [] || c[0].usageCount <= x.usageCount then
      ConsSorted(x, c);
      [x] + c
    else
      var rest := Insert(x, c[1..]);
      assert c == [c[0]] + c[1..];
      ConsSorted(c[0], rest);
      [c[0]] + rest
  }

  /** A style used at least as often as the head of a sorted list can go in front of it. */
  lemma ConsSorted(h: ArtStyle, t: seq<ArtStyle>)
    requires ByUsageDescending(t)
    requires t != [] ==> t[0].usageCount <= h.usageCount
    ensures ByUsageDescending([h] + t)
  {
    var l := [h] + t;
    forall i, j | 0 <= i < j < |l| ensures l[i].usageCount >= l[j].usageCount {
      if i == 0 {
        assert l[j] == t[j - 1];
      } else {
        assert l[i] == t[i - 1] && l[j] == t[j - 1];
      }
    }
  }

  /**
   * `Array.prototype.sort` with the comparator `(a, b) => b.usageCount -
   * a.usageCount`, a stable sort into non-increasing usage.
   */
  function SortByUsage(c: seq<ArtStyle>): (r: seq<ArtStyle>)
    ensures ByUsageDescending(r)
    ensures multiset(r) == multiset(c)
  {
    if c == [] then []
    else
      assert c == [c[0]] + c[1..];
      Insert(c[0], SortByUsage(c[1..]))
  }

  /**
   * `sortedStyles(category)`: exactly the catalogue styles of the category,
   * each as often as it occurs there, most used first.
   */
  function SortedStyles(styles: seq<ArtStyle>, category: string): (r: seq<ArtStyle>)
    ensures ByUsageDescending(r)
    ensures forall s :: Count(r, s) == if s.category == category then Count(styles, s) else 0
    ensures forall s :: s in r <==> s in styles && s.category == category
  {
    var r := SortByUsage(FilterCategory(styles, category));
    assert forall s :: s in r <==> Count(r, s) > 0;
    assert forall s :: s in styles <==> Count(styles, s) > 0;
    r
  }

  /** The icons a style card can show. */
  datatype Icon =
    | Palette | Brush | Pencil | Camera | Wand2 | Sparkles | Image | Layers | Pen | Zap | Star | Heart
    | Crown | Focus | Filter | Lightbulb | Droplet | Feather | Scissors | Triangle | Circle | Square
    | Diamond | Hexagon | Eye | Sun | Moon | Cloud | Mountain | Flower | Leaf | Flame | Snowflake
    | Music | Play | Pause | FastForward

  /** The style names that have their own icon. */
  const IconMap: map<string, Icon> := map[
    "Impasto Oil" := Droplet, "Acrylic Pop" := Triangle, "Renaissance Oil" := Crown,
    "Chinese Ink Wash" := Feather,
    "Graphite Portrait" := Pencil, "Charcoal Drama" := Flame, "Technical Ink" := Pen,
    "Colored Pencil" := Circle, "Chalk Pastel" := Cloud,
    "Studio Ghibli" := Heart, "Manga Style" := Star, "Anime Portrait" := Zap, "Chibi Art" := Sun,
    "Kawaii Style" := Flower, "Shoujo Style" := Diamond,
    "Pixel Art" := Square, "3D Render" := Hexagon, "Fantasy Art" := Mountain,
    "Minecraft Style" := Layers, "Fortnite Style" := Play,
    "Vintage Film" := Camera, "HDR Effect" := Eye, "Black & White" := Moon, "Film Noir" := Scissors,
    "Double Exposure" := Focus, "Vintage Sepia" := Leaf, "Lomography" := Filter,
    "Polaroid Instant" := Image, "HDR Surreal" := Lightbulb, "Cross Process" := Snowflake,
    "Long Exposure" := FastForward, "Infrared Photography" := Music, "Tilt-Shift Miniature" := Pause,
    "Pinhole Camera" := Sparkles, "Cyanotype Blue" := Wand2, "Daguerreotype" := Brush
  ]

  /**
   * `getStyleIcon`: the listed icon of the style's name, Palette for any
   * other name.  No listed name maps to Palette, so Palette is shown
   * exactly for the unlisted names.
   */
  function GetStyleIcon(style: ArtStyle): (r: Icon)
    ensures style.name in IconMap ==> r == IconMap[style.name]
    ensures r == Palette <==> style.name !in IconMap
  {
    if style.name in IconMap then IconMap[style.name] else Palette
  }

  const FallbackGradient := "bg-gradient-to-br from-gray-100 via-gray-200 to-gray-300"

  const PaintingGradients: seq<string> := [
      "bg-gradient-to-br from-orange-100 via-orange-200 to-orange-300",
      "bg-gradient-to-br from-orange-50 via-orange-200 to-orange-300",
      "bg-gradient-to-br from-amber-100 via-orange-200 to-orange-300",
      "bg-gradient-to-br from-orange-100 via-amber-200 to-amber-300",
      "bg-gradient-to-br from-orange-100 via-rose-200 to-rose-300"]

  const DrawingGradients: seq<string> := [
      "bg-gradient-to-br from-slate-100 via-slate-200 to-slate-300",
      "bg-gradient-to-br from-slate-50 via-slate-200 to-slate-300",
      "bg-gradient-to-br from-gray-100 via-gray-200 to-gray-300",
      "bg-gradient-to-br from-stone-100 via-stone-200 to-stone-300",
      "bg-gradient-to-br from-zinc-100 via-zinc-200 to-zinc-300"]

  const AnimeGradients: seq<string> := [
      "bg-gradient-to-br from-pink-100 via-pink-200 to-pink-300",
      "bg-gradient-to-br from-pink-200 via-pink-300 to-rose-300",
      "bg-gradient-to-br from-rose-100 via-rose-200 to-rose-300",
      "bg-gradient-to-br from-fuchsia-100 via-pink-200 to-pink-300",
      "bg-gradient-to-br from-pink-100 via-fuchsia-200 to-fuchsia-300",
      "bg-gradient-to-br from-purple-100 via-pink-200 to-pink-300"]

  const VideoGameGradients: seq<string> := [
      "bg-gradient-to-br from-emerald-100 via-emerald-200 to-emerald-300",
      "bg-gradient-to-br from-emerald-200 via-emerald-300 to-green-300",
      "bg-gradient-to-br from-green-100 via-emerald-200 to-emerald-300",
      "bg-gradient-to-br from-teal-100 via-emerald-200 to-emerald-300",
      "bg-gradient-to-br from-lime-100 via-green-200 to-green-300"]

  const PhotographyGradients: seq<string> := [
      "bg-gradient-to-br from-blue-100 via-blue-200 to-blue-300",
      "bg-gradient-to-br from-blue-200 via-blue-300 to-sky-300",
      "bg-gradient-to-br from-sky-100 via-blue-200 to-blue-300",
      "bg-gradient-to-br from-indigo-100 via-blue-200 to-blue-300",
      "bg-gradient-to-br from-cyan-100 via-blue-200 to-blue-300",
      "bg-gradient-to-br from-slate-100 via-indigo-200 to-indigo-300",
      "bg-gradient-to-br from-sky-100 via-sky-200 to-sky-300",
      "bg-gradient-to-br from-cyan-100 via-cyan-200 to-cyan-300",
      "bg-gradient-to-br from-blue-100 via-cyan-200 to-cyan-300"]

  /** `categoryColors[category].gradients`, None for a category without a colour scheme. */
  function CategoryGradients(category: string): (r: Option<seq<string>>)
    ensures r.None? <==>
      && category != "Painting Styles" && category != "Drawing & Sketch" && category != "Anime & Manga"
      && category != "Video Game Art" && category != "Photography Effects"
    ensures r.Some? ==> |r.value| == 5 || |r.value| == 6 || |r.value| == 9
  {
    if category == "Painting Styles" then Some(PaintingGradients)
    else if category == "Drawing & Sketch" then Some(DrawingGradients)
    else if category == "Anime & Manga" then Some(AnimeGradients)
    else if category == "Video Game Art" then Some(VideoGameGradients)
    else if category == "Photography Effects" then Some(PhotographyGradients)
    else None
  }

  /**
   * `getCategoryGradient(category, index)`, where `index` is the card's
   * position in the category's sorted list: the gray fallback for a
   * category without a scheme, otherwise the scheme's gradient at
   * `index % length`, which is always one of the scheme's gradients.
   */
  function GetCategoryGradient(category: string, index: nat): (r: string)
    ensures CategoryGradients(category).None? ==> r == FallbackGradient
    ensures CategoryGradients(category).Some? ==>
      var g := CategoryGradients(category).value;
      index % |g| < |g| && r == g[index % |g|] && r in g
  {
    match CategoryGradients(category)
    case None => FallbackGradient
    case Some(g) => g[index % |g|]
  }

  /** Cards a whole palette apart get the same gradient. */
  lemma GradientCycles(category: string, index: nat)
    requires CategoryGradients(category).Some?
    ensures GetCategoryGradient(category, index + |CategoryGradients(category).value|)
         == GetCategoryGradient(category, index)
  {
    var n := |CategoryGradients(category).value|;
    if n == 5 {
      assert (index + 5) % 5 == index % 5;
    } else if n == 6 {
      assert (index + 6) % 6 == index % 6;
    } else {
      assert (index + 9) % 9 == index % 9;
    }
  }
}
