/**
 * The icon component: the size classes, the path of an icon's SVG file
 * from its category and variant, the two specialised icons and the trend
 * arrow shown beside a metric's change.
 */
module Icons {
  import opened Wrappers
  import opened Strings

  datatype Category = Doodle | Space

  /** The width/height classes of the five named sizes. */
  const SizeMap: map<string, string> := map[
    "sm" := "w-4 h-4",
    "md" := "w-6 h-6",
    "lg" := "w-8 h-8",
    "xl" := "w-12 h-12",
    "2xl" := "w-24 h-24"]

  /** `sizeMap[size]`: the classes of a named size, none for any other size. */
  function SizeClass(size: string): (r: Option<string>)
    ensures r.Some? <==> size in {"sm", "md", "lg", "xl", "2xl"}
  {
    if size in SizeMap then Some(SizeMap[size]) else None
  }

  /** The five sizes are distinct: no two share their classes. */
  lemma SizeClassesDistinct(a: string, b: string)
    requires a in SizeMap && b in SizeMap && a != b
    ensures SizeMap[a] != SizeMap[b]
  {
    assert a in {"sm", "md", "lg", "xl", "2xl"};
    assert SizeMap["sm"][2] != SizeMap["md"][2] && SizeMap["md"][2] != SizeMap["lg"][2] && SizeMap["sm"][2] != SizeMap["lg"][2];
    assert |SizeMap["lg"]| < |SizeMap["xl"]| && SizeMap["xl"][2] != SizeMap["2xl"][2];
  }

  /** The space folders of the four variants. */
  const VariantFolders: map<string, string> := map[
    "regular" := "regular-outline",
    "filled" := "regular-filled-outline",
    "outline" := "regular-outline",
    "sticker" := "regular-filled-outline-sticker"]

  const DefaultFolder: string := "regular-outline"

  /** The folder of a space icon for a variant; an absent variant is `regular`, an unknown one falls back to the outline folder. */
  function SpaceFolder(variant: Option<string>): (r: string)
    ensures variant.Some? && variant.value in VariantFolders ==> r == VariantFolders[variant.value]
    ensures variant.Some? && variant.value !in VariantFolders ==> r == DefaultFolder
    ensures variant.None? ==> r == VariantFolders["regular"]
  {
    var v := variant.GetOr("regular");
    if v in VariantFolders then VariantFolders[v] else DefaultFolder
  }

  function DoodlePrefix(): string { "/icons/doodle/SVG/" }

  function SpacePrefix(folder: string): string { "/icons/space/" + folder + "/SVG/" }

  /** `getIconPath`: the SVG file of icon `name` in its category's folder. */
  function GetIconPath(name: string, category: Category, variant: Option<string>): (r: string)
    ensures category == Doodle ==> r == DoodlePrefix() + name + ".svg"
    ensures category == Space ==> r == SpacePrefix(SpaceFolder(variant)) + name + ".svg"
  {
    match category
    case Doodle => "/icons/doodle/SVG/" + name + ".svg"
    case Space => "/icons/space/" + SpaceFolder(variant) + "/SVG/" + name + ".svg"
  }

  /** The folder part of a path: the prefix before the name. */
  function PathPrefix(category: Category, variant: Option<string>): string {
    match category
    case Doodle => DoodlePrefix()
    case Space => SpacePrefix(SpaceFolder(variant))
  }

  /** The icon name is recovered from its path, so distinct icons of one category and variant have distinct files. */
  lemma IconNameFromPath(name: string, category: Category, variant: Option<string>)
    ensures var p := GetIconPath(name, category, variant);
      var k := |PathPrefix(category, variant)|;
      k + 4 <= |p| && p[k..|p| - 4] == name
  {
    var p := GetIconPath(name, category, variant);
    var pre := PathPrefix(category, variant);
    assert p == pre + name + ".svg";
    assert p[|pre|..|p| - 4] == name;
  }

  lemma IconPathInjective(a: string, b: string, category: Category, variant: Option<string>)
    requires GetIconPath(a, category, variant) == GetIconPath(b, category, variant)
    ensures a == b
  {
    IconNameFromPath(a, category, variant);
    IconNameFromPath(b, category, variant);
  }

  /** A doodle's path does not depend on the variant. */
  lemma DoodleIgnoresVariant(name: string, v: Option<string>, w: Option<string>)
    ensures GetIconPath(name, Doodle, v) == GetIconPath(name, Doodle, w)
  {
  }

  /** `regular` and `outline` share a folder, and an unknown variant falls back to it. */
  lemma SpaceVariantLaws(name: string, unknown: string)
    requires unknown !in VariantFolders
    ensures GetIconPath(name, Space, Some("regular")) == GetIconPath(name, Space, Some("outline"))
    ensures GetIconPath(name, Space, Some(unknown)) == GetIconPath(name, Space, Some("regular"))
    ensures GetIconPath(name, Space, None) == GetIconPath(name, Space, Some("regular"))
  {
  }

  /** What the icon renders: the image source, its alternative text and its size classes. */
  datatype IconImage = IconImage(src: string, alt: string, sizeClass: Option<string>)

  /** `Icon`, with its defaults: doodle category, `md` size, `regular` variant. */
  function Icon(name: string, category: Option<Category>, size: Option<string>, variant: Option<string>): (r: IconImage)
    ensures r.alt == name
    ensures r.src == GetIconPath(name, category.GetOr(Doodle), variant)
    ensures r.sizeClass == SizeClass(size.GetOr("md"))
  {
    IconImage(GetIconPath(name, category.GetOr(Doodle), variant), name, SizeClass(size.GetOr("md")))
  }

  /** `DoodleIcon`: a doodle, `sm` unless another size is given. */
  function DoodleIcon(name: string, size: Option<string>, variant: Option<string>): (r: IconImage)
    ensures r.src == DoodlePrefix() + name + ".svg"
    ensures size.None? ==> r.sizeClass == Some("w-4 h-4")
  {
    SmallSizeClass();
    Icon(name, Some(Doodle), Some(size.GetOr("sm")), variant)
  }

  /** The `lg` size and the `filled` variant that a space icon defaults to. */
  lemma DefaultSpaceLookups()
    ensures SizeClass("lg") == Some("w-8 h-8")
    ensures SpaceFolder(Some("filled")) == "regular-filled-outline"
  {
    assert "lg"[0] != "2xl"[0] && "lg"[0] != "xl"[0];
    assert "filled"[0] != "sticker"[0] && "filled"[0] != "outline"[0];
  }

  /** `SpaceIcon`: a space icon, `lg` and `filled` unless given otherwise. */
  function SpaceIcon(name: string, size: Option<string>, variant: Option<string>): (r: IconImage)
    ensures variant.None? ==> r.src == SpacePrefix("regular-filled-outline") + name + ".svg"
    ensures size.None? ==> r.sizeClass == Some("w-8 h-8")
  {
    DefaultSpaceLookups();
    Icon(name, Some(Space), Some(size.GetOr("lg")), Some(variant.GetOr("filled")))
  }

  datatype Direction = Up | Down | Neutral

  /** The arrow a trend shows; none for a neutral trend. */
  function TrendIconName(direction: Direction): (r: Option<string>)
    ensures r.None? <==> direction == Neutral
    ensures direction == Up ==> r == Some("arrows/arrow-up")
    ensures direction == Down ==> r == Some("arrows/arrow-down")
  {
    if direction == Neutral then None
    else if direction == Up then Some("arrows/arrow-up")
    else Some("arrows/arrow-down")
  }

  /** The classes of the `sm` size. */
  lemma SmallSizeClass()
    ensures SizeClass("sm") == Some("w-4 h-4")
  {
    assert "sm"[0] != "2xl"[0] && "sm"[0] != "xl"[0] && "sm"[0] != "lg"[0] && "sm"[0] != "md"[0];
  }

  /** `TrendIcon`: nothing for a neutral trend, otherwise a small doodle arrow. */
  function TrendIcon(direction: Direction): (r: Option<IconImage>)
    ensures r.None? <==> direction == Neutral
    ensures direction == Up ==> r.Some? && r.value.src == GetIconPath("arrows/arrow-up", Doodle, None)
    ensures direction == Down ==> r.Some? && r.value.src == GetIconPath("arrows/arrow-down", Doodle, None)
    ensures r.Some? ==> r.value.sizeClass == Some("w-4 h-4")
  {
    SmallSizeClass();
    match TrendIconName(direction)
    case None => None
    case Some(iconName) => Some(DoodleIcon(iconName, Some("sm"), None))
  }

  /** Rising and falling trends show different files. */
  lemma TrendArrowsDiffer()
    ensures TrendIcon(Up).value.src != TrendIcon(Down).value.src
  {
    assert |"arrows/arrow-up"| != |"arrows/arrow-down"|;
    if TrendIcon(Up).value.src == TrendIcon(Down).value.src {
      IconPathInjective("arrows/arrow-up", "arrows/arrow-down", Doodle, None);
    }
  }
}
