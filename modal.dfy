/** The character detail modal: nothing for a missing character; otherwise the image, the
    name, the description when there is one, and one capped section per non-empty category
    (stories up to 10, comics and series up to 5). */
module CharacterModal {
  import opened Wrappers
  import Text
  import opened Catalog

  const StoriesCap: nat := 10
  const ComicsCap: nat := 5
  const SeriesCap: nat := 5

  const StoriesTitle: string := "Histórias"
  const ComicsTitle: string := "Quadrinhos"
  const SeriesTitle: string := "Séries"

  /** The image shown once the thumbnail address failed to load. */
  const PlaceholderImage: string := "/placeholder-character.jpg"

  /** One category section: its title, the full number of items (shown in the heading) and
      the capped listing. */
  datatype Section = Section(title: string, total: nat, items: Listing)

  datatype Image = Image(src: string, alt: string)

  datatype View = View(
    image: Image,
    name: string,
    description: Option<string>,
    stories: Option<Section>,
    comics: Option<Section>,
    series: Option<Section>)

  /** The heading text, "Title (n)": the title, then the full count in parentheses, read back
      exactly. */
  function Heading(s: Section): (h: string)
    ensures |h| > |s.title| + 3
    ensures h[..|s.title| + 2] == s.title + " (" && h[|h| - 1] == ')'
    ensures Text.AllDigits(h[|s.title| + 2..|h| - 1])
    ensures Text.ParseDecimal(h[|s.title| + 2..|h| - 1]) == s.total
  {
    var digits := Text.Decimal(s.total);
    Text.DecimalRoundTrip(s.total);
    var h := s.title + " (" + digits + ")";
    assert h[|s.title| + 2..|h| - 1] == digits;
    h
  }

  /** The image source: the thumbnail address, replaced by the placeholder once the browser
      reported a load error. */
  function ImageSource(t: Thumbnail, loadFailed: bool): (src: string)
    ensures loadFailed ==> src == PlaceholderImage
    ensures !loadFailed ==> src == ImageUrl(t)
  {
    if loadFailed then PlaceholderImage else ImageUrl(t)
  }

  function CategorySection(title: string, names: seq<string>, cap: nat): (s: Option<Section>)
    ensures Presents(s, title, names, cap)
  {
    if |names| > 0 then Some(Section(title, |names|, Truncate(names, cap))) else None
  }

  /** A category section is there exactly when the category has items; its heading carries
      the full count, and its list shows the capped prefix with the overflow count. */
  predicate Presents(s: Option<Section>, title: string, names: seq<string>, cap: nat) {
    && (s.Some? <==> |names| > 0)
    && (s.Some? ==> s.value.title == title && s.value.total == |names| && Shows(s.value.items, names, cap))
  }

  /** `CharacterModal` for the selected character (or `null`) and whether its image failed
      to load. */
  function Render(character: Option<Character>, imageFailed: bool): (v: Option<View>)
    ensures v.None? <==> character.None?
    ensures character.Some? ==> var c, w := character.value, v.value;
      && w.name == c.name
      && w.image == Image(ImageSource(c.thumbnail, imageFailed), c.name)
      && (w.description.Some? <==> c.description != "")
      && (w.description.Some? ==> w.description.value == c.description)
      && Presents(w.stories, StoriesTitle, StoryNames(c.stories), StoriesCap)
      && Presents(w.comics, ComicsTitle, EntryNames(c.comics), ComicsCap)
      && Presents(w.series, SeriesTitle, EntryNames(c.series), SeriesCap)
  {
    match character
    case None => None
    case Some(c) =>
      Some(View(
        Image(ImageSource(c.thumbnail, imageFailed), c.name),
        c.name,
        if c.description != "" then Some(c.description) else None,
        CategorySection(StoriesTitle, StoryNames(c.stories), StoriesCap),
        CategorySection(ComicsTitle, EntryNames(c.comics), ComicsCap),
        CategorySection(SeriesTitle, EntryNames(c.series), SeriesCap)))
  }

  /** The worked case: twelve stories give ten list entries, in order, followed by
      "... e mais 2", under the heading "Histórias (12)". */
  lemma TwelveStories(c: Character, imageFailed: bool)
    requires |c.stories| == 12
    ensures var s := Render(Some(c), imageFailed).value.stories.value;
      && Heading(s) == "Histórias (12)"
      && Lines(s.items) == StoryNames(c.stories)[..10] + ["... e mais 2"]
  {
    var s := Render(Some(c), imageFailed).value.stories.value;
    assert Text.Decimal(12) == "12";
    assert s.items == Listing(StoryNames(c.stories)[..10], Some(2));
    assert Text.Decimal(2) == "2";
    assert OverflowLine(2) == "... e mais 2";
  }
}
