/** The character record both components render, and the display rules they share: show a
    capped prefix of a list of names with a count of what was left out, and build an image
    address from a thumbnail. */
module Catalog {
  import opened Wrappers
  import Text

  datatype Thumbnail = Thumbnail(path: string, extension: string)

  datatype Story = Story(name: string, storyType: string)

  datatype Entry = Entry(name: string)

  /** One character as the upstream API returns it. `comics` and `series` are read through
      optional chaining by the modal, so their absence is part of the model; `stories` is
      always read directly. */
  datatype Character = Character(
    id: string,
    name: string,
    description: string,
    thumbnail: Thumbnail,
    stories: seq<Story>,
    comics: Option<seq<Entry>>,
    series: Option<seq<Entry>>)

  function StoryNames(stories: seq<Story>): (names: seq<string>)
    ensures |names| == |stories|
    ensures forall i :: 0 <= i < |stories| ==> names[i] == stories[i].name
  {
    seq(|stories|, i requires 0 <= i < |stories| => stories[i].name)
  }

  /** The names of an optional list; a missing list has none. */
  function EntryNames(entries: Option<seq<Entry>>): (names: seq<string>)
    ensures entries.None? ==> names == []
    ensures entries.Some? ==> |names| == |entries.value|
    ensures entries.Some? ==> forall i :: 0 <= i < |entries.value| ==> names[i] == entries.value[i].name
  {
    match entries
    case None => []
    case Some(es) => seq(|es|, i requires 0 <= i < |es| => es[i].name)
  }

  function Min(a: nat, b: nat): nat {
    if a <= b then a else b
  }

  /** What a capped list shows: the first entries, and how many more there are when some
      were cut off. */
  datatype Listing = Listing(shown: seq<string>, more: Option<nat>)

  /** The meaning of a capped listing of `names` with cap `cap`: the first `min(n, cap)` names
      in their original order, and an overflow count exactly when `n > cap`, which together
      with the shown entries accounts for every name. */
  predicate Shows(l: Listing, names: seq<string>, cap: nat) {
    && |l.shown| == Min(|names|, cap)
    && l.shown == names[..|l.shown|]
    && (l.more.Some? <==> |names| > cap)
    && (l.more.Some? ==> |l.shown| + l.more.value == |names|)
  }

  /** `items.slice(0, cap)` followed by the `items.length > cap` test. */
  function Truncate(names: seq<string>, cap: nat): (l: Listing)
    ensures Shows(l, names, cap)
  {
    if |names| > cap then Listing(names[..cap], Some(|names| - cap)) else Listing(names, None)
  }

  /** The prefix of the overflow line; the count follows it. */
  const OverflowPrefix: string := "... e mais "

  function OverflowLine(count: nat): (line: string)
    ensures |line| > |OverflowPrefix| && line[..|OverflowPrefix|] == OverflowPrefix
    ensures Text.AllDigits(line[|OverflowPrefix|..])
    ensures Text.ParseDecimal(line[|OverflowPrefix|..]) == count
  {
    var digits := Text.Decimal(count);
    Text.DecimalRoundTrip(count);
    assert (OverflowPrefix + digits)[|OverflowPrefix|..] == digits;
    OverflowPrefix + digits
  }

  /** The list items a capped section renders: the shown names, then the overflow line. */
  function Lines(l: Listing): (lines: seq<string>)
    ensures |lines| == |l.shown| + (if l.more.Some? then 1 else 0)
    ensures lines[..|l.shown|] == l.shown
    ensures l.more.Some? ==> |lines[|lines| - 1]| > |OverflowPrefix|
    ensures l.more.Some? ==> lines[|lines| - 1][..|OverflowPrefix|] == OverflowPrefix
    ensures l.more.Some? ==> Text.AllDigits(lines[|lines| - 1][|OverflowPrefix|..])
    ensures l.more.Some? ==> Text.ParseDecimal(lines[|lines| - 1][|OverflowPrefix|..]) == l.more.value
  {
    l.shown + (match l.more case Some(k) => [OverflowLine(k)] case None => [])
  }

  /** The rendered list of a capped category: one line per shown name, in order, and a final
      "... e mais (n - cap)" line exactly when `n > cap`. */
  lemma LinesOfTruncated(names: seq<string>, cap: nat)
    ensures var lines := Lines(Truncate(names, cap));
      && |lines| == Min(|names|, cap) + (if |names| > cap then 1 else 0)
      && lines[..Min(|names|, cap)] == names[..Min(|names|, cap)]
      && (|names| > cap ==> lines[|lines| - 1] == OverflowLine(|names| - cap))
  {
  }

  /** The address of a thumbnail image: path, a dot, extension. */
  function ImageUrl(t: Thumbnail): (url: string)
    ensures |url| == |t.path| + 1 + |t.extension|
    ensures url[..|t.path|] == t.path && url[|t.path|] == '.' && url[|t.path| + 1..] == t.extension
  {
    t.path + "." + t.extension
  }
}
